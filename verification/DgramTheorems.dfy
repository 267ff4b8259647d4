/** What claims on a UDP socket guarantee over whole runs. */
module DgramTheorems {
  import opened DgramRouting
  import opened DgramClaims

  lemma InitInv(demux: bool)
    ensures Inv(Init(demux))
  {
  }

  lemma {:induction false} DemuxFixed(s: Socket, acts: seq<Action>)
    ensures Exec(s, acts).demux == s.demux
  {
    if acts != [] {
      DemuxFixed(s, acts[..|acts| - 1]);
    }
  }

  lemma ArrivalStep(s: Socket, a: Action)
    ensures Step(s, a).arrivals == s.arrivals + if a.Lookup? && s.pc.Free? then [a.datagram] else []
    ensures s.dests <= Step(s, a).dests
  {
  }

  lemma {:induction false} ExecReceived(s: Socket, acts: seq<Action>)
    ensures Exec(s, acts).arrivals == s.arrivals + ReceivedIn(s, acts)
    ensures s.dests <= Exec(s, acts).dests
  {
    if acts != [] {
      ExecReceived(s, acts[..|acts| - 1]);
      ArrivalStep(Exec(s, acts[..|acts| - 1]), acts[|acts| - 1]);
    }
  }

  lemma {:induction false} ExecConcat(s: Socket, a: seq<Action>, b: seq<Action>)
    ensures Exec(s, a + b) == Exec(Exec(s, a), b)
    decreases |b|
  {
    if b == [] {
      assert a + b == a;
    } else {
      assert (a + b)[..|a + b| - 1] == a + b[..|b| - 1];
      ExecConcat(s, a, b[..|b| - 1]);
    }
  }

  // ---- where datagrams go ------------------------------------------------------

  /** At most one open peer per address: every open peer is the map entry of its address. */
  lemma OneOpenPeerPerAddress(demux: bool, acts: seq<Action>)
    ensures var s := Exec(Init(demux), acts);
            && |s.owner| == |s.open|
            && (forall p: Peer :: IsOpen(s, p) ==> s.owner[p] in s.claims && s.claims[s.owner[p]] == p)
            && (forall p: Peer, q: Peer :: IsOpen(s, p) && IsOpen(s, q) && s.owner[p] == s.owner[q] ==> p == q)
  {
    ExecInv(Init(demux), acts);
  }

  /** Every datagram received in a run has exactly one destination, but for the one
      being held; the handler and every peer got exactly the datagrams destined for
      them, in order of arrival, and a peer only datagrams of its own address. */
  lemma EveryDatagramAccounted(demux: bool, acts: seq<Action>)
    ensures var s := Exec(Init(demux), acts);
            && s.arrivals == ReceivedIn(Init(demux), acts)
            && |s.arrivals| == |s.dests| + (if s.pc.Holding? then 1 else 0)
            && s.handed == SentTo(s.arrivals[..|s.dests|], s.dests, ToParent)
            && (forall p :: 0 <= p < |s.delivered| ==>
                  s.delivered[p] == Payloads(SentTo(s.arrivals[..|s.dests|], s.dests, ToPeer(p))))
            && (forall i :: 0 <= i < |s.dests| ==> DestOk(s, s.arrivals[i], s.dests[i]))
  {
    var s := Exec(Init(demux), acts);
    InitInv(demux);
    ExecInv(Init(demux), acts);
    ExecReceived(Init(demux), acts);
    assert Settled(s) == s.arrivals[..|s.dests|];
    forall i | 0 <= i < |s.dests| ensures DestOk(s, s.arrivals[i], s.dests[i]) {
      assert DestOk(s, Settled(s)[i], s.dests[i]);
    }
  }

  lemma LookupByOwner(s: Socket, d: Datagram)
    requires Mapped(s)
    ensures var s' := LookUp(s, d);
            && (s'.dests == s.dests + [ToParent] <==> forall p: Peer :: IsOpen(s, p) ==> s.owner[p] != d.from)
            && (forall p: Peer :: IsOpen(s, p) && s.owner[p] == d.from ==>
                  if s.demux then s'.dests == s.dests + [Straggler] else s'.pc == Holding(d, p))
  {
    assert (s.dests + [Straggler])[|s.dests|] != (s.dests + [ToParent])[|s.dests|];
    if d.from in s.claims && IsOpen(s, s.claims[d.from]) {
      assert s.owner[s.claims[d.from]] == d.from;
    }
  }

  /** And the lookup is right: in any reachable state a datagram goes to the handler
      exactly if no open peer has its sender's address, and is otherwise held for the
      one that has (or left to the kernel's own socket). */
  lemma LookupFindsOwner(demux: bool, acts: seq<Action>, d: Datagram)
    ensures var s := Exec(Init(demux), acts);
            var s' := Step(s, Lookup(d));
            s.pc.Free? ==>
              && |s.owner| == |s.open|
              && (s'.dests == s.dests + [ToParent] <==> forall p: Peer :: IsOpen(s, p) ==> s.owner[p] != d.from)
              && (forall p: Peer :: IsOpen(s, p) && s.owner[p] == d.from ==>
                    if demux then s'.dests == s.dests + [Straggler] else s'.pc == Holding(d, p))
  {
    DemuxFixed(Init(demux), acts);
    ExecMapped(Init(demux), acts);
    LookupByOwner(Exec(Init(demux), acts), d);
  }

  lemma {:induction false} ExecMapped(s: Socket, acts: seq<Action>)
    requires Mapped(s)
    ensures Mapped(Exec(s, acts))
  {
    if acts != [] {
      ExecMapped(s, acts[..|acts| - 1]);
      StepMapped(Exec(s, acts[..|acts| - 1]), acts[|acts| - 1]);
    }
  }

  // ---- when a datagram is dropped ---------------------------------------------

  /** The tables have a row per peer, and all datagrams but a held one are settled. */
  predicate Sized(s: Socket) {
    && |s.owner| == |s.open| == |s.handler| == |s.delivered|
    && |s.arrivals| == |s.dests| + (if s.pc.Holding? then 1 else 0)
    && (s.pc.Holding? ==> s.pc.peer < |s.owner| && s.arrivals[|s.arrivals| - 1] == s.pc.datagram)
  }

  lemma StepSized(s: Socket, a: Action)
    requires Sized(s)
    ensures Sized(Step(s, a))
  {
  }

  lemma {:induction false} ExecSized(s: Socket, acts: seq<Action>)
    requires Sized(s)
    ensures Sized(Exec(s, acts))
  {
    if acts != [] {
      ExecSized(s, acts[..|acts| - 1]);
      StepSized(Exec(s, acts[..|acts| - 1]), acts[|acts| - 1]);
    }
  }

  /** The lookup of the `n`-th datagram finds peer `p` open. */
  predicate Finds(s: Socket, a: Action, n: nat, p: Peer) {
    && a.Lookup? && s.pc.Free? && |s.arrivals| == n && !s.demux
    && a.datagram.from in s.claims && s.claims[a.datagram.from] == p && IsOpen(s, p)
  }

  /** The `n`-th datagram is handed to peer `p`. */
  predicate Gives(s: Socket, a: Action, n: nat, p: Peer) {
    a.HandOver? && s.pc.Holding? && s.pc.peer == p && |s.dests| == n
  }

  predicate FoundOpen(s: Socket, acts: seq<Action>, i: nat, n: nat, p: Peer) {
    i < |acts| && Finds(Exec(s, acts[..i]), acts[i], n, p)
  }

  predicate GivenAt(s: Socket, acts: seq<Action>, j: nat, n: nat, p: Peer) {
    j < |acts| && Gives(Exec(s, acts[..j]), acts[j], n, p)
  }

  lemma HoldStep(s: Socket, a: Action)
    requires Sized(s) && Step(s, a).pc.Holding?
    ensures Step(s, a).dests == s.dests
    ensures if s.pc.Holding? then Step(s, a).pc == s.pc else Finds(s, a, |s.dests|, Step(s, a).pc.peer)
  {
  }

  lemma {:induction false} HeldSince(s: Socket, acts: seq<Action>) returns (i: nat)
    requires Sized(s) && s.pc.Free? && Exec(s, acts).pc.Holding?
    ensures FoundOpen(s, acts, i, |Exec(s, acts).dests|, Exec(s, acts).pc.peer)
    decreases |acts|
  {
    var k := |acts| - 1;
    var m := Exec(s, acts[..k]);
    ExecSized(s, acts[..k]);
    HoldStep(m, acts[k]);
    if m.pc.Holding? {
      i := HeldSince(s, acts[..k]);
      assert acts[..k][..i] == acts[..i];
    } else {
      i := k;
    }
  }

  lemma SettleStep(s: Socket, a: Action, p: Peer)
    requires Sized(s) && |s.dests| < |Step(s, a).dests|
    requires Step(s, a).dests[|s.dests|] == ToPeer(p) || Step(s, a).dests[|s.dests|] == Dropped(p)
    ensures Gives(s, a, |s.dests|, p) && |Step(s, a).dests| == |s.dests| + 1
  {
  }

  lemma {:induction false} GivenOnce(s: Socket, acts: seq<Action>, n: nat, p: Peer) returns (i: nat, j: nat)
    requires Sized(s) && s.pc.Free? && |s.dests| <= n < |Exec(s, acts).dests|
    requires Exec(s, acts).dests[n] == ToPeer(p) || Exec(s, acts).dests[n] == Dropped(p)
    ensures i < j && FoundOpen(s, acts, i, n, p) && GivenAt(s, acts, j, n, p)
    decreases |acts|
  {
    var k := |acts| - 1;
    var m := Exec(s, acts[..k]);
    ExecSized(s, acts[..k]);
    ArrivalStep(m, acts[k]);
    if n < |m.dests| {
      i, j := GivenOnce(s, acts[..k], n, p);
      assert acts[..k][..i] == acts[..i] && acts[..k][..j] == acts[..j];
    } else {
      AtMostOneSettled(m, acts[k]);
      SettleStep(m, acts[k], p);
      j := k;
      i := HeldSince(s, acts[..k]);
      assert acts[..k][..i] == acts[..i];
    }
  }

  lemma AtMostOneSettled(s: Socket, a: Action)
    ensures |Step(s, a).dests| <= |s.dests| + 1
  {
  }

  lemma GiveDecides(s: Socket, a: Action, n: nat, p: Peer)
    requires Sized(s) && Gives(s, a, n, p)
    ensures Step(s, a).dests == s.dests + [if Takes(s, p) then ToPeer(p) else Dropped(p)]
  {
  }

  /** A hand-over decides the datagram's destination for good. */
  lemma GivenDecides(s: Socket, acts: seq<Action>, j: nat, n: nat, p: Peer)
    requires Sized(s) && GivenAt(s, acts, j, n, p)
    ensures n < |Exec(s, acts).dests|
    ensures Exec(s, acts).dests[n] == if Takes(Exec(s, acts[..j]), p) then ToPeer(p) else Dropped(p)
  {
    ExecSized(s, acts[..j]);
    GiveDecides(Exec(s, acts[..j]), acts[j], n, p);
    NextState(s, acts, j);
    DestsStay(s, acts, j + 1);
  }

  lemma NextState(s: Socket, acts: seq<Action>, j: nat)
    requires j < |acts|
    ensures Exec(s, acts[..j + 1]) == Step(Exec(s, acts[..j]), acts[j])
  {
    assert acts[..j + 1][..j] == acts[..j];
  }

  lemma DestsStay(s: Socket, acts: seq<Action>, k: nat)
    requires k <= |acts|
    ensures Exec(s, acts[..k]).dests <= Exec(s, acts).dests
  {
    assert acts == acts[..k] + acts[k..];
    ExecConcat(s, acts[..k], acts[k..]);
    ExecReceived(Exec(s, acts[..k]), acts[k..]);
  }

  /** Neither the peer nor the socket's handler gets a datagram exactly if its peer
      was open at the lookup and, when the datagram was handed over, was closed or
      had no data callback. */
  lemma DroppedIff(demux: bool, acts: seq<Action>, n: nat, p: Peer)
    requires n < |Exec(Init(demux), acts).dests|
    ensures Exec(Init(demux), acts).dests[n] == Dropped(p) <==>
            exists i: nat, j: nat ::
              i < j && FoundOpen(Init(demux), acts, i, n, p) && GivenAt(Init(demux), acts, j, n, p)
              && !Takes(Exec(Init(demux), acts[..j]), p)
  {
    var s, e := Init(demux), Exec(Init(demux), acts);
    if e.dests[n] == Dropped(p) {
      var i, j := GivenOnce(s, acts, n, p);
      GivenDecides(s, acts, j, n, p);
    }
    forall i: nat, j: nat | i < j && FoundOpen(s, acts, i, n, p) && GivenAt(s, acts, j, n, p)
      && !Takes(Exec(s, acts[..j]), p)
      ensures e.dests[n] == Dropped(p)
    {
      GivenDecides(s, acts, j, n, p);
    }
  }

  lemma ExecTwo(s: Socket, a: Action, b: Action)
    ensures Exec(s, [a, b]) == Step(Step(s, a), b)
  {
    assert [a, b][..|[a, b]| - 1] == [a];
    assert [a][..|[a]| - 1] == [];
    assert Exec(s, [a]) == Step(s, a);
  }

  lemma ExecThree(s: Socket, a: Action, b: Action, c: Action)
    ensures Exec(s, [a, b, c]) == Step(Step(Step(s, a), b), c)
  {
    ExecTwo(s, a, b);
    assert [a, b, c][..|[a, b, c]| - 1] == [a, b];
  }

  function ClaimAndLookUp(from: Addr, data: Bytes): seq<Action> {
    [Claim(from, true), SetHandler(0, true), Lookup(Datagram(from, data))]
  }

  lemma RaceHolds(from: Addr, data: Bytes)
    ensures var s := Exec(Init(false), ClaimAndLookUp(from, data));
            s.pc == Holding(Datagram(from, data), 0) && s.dests == [] && s.handed == [] && s.delivered == [[]]
            && |s.open| == 1 && s.open[0]
  {
    ExecThree(Init(false), Claim(from, true), SetHandler(0, true), Lookup(Datagram(from, data)));
  }

  /** It happens: the owner relinquishes between the two loads. */
  lemma RaceDrops(from: Addr, data: Bytes)
    ensures var s := Exec(Init(false), ClaimAndLookUp(from, data) + [PeerRelinquish(0), HandOver]);
            s.dests == [Dropped(0)] && s.handed == [] && s.delivered == [[]]
  {
    RaceHolds(from, data);
    ExecTwo(Exec(Init(false), ClaimAndLookUp(from, data)), PeerRelinquish(0), HandOver);
    ExecConcat(Init(false), ClaimAndLookUp(from, data), [PeerRelinquish(0), HandOver]);
  }

  /** So does every datagram of a peer that has no data callback. */
  lemma NoCallbackDrops(from: Addr, data: Bytes)
    ensures var s := Exec(Init(false), [Claim(from, true), Lookup(Datagram(from, data)), HandOver]);
            s.dests == [Dropped(0)] && s.handed == [] && s.delivered == [[]]
  {
    ExecThree(Init(false), Claim(from, true), Lookup(Datagram(from, data)), HandOver);
    var s := Step(Init(false), Claim(from, true));
    assert s.claims == map[from := 0] && s.open == [true] && s.handler == [false];
  }

  // ---- a wake-up of the socket --------------------------------------------------

  /** What happens while handle_readable runs: its own steps, and other threads. */
  predicate DuringWakeUp(a: Action) {
    a.Lookup? || a.HandOver? || a.PeerRelinquish? || a.SetHandler?
  }

  /** The open peers at each lookup of a run. */
  function LookupFlags(s: Socket, acts: seq<Action>): (f: seq<set<Peer>>)
    ensures |f| == |ReceivedIn(s, acts)|
  {
    if acts == [] then []
    else
      var before, last := acts[..|acts| - 1], acts[|acts| - 1];
      LookupFlags(s, before) + if last.Lookup? && Exec(s, before).pc.Free? then [OpenSet(Exec(s, before))] else []
  }

  function Calls(ds: seq<Datagram>, dests: seq<Dest>): seq<Delivery>
    requires |ds| == |dests|
  {
    if ds == [] then []
    else
      var n := |ds| - 1;
      Calls(ds[..n], dests[..n])
      + if dests[n].ToPeer? || dests[n].Dropped? then [Delivery(dests[n].peer, ds[n].data)] else []
  }

  /** The calls of deliver_data so far, the one about to be made included. */
  function CallsOf(s: Socket): seq<Delivery>
    requires |s.dests| == |Settled(s)|
  {
    Calls(Settled(s), s.dests) + if s.pc.Holding? then [Delivery(s.pc.peer, s.pc.datagram.data)] else []
  }

  lemma CallsAppend(ds: seq<Datagram>, dests: seq<Dest>, d: Datagram, x: Dest)
    requires |ds| == |dests|
    ensures Calls(ds + [d], dests + [x]) ==
            Calls(ds, dests) + if x.ToPeer? || x.Dropped? then [Delivery(x.peer, d.data)] else []
  {
    assert (ds + [d])[..|ds|] == ds && (dests + [x])[..|ds|] == dests;
  }

  lemma SettledSize(s: Socket)
    requires Sized(s)
    ensures |Settled(s)| == |s.dests|
    ensures s.pc.Holding? ==> s.arrivals == Settled(s) + [s.pc.datagram]
  {
  }

  /** The state as the receive paths see it. */
  function View(s: Socket): Routed
    requires Sized(s)
  {
    SettledSize(s);
    Routed(s.claims, s.handed, CallsOf(s))
  }

  lemma LookupCalls(s: Socket, d: Datagram)
    requires Sized(s) && s.pc.Free? && |Settled(LookUp(s, d))| == |LookUp(s, d).dests|
    ensures var s' := LookUp(s, d);
            CallsOf(s') == CallsOf(s) + if s'.pc.Holding? then [Delivery(s'.pc.peer, d.data)] else []
  {
    var s' := LookUp(s, d);
    if s'.pc.Holding? {
      assert Settled(s') == s.arrivals;
      assert Calls(s.arrivals, s.dests) + [] == Calls(s.arrivals, s.dests);
    } else {
      CallsAppend(s.arrivals, s.dests, d, s'.dests[|s.dests|]);
    }
  }

  lemma LookupIsRouteOne(s: Socket, d: Datagram)
    requires Sized(s) && s.pc.Free?
    ensures Sized(LookUp(s, d)) && View(LookUp(s, d)) == RouteOne(View(s), OpenSet(s), s.demux, d)
  {
    StepSized(s, Lookup(d));
    SettledSize(LookUp(s, d));
    LookupCalls(s, d);
    if d.from in s.claims {
      assert s.claims[d.from] in OpenSet(s) <==> IsOpen(s, s.claims[d.from]);
    }
  }

  lemma HandOverKeepsView(s: Socket)
    requires Sized(s) && s.pc.Holding?
    ensures Sized(Give(s)) && View(Give(s)) == View(s)
  {
    var s' := Give(s);
    StepSized(s, HandOver);
    SettledSize(s);
    SettledSize(s');
    CallsAppend(Settled(s), s.dests, s.pc.datagram, s'.dests[|s.dests|]);
  }

  lemma WakeUpStep(s: Socket, a: Action)
    requires Sized(s) && DuringWakeUp(a)
    ensures Sized(Step(s, a))
    ensures View(Step(s, a)) ==
            if a.Lookup? && s.pc.Free? then RouteOne(View(s), OpenSet(s), s.demux, a.datagram) else View(s)
  {
    StepSized(s, a);
    if a.Lookup? && s.pc.Free? {
      LookupIsRouteOne(s, a.datagram);
    } else if a.HandOver? && s.pc.Holding? {
      HandOverKeepsView(s);
    }
  }

  /** A wake-up, with relinquishing threads at every point, is the routing function
      that the receive paths compute, applied to the flags its lookups saw. */
  lemma {:induction false} WakeUpIsRouting(s: Socket, acts: seq<Action>)
    requires Sized(s) && forall i :: 0 <= i < |acts| ==> DuringWakeUp(acts[i])
    ensures Sized(Exec(s, acts))
    ensures RouteAll(View(s), LookupFlags(s, acts), s.demux, ReceivedIn(s, acts)) == View(Exec(s, acts))
    decreases |acts|
  {
    if acts != [] {
      var before, last := acts[..|acts| - 1], acts[|acts| - 1];
      WakeUpIsRouting(s, before);
      var m := Exec(s, before);
      DemuxFixed(s, before);
      WakeUpStep(m, last);
      if last.Lookup? && m.pc.Free? {
        RouteSnoc(View(s), LookupFlags(s, before), OpenSet(m), s.demux, ReceivedIn(s, before), last.datagram);
      } else {
        assert LookupFlags(s, before) + [] == LookupFlags(s, before);
        assert ReceivedIn(s, before) + [] == ReceivedIn(s, before);
      }
    }
  }

  lemma RouteSnoc(r: Routed, flags: seq<set<Peer>>, open: set<Peer>, demux: bool, ds: seq<Datagram>, d: Datagram)
    requires |flags| == |ds|
    ensures RouteAll(r, flags + [open], demux, ds + [d]) == RouteOne(RouteAll(r, flags, demux, ds), open, demux, d)
  {
    assert (flags + [open])[..|ds|] == flags && (ds + [d])[..|ds|] == ds;
  }

  // ---- claiming an address again -------------------------------------------------

  /** The address has an entry whose peer was relinquished by its owner. */
  predicate Stale(s: Socket, addr: Addr) {
    addr in s.claims && !IsOpen(s, s.claims[addr])
  }

  /** The actions of the loop thread that remove a stale entry. */
  predicate Frees(s: Socket, a: Action, addr: Addr) {
    s.pc.Free? && ((a.Lookup? && a.datagram.from == addr) || a == Relinquish(addr) || a.RelinquishAll?)
  }

  lemma StaleStep(s: Socket, a: Action, addr: Addr)
    requires Mapped(s) && Stale(s, addr)
    ensures if Frees(s, a, addr) then addr !in Step(s, a).claims else Stale(Step(s, a), addr)
  {
  }

  /** At no point of the run would a claim of the address succeed. */
  predicate NeverClaimable(s: Socket, acts: seq<Action>, addr: Addr) {
    !Claimable(Exec(s, acts), addr, true) && (acts != [] ==> NeverClaimable(s, acts[..|acts| - 1], addr))
  }

  predicate NeverFreed(s: Socket, acts: seq<Action>, addr: Addr) {
    acts != [] ==>
      NeverFreed(s, acts[..|acts| - 1], addr) && !Frees(Exec(s, acts[..|acts| - 1]), acts[|acts| - 1], addr)
  }

  /** After its owner has relinquished the peer, no claim of the address succeeds until
      a datagram from it arrives or the socket relinquishes it or everything; and each
      of these makes it claimable. */
  lemma {:induction false} StaleUntilFreed(s: Socket, addr: Addr, acts: seq<Action>)
    requires Mapped(s) && Stale(s, addr)
    ensures NeverClaimable(s, acts, addr) <==> NeverFreed(s, acts, addr)
    ensures NeverFreed(s, acts, addr) ==> Stale(Exec(s, acts), addr)
    decreases |acts|
  {
    if acts != [] {
      var before, last := acts[..|acts| - 1], acts[|acts| - 1];
      StaleUntilFreed(s, addr, before);
      ExecMapped(s, before);
      if NeverFreed(s, before, addr) {
        StaleStep(Exec(s, before), last, addr);
      }
    }
  }

  /** A peer relinquished by its owner leaves such an entry. */
  lemma RelinquishLeavesStale(s: Socket, p: Peer)
    requires Mapped(s) && IsOpen(s, p)
    ensures Stale(Step(s, PeerRelinquish(p)), s.owner[p])
    ensures forall q: Peer :: IsOpen(Step(s, PeerRelinquish(p)), q) ==> s.owner[q] != s.owner[p]
  {
  }
}
