/** Claiming and relinquishing peers of a UDP socket over whole runs.

The socket's claim map and its receive loop live on the loop thread; a peer may
be relinquished by its owner from any thread, which clears its open flag and
leaves the map entry behind. The loop thread loads that flag twice for a datagram:
when it looks up the sender, and again when deliver_data hands the datagram over.
Between the two it holds the datagram, and other threads go on.
*/
module DgramClaims {
  import opened DgramRouting

  /** Where a datagram went: the socket's handler, a peer, or nowhere, as a straggler
      on a platform where the kernel demultiplexes, or dropped by deliver_data. */
  datatype Dest = ToParent | ToPeer(peer: Peer) | Straggler | Dropped(peer: Peer)

  /** The loop thread between the lookup of a datagram and its delivery. */
  datatype Pc = Free | Holding(datagram: Datagram, peer: Peer)

  /** Peer `p` was claimed for address `owner[p]`, has flag `open[p]`, and has a data
      callback if `handler[p]`. The rest records the datagrams received, where each
      went, and what each side got. */
  datatype Socket = Socket(
    demux: bool, claims: map<Addr, Peer>, owner: seq<Addr>, open: seq<bool>, handler: seq<bool>, pc: Pc,
    arrivals: seq<Datagram>, dests: seq<Dest>, handed: seq<Datagram>, delivered: seq<seq<Bytes>>)

  datatype Action =
    | Claim(addr: Addr, peerSocketOk: bool)
    | Relinquish(addr: Addr)
    | RelinquishAll
    | Lookup(datagram: Datagram)
    | HandOver
    | PeerRelinquish(peer: Peer)                    // any thread
    | SetHandler(peer: Peer, present: bool)         // any thread

  function Init(demux: bool): Socket {
    Socket(demux, map[], [], [], [], Free, [], [], [], [])
  }

  predicate IsOpen(s: Socket, p: Peer) {
    p < |s.open| && s.open[p]
  }

  /** What deliver_data tests: the flag once more, and the callback. */
  predicate Takes(s: Socket, p: Peer) {
    IsOpen(s, p) && p < |s.handler| && s.handler[p]
  }

  function OpenSet(s: Socket): set<Peer> {
    set p | 0 <= p < |s.open| && s.open[p]
  }

  function ClosePeer(s: Socket, p: Peer): Socket {
    if p < |s.open| then s.(open := s.open[p := false]) else s
  }

  /** Whether execute_claim succeeds: no entry for the address, and the connected
      socket could be made where one is needed. */
  predicate Claimable(s: Socket, addr: Addr, peerSocketOk: bool) {
    addr !in s.claims && (s.demux ==> peerSocketOk)
  }

  function NewPeer(s: Socket, addr: Addr): Socket {
    s.(claims := s.claims[addr := |s.owner|], owner := s.owner + [addr], open := s.open + [true],
       handler := s.handler + [false], delivered := s.delivered + [[]])
  }

  function LookUp(s: Socket, d: Datagram): Socket {
    var s1 := s.(arrivals := s.arrivals + [d]);
    if d.from in s.claims && IsOpen(s, s.claims[d.from]) then
      if s.demux then s1.(dests := s.dests + [Straggler]) else s1.(pc := Holding(d, s.claims[d.from]))
    else s1.(claims := s.claims - {d.from}, dests := s.dests + [ToParent], handed := s.handed + [d])
  }

  /** deliver_data. */
  function Give(s: Socket): Socket
    requires s.pc.Holding?
  {
    var p, s1 := s.pc.peer, s.(pc := Free);
    if Takes(s, p) && p < |s.delivered| then
      s1.(dests := s.dests + [ToPeer(p)], delivered := s.delivered[p := s.delivered[p] + [s.pc.datagram.data]])
    else s1.(dests := s.dests + [Dropped(p)])
  }

  /** An action that is not enabled changes nothing; the loop thread's own actions
      need it not to be holding a datagram. */
  function Step(s: Socket, a: Action): Socket {
    match a
    case Claim(addr, ok) => if s.pc.Free? && Claimable(s, addr, ok) then NewPeer(s, addr) else s
    case Relinquish(addr) =>
      if s.pc.Free? && addr in s.claims then ClosePeer(s, s.claims[addr]).(claims := s.claims - {addr}) else s
    case RelinquishAll =>
      if s.pc.Free? then
        s.(open := seq(|s.open|, p requires 0 <= p < |s.open| =>
             s.open[p] && !(p < |s.owner| && s.owner[p] in s.claims && s.claims[s.owner[p]] == p)),
           claims := map[])
      else s
    case Lookup(d) => if s.pc.Free? then LookUp(s, d) else s
    case HandOver => if s.pc.Holding? then Give(s) else s
    case PeerRelinquish(p) => ClosePeer(s, p)
    case SetHandler(p, present) => if p < |s.handler| then s.(handler := s.handler[p := present]) else s
  }

  function Exec(s: Socket, acts: seq<Action>): Socket {
    if acts == [] then s else Step(Exec(s, acts[..|acts| - 1]), acts[|acts| - 1])
  }

  /** The datagrams received in a run, in order. */
  function ReceivedIn(s: Socket, acts: seq<Action>): seq<Datagram> {
    if acts == [] then []
    else
      var before, last := acts[..|acts| - 1], acts[|acts| - 1];
      ReceivedIn(s, before) + if last.Lookup? && Exec(s, before).pc.Free? then [last.datagram] else []
  }

  // ---- the invariant -------------------------------------------------------

  ghost predicate Mapped(s: Socket) {
    && |s.owner| == |s.open| == |s.handler| == |s.delivered|
    && (forall a :: a in s.claims ==> s.claims[a] < |s.owner| && s.owner[s.claims[a]] == a)
    && (forall p :: 0 <= p < |s.owner| && s.open[p] ==> s.owner[p] in s.claims && s.claims[s.owner[p]] == p)
  }

  /** The datagrams that went to `dest`, in arrival order. */
  function SentTo(ds: seq<Datagram>, dests: seq<Dest>, dest: Dest): seq<Datagram>
    requires |ds| == |dests|
  {
    if ds == [] then []
    else
      var n := |ds| - 1;
      SentTo(ds[..n], dests[..n], dest) + if dests[n] == dest then [ds[n]] else []
  }

  function Payloads(ds: seq<Datagram>): seq<Bytes> {
    seq(|ds|, i requires 0 <= i < |ds| => ds[i].data)
  }

  /** The datagrams whose destination is settled: all but one being held. */
  function Settled(s: Socket): seq<Datagram> {
    if s.pc.Holding? && s.arrivals != [] then s.arrivals[..|s.arrivals| - 1] else s.arrivals
  }

  ghost predicate Logged(s: Socket) {
    && |s.dests| == |Settled(s)|
    && s.handed == SentTo(Settled(s), s.dests, ToParent)
    && (forall p :: 0 <= p < |s.delivered| ==> s.delivered[p] == Payloads(SentTo(Settled(s), s.dests, ToPeer(p))))
    && (forall i :: 0 <= i < |s.dests| ==> DestOk(s, Settled(s)[i], s.dests[i]))
  }

  /** A destination is possible on this platform, and a peer is the sender's. */
  predicate DestOk(s: Socket, d: Datagram, x: Dest) {
    match x
    case ToParent => true
    case Straggler => s.demux
    case ToPeer(p) => !s.demux && p < |s.owner| && p < |s.delivered| && s.owner[p] == d.from
    case Dropped(p) => !s.demux && p < |s.owner| && s.owner[p] == d.from
  }

  ghost predicate HeldOk(s: Socket) {
    s.pc.Holding? ==>
      && !s.demux && s.arrivals != [] && s.arrivals[|s.arrivals| - 1] == s.pc.datagram
      && s.pc.peer < |s.owner| && s.owner[s.pc.peer] == s.pc.datagram.from
  }

  ghost predicate Inv(s: Socket) {
    Mapped(s) && Logged(s) && HeldOk(s)
  }

  lemma ClaimMapped(s: Socket, addr: Addr)
    requires Mapped(s) && addr !in s.claims
    ensures Mapped(NewPeer(s, addr))
  {
  }

  lemma CloseMapped(s: Socket, p: Peer)
    requires Mapped(s)
    ensures Mapped(ClosePeer(s, p))
  {
  }

  lemma RelinquishMapped(s: Socket, addr: Addr)
    requires Mapped(s)
    ensures Mapped(Step(s, Relinquish(addr)))
  {
  }

  lemma RelinquishAllMapped(s: Socket)
    requires Mapped(s)
    ensures Mapped(Step(s, RelinquishAll))
  {
  }

  lemma LookupMapped(s: Socket, d: Datagram)
    requires Mapped(s)
    ensures Mapped(LookUp(s, d))
  {
  }

  lemma GiveMapped(s: Socket)
    requires Mapped(s) && s.pc.Holding?
    ensures Mapped(Give(s))
  {
  }

  lemma StepMapped(s: Socket, a: Action)
    requires Mapped(s)
    ensures Mapped(Step(s, a))
  {
    match a
    case Claim(addr, ok) => if Claimable(s, addr, ok) { ClaimMapped(s, addr); }
    case Relinquish(addr) => RelinquishMapped(s, addr);
    case RelinquishAll => RelinquishAllMapped(s);
    case Lookup(d) => LookupMapped(s, d);
    case HandOver => if s.pc.Holding? { GiveMapped(s); }
    case PeerRelinquish(p) => CloseMapped(s, p);
    case SetHandler(_, _) =>
  }

  lemma SentToAppend(ds: seq<Datagram>, dests: seq<Dest>, d: Datagram, x: Dest, dest: Dest)
    requires |ds| == |dests|
    ensures SentTo(ds + [d], dests + [x], dest) == SentTo(ds, dests, dest) + if x == dest then [d] else []
  {
    assert (ds + [d])[..|ds|] == ds && (dests + [x])[..|ds|] == dests;
  }

  lemma {:induction false} NothingSent(ds: seq<Datagram>, dests: seq<Dest>, dest: Dest)
    requires |ds| == |dests| && forall i :: 0 <= i < |dests| ==> dests[i] != dest
    ensures SentTo(ds, dests, dest) == []
  {
    if ds != [] {
      NothingSent(ds[..|ds| - 1], dests[..|ds| - 1], dest);
    }
  }

  lemma ClaimLogged(s: Socket, addr: Addr)
    requires Logged(s) && Mapped(s)
    ensures Logged(NewPeer(s, addr))
  {
    var s' := NewPeer(s, addr);
    forall i | 0 <= i < |s.dests| ensures s.dests[i] != ToPeer(|s.delivered|) && DestOk(s', Settled(s')[i], s'.dests[i]) {
      assert DestOk(s, Settled(s)[i], s.dests[i]);
    }
    NothingSent(Settled(s), s.dests, ToPeer(|s.delivered|));
  }

  /** A datagram `d` is settled with destination `x`, and only `x`'s record grows. */
  lemma SettleLogged(s: Socket, s': Socket, d: Datagram, x: Dest)
    requires Logged(s) && Settled(s') == Settled(s) + [d] && s'.dests == s.dests + [x]
    requires s'.demux == s.demux && s'.owner == s.owner && |s'.delivered| == |s.delivered| && DestOk(s', d, x)
    requires s'.handed == s.handed + if x == ToParent then [d] else []
    requires forall p :: 0 <= p < |s.delivered| ==>
               s'.delivered[p] == s.delivered[p] + if x == ToPeer(p) then [d.data] else []
    ensures Logged(s')
  {
    SentToAppend(Settled(s), s.dests, d, x, ToParent);
    forall p | 0 <= p < |s.delivered|
      ensures s'.delivered[p] == Payloads(SentTo(Settled(s'), s'.dests, ToPeer(p)))
    {
      SentToAppend(Settled(s), s.dests, d, x, ToPeer(p));
      assert s.delivered[p] == Payloads(SentTo(Settled(s), s.dests, ToPeer(p)));
    }
    forall i | 0 <= i < |s'.dests| ensures DestOk(s', Settled(s')[i], s'.dests[i]) {
      if i < |s.dests| { assert DestOk(s, Settled(s)[i], s.dests[i]); }
    }
  }

  lemma LookupLogged(s: Socket, d: Datagram)
    requires Logged(s) && s.pc.Free?
    ensures Logged(LookUp(s, d))
  {
    var s' := LookUp(s, d);
    if s'.pc.Holding? {
      assert Settled(s') == s.arrivals;
      forall i | 0 <= i < |s'.dests| ensures DestOk(s', Settled(s')[i], s'.dests[i]) {
        assert DestOk(s, Settled(s)[i], s.dests[i]);
      }
    } else {
      SettleLogged(s, s', d, s'.dests[|s.dests|]);
    }
  }

  lemma LookupKeeps(s: Socket, d: Datagram)
    requires Inv(s) && s.pc.Free?
    ensures Inv(LookUp(s, d))
  {
    LookupMapped(s, d);
    LookupLogged(s, d);
  }

  lemma GiveLogged(s: Socket)
    requires Logged(s) && HeldOk(s) && s.pc.Holding? && |s.owner| == |s.delivered|
    ensures Logged(Give(s))
  {
    var s', p, d := Give(s), s.pc.peer, s.pc.datagram;
    assert s.arrivals == s.arrivals[..|s.arrivals| - 1] + [d];
    SettleLogged(s, s', d, if Takes(s, p) then ToPeer(p) else Dropped(p));
  }

  lemma GiveKeeps(s: Socket)
    requires Inv(s) && s.pc.Holding?
    ensures Inv(Give(s))
  {
    GiveMapped(s);
    GiveLogged(s);
  }

  /** Steps that only touch the map and the flags. */
  lemma RecordsKept(s: Socket, s': Socket)
    requires Logged(s) && HeldOk(s)
    requires s'.demux == s.demux && s'.owner == s.owner && s'.pc == s.pc && s'.arrivals == s.arrivals
    requires s'.dests == s.dests && s'.handed == s.handed && s'.delivered == s.delivered
    ensures Logged(s') && HeldOk(s')
  {
    forall i | 0 <= i < |s'.dests| ensures DestOk(s', Settled(s')[i], s'.dests[i]) {
      assert DestOk(s, Settled(s)[i], s.dests[i]);
    }
  }

  lemma ClaimKeeps(s: Socket, addr: Addr)
    requires Inv(s) && addr !in s.claims && s.pc.Free?
    ensures Inv(NewPeer(s, addr))
  {
    ClaimMapped(s, addr);
    ClaimLogged(s, addr);
  }

  lemma StepInv(s: Socket, a: Action)
    requires Inv(s)
    ensures Inv(Step(s, a))
  {
    match a
    case Claim(addr, ok) => if s.pc.Free? && Claimable(s, addr, ok) { ClaimKeeps(s, addr); }
    case Lookup(d) => if s.pc.Free? { LookupKeeps(s, d); }
    case HandOver => if s.pc.Holding? { GiveKeeps(s); }
    case _ =>
      StepMapped(s, a);
      RecordsKept(s, Step(s, a));
  }

  lemma {:induction false} ExecInv(s: Socket, acts: seq<Action>)
    requires Inv(s)
    ensures Inv(Exec(s, acts))
  {
    if acts != [] {
      ExecInv(s, acts[..|acts| - 1]);
      StepInv(Exec(s, acts[..|acts| - 1]), acts[|acts| - 1]);
    }
  }
}
