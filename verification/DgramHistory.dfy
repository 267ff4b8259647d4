/** Which peers a UDP socket has, which of them are open and which addresses are taken,
in every run, in terms of the claims and relinquishments in it. */
module DgramHistory {
  import opened DgramRouting
  import opened DgramClaims
  import opened DgramTheorems

  // ---- claims ------------------------------------------------------------------

  /** An open peer has the address. */
  predicate OpenFor(s: Socket, addr: Addr) {
    exists p: Peer :: p < |s.owner| && IsOpen(s, p) && s.owner[p] == addr
  }

  /** The loop thread drops the entry of the address: the socket relinquishes it or
      everything, or receives a datagram from it while no open peer has it. */
  predicate Drops(s: Socket, a: Action, addr: Addr) {
    && s.pc.Free?
    && (a == Relinquish(addr) || a.RelinquishAll? || (a.Lookup? && a.datagram.from == addr && !OpenFor(s, addr)))
  }

  /** The address was claimed, and its entry has not been dropped since. A claim succeeds
      if the address is not taken and the peer's own socket, where one is needed, could be
      made. */
  predicate Taken(s: Socket, acts: seq<Action>, addr: Addr)
    decreases |acts|
  {
    acts != [] &&
    var before, last := acts[..|acts| - 1], acts[|acts| - 1];
    if Taken(s, before, addr) then !Drops(Exec(s, before), last, addr)
    else last.Claim? && last.addr == addr && Exec(s, before).pc.Free? && (s.demux ==> last.peerSocketOk)
  }

  predicate Succeeds(s: Socket, before: seq<Action>, a: Action) {
    a.Claim? && Exec(s, before).pc.Free? && !Taken(s, before, a.addr) && (s.demux ==> a.peerSocketOk)
  }

  /** The addresses of the claims that succeeded, in order: one peer for each. */
  function Claims(s: Socket, acts: seq<Action>): seq<Addr> {
    if acts == [] then []
    else
      var before, last := acts[..|acts| - 1], acts[|acts| - 1];
      Claims(s, before) + if Succeeds(s, before, last) then [last.addr] else []
  }

  lemma OpenForEntry(s: Socket, addr: Addr)
    requires Mapped(s) && addr in s.claims
    ensures OpenFor(s, addr) <==> IsOpen(s, s.claims[addr])
  {
    if IsOpen(s, s.claims[addr]) { assert s.owner[s.claims[addr]] == addr; }
  }

  lemma EntryStep(s: Socket, a: Action, addr: Addr)
    requires Mapped(s)
    ensures addr in Step(s, a).claims <==>
            if addr in s.claims then !Drops(s, a, addr)
            else a.Claim? && a.addr == addr && s.pc.Free? && (s.demux ==> a.peerSocketOk)
  {
    if addr in s.claims { OpenForEntry(s, addr); }
  }

  /** The map has an entry for exactly the taken addresses. */
  lemma {:induction false} EntryIff(demux: bool, acts: seq<Action>, addr: Addr)
    ensures addr in Exec(Init(demux), acts).claims <==> Taken(Init(demux), acts, addr)
    decreases |acts|
  {
    if acts != [] {
      var before := acts[..|acts| - 1];
      EntryIff(demux, before, addr);
      ExecMapped(Init(demux), before);
      DemuxFixed(Init(demux), before);
      EntryStep(Exec(Init(demux), before), acts[|acts| - 1], addr);
    }
  }

  lemma OwnerStep(s: Socket, a: Action)
    ensures Step(s, a).owner == s.owner +
              if a.Claim? && s.pc.Free? && a.addr !in s.claims && (s.demux ==> a.peerSocketOk) then [a.addr] else []
  {
  }

  /** The peers are those of the claims that succeeded. */
  lemma {:induction false} OwnersAreClaims(demux: bool, acts: seq<Action>)
    ensures Exec(Init(demux), acts).owner == Claims(Init(demux), acts)
    decreases |acts|
  {
    if acts != [] {
      var before, last := acts[..|acts| - 1], acts[|acts| - 1];
      OwnersAreClaims(demux, before);
      if last.Claim? { EntryIff(demux, before, last.addr); }
      DemuxFixed(Init(demux), before);
      OwnerStep(Exec(Init(demux), before), last);
    }
  }

  // ---- open peers and their callbacks ------------------------------------------------

  /** The step closes peer `p`, claimed for `addr`: its owner relinquishes it, or the
      socket relinquishes the address or everything. */
  predicate Closes(s: Socket, a: Action, p: Peer, addr: Addr) {
    a == PeerRelinquish(p) || (s.pc.Free? && (a == Relinquish(addr) || a.RelinquishAll?))
  }

  /** Peer `p` was claimed and has not been closed since. */
  predicate StaysOpen(s: Socket, acts: seq<Action>, p: Peer) {
    acts != [] &&
    var before := acts[..|acts| - 1];
    if p < |Claims(s, before)| then
      StaysOpen(s, before, p) && !Closes(Exec(s, before), acts[|acts| - 1], p, Claims(s, before)[p])
    else p < |Claims(s, acts)|
  }

  lemma OpenStep(s: Socket, a: Action, p: Peer)
    requires Mapped(s)
    ensures IsOpen(Step(s, a), p) <==>
            if p < |s.owner| then IsOpen(s, p) && !Closes(s, a, p, s.owner[p]) else p < |Step(s, a).owner|
  {
    match a
    case Relinquish(addr) => RelinquishStep(s, addr, p);
    case RelinquishAll =>
    case PeerRelinquish(q) =>
    case Claim(_, _) =>
    case _ =>
  }

  lemma RelinquishStep(s: Socket, addr: Addr, p: Peer)
    requires Mapped(s)
    ensures IsOpen(Step(s, Relinquish(addr)), p) <==>
            IsOpen(s, p) && !(s.pc.Free? && p < |s.owner| && s.owner[p] == addr)
  {
  }

  /** A peer is open exactly from its claim until it is closed; closing another peer or
      relinquishing another address leaves it open. */
  lemma {:induction false} OpenIff(demux: bool, acts: seq<Action>, p: Peer)
    ensures IsOpen(Exec(Init(demux), acts), p) <==> StaysOpen(Init(demux), acts, p)
    decreases |acts|
  {
    if acts != [] {
      var before := acts[..|acts| - 1];
      OpenIff(demux, before, p);
      OwnersAreClaims(demux, before);
      OwnersAreClaims(demux, acts);
      ExecMapped(Init(demux), before);
      OpenStep(Exec(Init(demux), before), acts[|acts| - 1], p);
    }
  }

  /** The last thing said about the data callback of peer `p`. */
  predicate HasCallback(s: Socket, acts: seq<Action>, p: Peer) {
    acts != [] &&
    var before, last := acts[..|acts| - 1], acts[|acts| - 1];
    if last.SetHandler? && last.peer == p then p < |Claims(s, before)| && last.present else HasCallback(s, before, p)
  }

  lemma CallbackStep(s: Socket, a: Action, p: Peer)
    requires |s.handler| == |s.owner|
    ensures var s' := Step(s, a);
            && |s'.handler| == |s'.owner|
            && (p < |s'.handler| && s'.handler[p] <==>
                if a.SetHandler? && a.peer == p then p < |s.owner| && a.present else p < |s.handler| && s.handler[p])
  {
  }

  lemma {:induction false} CallbackIff(demux: bool, acts: seq<Action>, p: Peer)
    ensures var s := Exec(Init(demux), acts);
            |s.handler| == |s.owner| && (p < |s.handler| && s.handler[p] <==> HasCallback(Init(demux), acts, p))
    decreases |acts|
  {
    if acts != [] {
      CallbackIff(demux, acts[..|acts| - 1], p);
      OwnersAreClaims(demux, acts[..|acts| - 1]);
      CallbackStep(Exec(Init(demux), acts[..|acts| - 1]), acts[|acts| - 1], p);
    }
  }
}
