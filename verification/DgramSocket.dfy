/** The claim map of a UDP socket and its peers' flags as updated in place. */
module DgramSocket {
  import opened DgramRouting
  import opened DgramClaims
  import opened DgramTheorems

  /** What other threads may do to the peers at any moment. */
  predicate Outside(a: Action) {
    a.PeerRelinquish? || a.SetHandler?
  }

  lemma ExtendStep(start: Socket, acts: seq<Action>, a: Action)
    ensures Exec(start, acts + [a]) == Step(Exec(start, acts), a)
  {
    assert (acts + [a])[..|acts|] == acts;
  }

  /** The address has an entry whose peer's flag is set. */
  predicate Owned(claims: map<Addr, Peer>, flags: seq<bool>, addr: Addr) {
    addr in claims && claims[addr] < |flags| && flags[claims[addr]]
  }

  /** Peer `p` is the entry of one of the addresses. */
  predicate ClosedIn(claims: map<Addr, Peer>, order: seq<Addr>, p: Peer) {
    exists i :: 0 <= i < |order| && order[i] in claims && claims[order[i]] == p
  }

  /** Every open peer is the entry of its address. */
  lemma AllClosed(s: Socket, order: seq<Addr>)
    requires Mapped(s) && forall a :: a in s.claims <==> a in order
    ensures forall p :: 0 <= p < |s.open| && s.open[p] ==> ClosedIn(s.claims, order, p)
    ensures var s' := Step(s, RelinquishAll);
            s.pc.Free? ==> |s'.open| == |s.open| && forall p :: 0 <= p < |s.open| ==> !s'.open[p]
  {
    forall p | 0 <= p < |s.open| && s.open[p] ensures ClosedIn(s.claims, order, p) {
      assert s.owner[p] in order;
    }
  }

  class DgramSocket {
    const demux: bool
    var claimedPeers: map<Addr, Peer>
    var openFlags: seq<bool>
    var callbacks: seq<bool>
    var handed: seq<Datagram>
    var delivered: seq<seq<Bytes>>
    ghost var model: Socket

    ghost predicate Tied()
      reads this
    {
      && model.demux == demux && model.claims == claimedPeers && model.open == openFlags
      && model.handler == callbacks && model.handed == handed && model.delivered == delivered
    }

    constructor (demux: bool)
      ensures Tied() && Inv(model) && model == Init(demux)
    {
      this.demux := demux;
      claimedPeers, openFlags, callbacks, handed, delivered := map[], [], [], [], [];
      model := Init(demux);
    }

    /** do_claim: an address with a map entry is refused, open or not. */
    method TryClaim(addr: Addr, peerSocketOk: bool) returns (ok: bool, peer: Peer)
      requires Tied() && Inv(model) && model.pc.Free?
      modifies this
      ensures Tied() && Inv(model) && model == Step(old(model), Claim(addr, peerSocketOk))
      ensures ok <==> addr !in old(claimedPeers) && (demux ==> peerSocketOk)
      ensures ok ==> IsOpen(model, peer) && model.owner[peer] == addr && peer == |old(openFlags)|
      ensures claimedPeers == if ok then old(claimedPeers)[addr := peer] else old(claimedPeers)
      ensures openFlags == old(openFlags) + if ok then [true] else []
    {
      StepInv(model, Claim(addr, peerSocketOk));
      if addr in claimedPeers {
        return false, 0;
      }
      if demux && !peerSocketOk {
        return false, 0;
      }
      model := Step(model, Claim(addr, peerSocketOk));
      peer := |openFlags|;
      claimedPeers := claimedPeers[addr := peer];
      openFlags := openFlags + [true];
      callbacks := callbacks + [false];
      delivered := delivered + [[]];
      return true, peer;
    }

    /** dgram_peer_impl::do_relinquish, called by the peer's owner on any thread. */
    method ClosePeerFlag(peer: Peer)
      requires Tied() && Inv(model) && peer < |openFlags|
      modifies `openFlags, `model
      ensures Tied() && Inv(model) && model == Step(old(model), PeerRelinquish(peer))
      ensures openFlags == old(openFlags)[peer := false]
    {
      StepInv(model, PeerRelinquish(peer));
      model := Step(model, PeerRelinquish(peer));
      openFlags := openFlags[peer := false];
    }

    /** on_data of a peer, also on any thread. */
    method SetCallback(peer: Peer, present: bool)
      requires Tied() && Inv(model) && peer < |callbacks|
      modifies `callbacks, `model
      ensures Tied() && Inv(model) && model == Step(old(model), SetHandler(peer, present))
      ensures callbacks == old(callbacks)[peer := present]
    {
      StepInv(model, SetHandler(peer, present));
      model := Step(model, SetHandler(peer, present));
      callbacks := callbacks[peer := present];
    }

    /** do_relinquish on the socket: close the peer and drop its entry. */
    method RelinquishAddress(addr: Addr)
      requires Tied() && Inv(model) && model.pc.Free?
      modifies this
      ensures Tied() && Inv(model) && model == Step(old(model), Relinquish(addr))
      ensures claimedPeers == old(claimedPeers) - {addr} && |openFlags| == |old(openFlags)|
      ensures forall p :: 0 <= p < |openFlags| ==>
                openFlags[p] == (old(openFlags)[p] && !(addr in old(claimedPeers) && old(claimedPeers)[addr] == p))
    {
      StepInv(model, Relinquish(addr));
      model := Step(model, Relinquish(addr));
      if addr in claimedPeers {
        openFlags := openFlags[claimedPeers[addr] := false];
        claimedPeers := claimedPeers - {addr};
      }
    }

    /** The loop of do_destroy: closes the peers in the map one after the other. `order` is
        how it meets the entries. */
    method CloseInOrder(order: seq<Addr>)
      requires forall a :: a in order ==> a in claimedPeers && claimedPeers[a] < |openFlags|
      modifies `openFlags
      ensures |openFlags| == |old(openFlags)|
      ensures forall p :: 0 <= p < |openFlags| ==> openFlags[p] == (old(openFlags)[p] && !ClosedIn(claimedPeers, order, p))
    {
      var i := 0;
      while i < |order|
        invariant 0 <= i <= |order| && |openFlags| == |old(openFlags)|
        invariant forall p :: 0 <= p < |openFlags| ==>
                    openFlags[p] == (old(openFlags)[p] && !ClosedIn(claimedPeers, order[..i], p))
      {
        assert order[i] in order;
        assert order[..i + 1] == order[..i] + [order[i]];
        openFlags := openFlags[claimedPeers[order[i]] := false];
        i := i + 1;
      }
      assert order[..i] == order;
    }

    /** do_destroy: closes the peers in the map, then clears it. */
    method RelinquishEverything(order: seq<Addr>)
      requires Tied() && Inv(model) && model.pc.Free?
      requires forall a :: a in claimedPeers <==> a in order
      modifies this
      ensures Tied() && Inv(model) && model == Step(old(model), RelinquishAll)
      ensures claimedPeers == map[] && forall p :: 0 <= p < |openFlags| ==> !openFlags[p]
    {
      StepInv(model, RelinquishAll);
      CloseInOrder(order);
      AllClosed(model, order);
      claimedPeers := map[];
      model := Step(model, RelinquishAll);
    }

    /** The lookup that both receive paths make; `held` says that deliver_data of
        `peer` is called next. */
    method LookUpSender(d: Datagram) returns (held: bool, peer: Peer)
      requires Tied() && Mapped(model) && model.pc.Free?
      modifies `claimedPeers, `handed, `model
      ensures Tied() && model == Step(old(model), Lookup(d))
      ensures if held then model.pc == Holding(d, peer) else model.pc.Free?
      ensures held <==> !demux && Owned(old(claimedPeers), openFlags, d.from)
      ensures held ==> peer == old(claimedPeers)[d.from]
      ensures if Owned(old(claimedPeers), openFlags, d.from)
              then claimedPeers == old(claimedPeers) && handed == old(handed)
              else claimedPeers == old(claimedPeers) - {d.from} && handed == old(handed) + [d]
    {
      model := Step(model, Lookup(d));
      if d.from in claimedPeers {
        peer := claimedPeers[d.from];
        if openFlags[peer] {
          return !demux, peer;
        }
        claimedPeers := claimedPeers - {d.from};
      }
      handed := handed + [d];
      return false, 0;
    }

    /** deliver_data: the flag is loaded again, and the callback may be missing. */
    method DeliverData(peer: Peer, data: Bytes)
      requires Tied() && Sized(model) && model.pc.Holding? && model.pc.peer == peer && model.pc.datagram.data == data
      modifies `delivered, `model
      ensures Tied() && model == Step(old(model), HandOver) && model.pc.Free?
      ensures delivered == if openFlags[peer] && callbacks[peer]
                           then old(delivered)[peer := old(delivered)[peer] + [data]] else old(delivered)
    {
      model := Step(model, HandOver);
      if !openFlags[peer] || !callbacks[peer] {
        return;
      }
      delivered := delivered[peer := delivered[peer] + [data]];
    }

    method OtherThread(a: Action)
      requires Tied() && Inv(model) && Outside(a)
      modifies `openFlags, `callbacks, `model
      ensures Tied() && Inv(model) && model == Step(old(model), a) && model.pc == old(model).pc
    {
      match a
      case PeerRelinquish(p) => if p < |openFlags| { ClosePeerFlag(p); }
      case SetHandler(p, present) => if p < |callbacks| { SetCallback(p, present); }
    }

    method OtherThreads(others: seq<Action>)
      requires Tied() && Inv(model) && forall i :: 0 <= i < |others| ==> Outside(others[i])
      modifies `openFlags, `callbacks, `model
      ensures Tied() && Inv(model) && model == Exec(old(model), others) && model.pc == old(model).pc
    {
      ghost var start := model;
      for i := 0 to |others|
        invariant Tied() && Inv(model) && model.pc == old(model).pc && model == Exec(start, others[..i])
      {
        NextState(start, others, i);
        OtherThread(others[i]);
      }
      assert others[..|others|] == others;
    }

    method LookUpDatagram(d: Datagram) returns (held: bool, peer: Peer)
      requires Tied() && Inv(model) && model.pc.Free?
      modifies `claimedPeers, `handed, `model
      ensures Tied() && Inv(model) && model == Step(old(model), Lookup(d))
      ensures if held then model.pc == Holding(d, peer) else model.pc.Free?
      ensures held <==> !demux && Owned(old(claimedPeers), openFlags, d.from)
    {
      StepInv(model, Lookup(d));
      held, peer := LookUpSender(d);
    }

    /** What a receive path does with one datagram, with other threads between the
        lookup and the delivery. */
    method HandDatagram(d: Datagram, others: seq<Action>) returns (ghost acts: seq<Action>)
      requires Tied() && Inv(model) && model.pc.Free? && forall i :: 0 <= i < |others| ==> Outside(others[i])
      modifies this
      ensures Tied() && Inv(model) && model.pc.Free? && model == Exec(old(model), acts)
      ensures acts == if !demux && Owned(old(claimedPeers), old(openFlags), d.from)
                      then [Lookup(d)] + others + [HandOver] else [Lookup(d)]
    {
      ghost var start := model;
      var held, peer := LookUpDatagram(d);
      ExtendStep(start, [], Lookup(d));
      acts := [] + [Lookup(d)];
      if held {
        OtherThreads(others);
        ExecConcat(start, acts, others);
        acts := acts + others;
        StepInv(model, HandOver);
        DeliverData(peer, d.data);
        ExtendStep(start, acts, HandOver);
        acts := acts + [HandOver];
      }
    }
  }
}
