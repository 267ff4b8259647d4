/** Routing received datagrams between a UDP socket's own handler and the peers
claimed on it: the routing rule, and what a second pass over a batch selects.

A peer's owner may clear its `open_` flag at any moment, so every load of a flag
has its own set of open peers: `flags[i]` is what the lookup of datagram `i` sees.
Flags are only ever cleared, and no claim is made while a batch is routed.
*/
module DgramRouting {

  type Addr = nat
  type Peer = nat
  type Bytes = seq<char>

  datatype Datagram = Datagram(from: Addr, data: Bytes)
  datatype Delivery = Delivery(peer: Peer, data: Bytes)

  /** The claim map, what went to the socket's own handler, and the calls of
      deliver_data on peers. */
  datatype Routed = Routed(claims: map<Addr, Peer>, parent: seq<Datagram>, peers: seq<Delivery>)

  /** Whether the datagram's sender is claimed by an open peer. */
  predicate Claimed(claims: map<Addr, Peer>, open: set<Peer>, d: Datagram) {
    d.from in claims && claims[d.from] in open
  }

  /** The rule for one datagram. A claim whose peer is no longer open is dropped
      from the map and the datagram goes to the handler. With kernel demultiplexing
      a datagram of an open peer is a straggler and is dropped. */
  function RouteOne(r: Routed, open: set<Peer>, demux: bool, d: Datagram): Routed {
    if Claimed(r.claims, open, d) then
      if demux then r else r.(peers := r.peers + [Delivery(r.claims[d.from], d.data)])
    else r.(claims := r.claims - {d.from}, parent := r.parent + [d])
  }

  function RouteAll(r: Routed, flags: seq<set<Peer>>, demux: bool, ds: seq<Datagram>): Routed
    requires |flags| == |ds|
  {
    if ds == [] then r
    else
      var n := |ds| - 1;
      RouteOne(RouteAll(r, flags[..n], demux, ds[..n]), flags[n], demux, ds[n])
  }

  /** The datagrams a fixed set of claims leaves to the handler, in order. */
  function Unclaimed(claims: map<Addr, Peer>, flags: seq<set<Peer>>, ds: seq<Datagram>): seq<Datagram>
    requires |flags| == |ds|
  {
    if ds == [] then []
    else
      var n := |ds| - 1;
      Unclaimed(claims, flags[..n], ds[..n]) + if Claimed(claims, flags[n], ds[n]) then [] else [ds[n]]
  }

  function Flat(ds: seq<Datagram>): Bytes {
    if ds == [] then [] else Flat(ds[..|ds| - 1]) + ds[|ds| - 1].data
  }

  /** Flags are only cleared as time goes on. */
  predicate Falling(flags: seq<set<Peer>>) {
    forall i, j :: 0 <= i <= j < |flags| ==> flags[j] <= flags[i]
  }

  // ---- what routing a batch amounts to ----------------------------------------

  /** Routing takes entries out of the map and changes none. */
  lemma {:induction false} ClaimsShrink(r: Routed, flags: seq<set<Peer>>, demux: bool, ds: seq<Datagram>)
    requires |flags| == |ds|
    ensures forall a :: a in RouteAll(r, flags, demux, ds).claims ==>
              a in r.claims && RouteAll(r, flags, demux, ds).claims[a] == r.claims[a]
    decreases |ds|
  {
    if ds != [] {
      ClaimsShrink(r, flags[..|ds| - 1], demux, ds[..|ds| - 1]);
    }
  }

  /** An entry stays while its peer is open at every load. */
  lemma {:induction false} OpenClaimStays(r: Routed, flags: seq<set<Peer>>, demux: bool, ds: seq<Datagram>, a: Addr)
    requires |flags| == |ds| && a in r.claims && forall k :: 0 <= k < |flags| ==> r.claims[a] in flags[k]
    ensures a in RouteAll(r, flags, demux, ds).claims
    decreases |ds|
  {
    if ds != [] {
      var n := |ds| - 1;
      OpenClaimStays(r, flags[..n], demux, ds[..n], a);
      ClaimsShrink(r, flags[..n], demux, ds[..n]);
    }
  }

  /** A load in the course of a batch, or after it, sees an open claim exactly if
      the map before the batch has it: an erased entry belongs to a closed peer. */
  lemma LoadSeesOriginal(r: Routed, flags: seq<set<Peer>>, demux: bool, ds: seq<Datagram>, now: set<Peer>, d: Datagram)
    requires |flags| == |ds| && forall k :: 0 <= k < |flags| ==> now <= flags[k]
    ensures Claimed(RouteAll(r, flags, demux, ds).claims, now, d) == Claimed(r.claims, now, d)
  {
    ClaimsShrink(r, flags, demux, ds);
    if Claimed(r.claims, now, d) {
      OpenClaimStays(r, flags, demux, ds, d.from);
    }
  }

  /** The handler gets the datagrams that the claims before the batch, at the time
      of each lookup, leave to it, in order. */
  lemma {:induction false} RouteAllParent(r: Routed, flags: seq<set<Peer>>, demux: bool, ds: seq<Datagram>)
    requires |flags| == |ds| && Falling(flags)
    ensures RouteAll(r, flags, demux, ds).parent == r.parent + Unclaimed(r.claims, flags, ds)
    decreases |ds|
  {
    if ds != [] {
      var n := |ds| - 1;
      RouteAllParent(r, flags[..n], demux, ds[..n]);
      LoadSeesOriginal(r, flags[..n], demux, ds[..n], flags[n], ds[n]);
    }
  }

  lemma {:induction false} RouteConcat(r: Routed, fa: seq<set<Peer>>, fb: seq<set<Peer>>, demux: bool,
                                       a: seq<Datagram>, b: seq<Datagram>)
    requires |fa| == |a| && |fb| == |b|
    ensures RouteAll(r, fa + fb, demux, a + b) == RouteAll(RouteAll(r, fa, demux, a), fb, demux, b)
    decreases |b|
  {
    if b == [] {
      assert a + b == a && fa + fb == fa;
    } else {
      var n := |b| - 1;
      assert (a + b)[..|a + b| - 1] == a + b[..n] && (fa + fb)[..|a + b| - 1] == fa + fb[..n];
      RouteConcat(r, fa, fb[..n], demux, a, b[..n]);
    }
  }

  // ---- two passes over a batch -----------------------------------------------

  /** No peer was relinquished between the two loads for one of its datagrams. */
  predicate Steady(claims: map<Addr, Peer>, first: seq<set<Peer>>, second: seq<set<Peer>>, ds: seq<Datagram>)
    requires |first| == |second| == |ds|
  {
    forall i :: 0 <= i < |ds| && Claimed(claims, first[i], ds[i]) ==> Claimed(claims, second[i], ds[i])
  }

  /** Later loads leave at least as much to the handler; the same number exactly if
      nothing claimed at the first load is unclaimed at the second, and then the
      same datagrams. */
  lemma {:induction false} LaterLeavesMore(
    claims: map<Addr, Peer>, first: seq<set<Peer>>, second: seq<set<Peer>>, ds: seq<Datagram>)
    requires |first| == |second| == |ds| && forall i :: 0 <= i < |ds| ==> second[i] <= first[i]
    ensures |Unclaimed(claims, first, ds)| <= |Unclaimed(claims, second, ds)|
    ensures |Unclaimed(claims, first, ds)| == |Unclaimed(claims, second, ds)| <==> Steady(claims, first, second, ds)
    ensures Steady(claims, first, second, ds) ==> Unclaimed(claims, first, ds) == Unclaimed(claims, second, ds)
    decreases |ds|
  {
    if ds != [] {
      var n := |ds| - 1;
      LaterLeavesMore(claims, first[..n], second[..n], ds[..n]);
      SteadySnoc(claims, first, second, ds);
    }
  }

  lemma SteadySnoc(claims: map<Addr, Peer>, first: seq<set<Peer>>, second: seq<set<Peer>>, ds: seq<Datagram>)
    requires |first| == |second| == |ds| > 0
    ensures var n := |ds| - 1;
            Steady(claims, first, second, ds) <==>
            Steady(claims, first[..n], second[..n], ds[..n])
            && (Claimed(claims, first[n], ds[n]) ==> Claimed(claims, second[n], ds[n]))
  {
    var n := |ds| - 1;
    if Steady(claims, first, second, ds) {
      forall i | 0 <= i < n && Claimed(claims, first[..n][i], ds[..n][i])
        ensures Claimed(claims, second[..n][i], ds[..n][i])
      {
        assert Claimed(claims, first[i], ds[i]);
      }
    }
    if Steady(claims, first[..n], second[..n], ds[..n])
       && (Claimed(claims, first[n], ds[n]) ==> Claimed(claims, second[n], ds[n]))
    {
      forall i | 0 <= i < |ds| && Claimed(claims, first[i], ds[i]) ensures Claimed(claims, second[i], ds[i]) {
        if i < n { assert Claimed(claims, first[..n][i], ds[..n][i]); }
      }
    }
  }

  /** The second pass looks into the map the first pass left; with its own loads it
      selects what the original map would. */
  lemma {:induction false} SecondLookups(claims: map<Addr, Peer>, first: seq<set<Peer>>, second: seq<set<Peer>>,
                                         demux: bool, ds: seq<Datagram>, n: nat)
    requires |first| == |second| == |ds| && Falling(first + second) && n <= |ds|
    ensures var left := RouteAll(Routed(claims, [], []), first, demux, ds).claims;
            Unclaimed(left, second[..n], ds[..n]) == Unclaimed(claims, second[..n], ds[..n])
    decreases n
  {
    if n > 0 {
      SecondLookups(claims, first, second, demux, ds, n - 1);
      forall k | 0 <= k < |first| ensures second[n - 1] <= first[k] {
        assert (first + second)[|first| + n - 1] <= (first + second)[k];
      }
      LoadSeesOriginal(Routed(claims, [], []), first, demux, ds, second[n - 1], ds[n - 1]);
      assert ds[..n][..n - 1] == ds[..n - 1] && second[..n][..n - 1] == second[..n - 1];
    }
  }

  /** The two passes agree exactly if no peer is relinquished between the two loads
      for one of its datagrams. Then the second pass selects precisely the datagrams
      the first pass counted; otherwise it selects more messages than were counted. */
  lemma SecondPassIff(claims: map<Addr, Peer>, first: seq<set<Peer>>, second: seq<set<Peer>>,
                      demux: bool, ds: seq<Datagram>)
    requires |first| == |second| == |ds| && Falling(first + second)
    ensures var r := RouteAll(Routed(claims, [], []), first, demux, ds);
            var selected := Unclaimed(r.claims, second, ds);
            && (Steady(claims, first, second, ds) ==> selected == r.parent)
            && (!Steady(claims, first, second, ds) ==> |selected| > |r.parent|)
  {
    forall i, j | 0 <= i <= j < |first| ensures first[j] <= first[i] {
      assert (first + second)[j] <= (first + second)[i];
    }
    forall i | 0 <= i < |ds| ensures second[i] <= first[i] {
      assert (first + second)[|first| + i] <= (first + second)[i];
    }
    RouteAllParent(Routed(claims, [], []), first, demux, ds);
    SecondLookups(claims, first, second, demux, ds, |ds|);
    assert ds[..|ds|] == ds && second[..|ds|] == second;
    LaterLeavesMore(claims, first, second, ds);
  }

  /** It happens: of two datagrams of one peer, relinquished between their first
      loads, the first pass counts one and the second pass selects both. */
  lemma SecondPassOverruns(from: Addr, peer: Peer, a: Bytes, b: Bytes)
    ensures var ds := [Datagram(from, a), Datagram(from, b)];
            var r := RouteAll(Routed(map[from := peer], [], []), [{peer}, {}], false, ds);
            && Falling([{peer}, {}] + [{}, {}])
            && |r.parent| == 1 && |Unclaimed(r.claims, [{}, {}], ds)| == 2
  {
    var d, e := Datagram(from, a), Datagram(from, b);
    var ds, first, none: seq<set<Peer>> := [d, e], [{peer}, {}], [{}, {}];
    var start := Routed(map[from := peer], [], []);
    assert ds[..1] == [d] && first[..1] == [{peer}] && none[..1] == [{}];
    assert [d][..0] == [] && [{peer}][..0] == [];
    assert RouteAll(start, [{peer}], false, [d]) == RouteOne(start, {peer}, false, d);
    var r := RouteAll(start, first, false, ds);
    assert r == RouteOne(RouteOne(start, {peer}, false, d), {}, false, e);
    assert Unclaimed(r.claims, [{}], [d]) == [d];
  }
}
