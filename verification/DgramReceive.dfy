/** handle_readable: the batched receive, and the loop that bounds the work of one
wake-up, with either kind of data callback. */
module DgramReceive {
  import opened DgramRouting
  import opened DgramPaths

  datatype RecvError = WouldBlock | Fatal(code: nat)
  datatype BatchResult = Received(count: nat) | Failed(error: RecvError)

  function Min(a: nat, b: nat): nat {
    if a <= b then a else b
  }

  /** What receive buffers of `cap` bytes keep of the datagrams. */
  function CutAll(ds: seq<Datagram>, cap: nat): (r: seq<Datagram>)
    ensures |r| == |ds|
    ensures forall i :: 0 <= i < |ds| ==> r[i] == Datagram(ds[i].from, ds[i].data[..Min(|ds[i].data|, cap)])
  {
    seq(|ds|, i requires 0 <= i < |ds| => Datagram(ds[i].from, ds[i].data[..Min(|ds[i].data|, cap)]))
  }

  /** Datagrams that fit the buffers are kept whole. */
  lemma NothingCut(ds: seq<Datagram>, cap: nat)
    requires forall i :: 0 <= i < |ds| ==> |ds[i].data| <= cap
    ensures CutAll(ds, cap) == ds
  {
    forall i | 0 <= i < |ds| ensures CutAll(ds, cap)[i] == ds[i] {
      assert ds[i].data[..|ds[i].data|] == ds[i].data;
    }
  }

  /** The slot holds the sender and as much of the data as the buffer takes. */
  predicate Holds(e: Entry, d: Datagram, cap: nat) {
    e.addr == d.from && e.transferred == Min(|d.data|, cap) <= |e.buf| && e.buf[..e.transferred] == d.data[..e.transferred]
  }

  /** The fallback recv_batch: one recv_from per slot. `avail` is what the socket
      holds; behind it every recv_from fails with `error`. */
  method RecvBatch(entries: array<Entry>, cap: nat, avail: seq<Datagram>, error: RecvError) returns (r: BatchResult)
    modifies entries
    ensures avail == [] && entries.Length > 0 ==> r == Failed(error)
    ensures avail != [] || entries.Length == 0 ==> r == Received(Min(|avail|, entries.Length))
    ensures r.Received? ==>
              forall i :: 0 <= i < r.count ==>
                && entries[i].addr == avail[i].from && entries[i].transferred == Min(|avail[i].data|, cap) <= |entries[i].buf|
                && entries[i].buf[..entries[i].transferred] == avail[i].data[..entries[i].transferred]
  {
    var i := 0;
    while i < entries.Length
      invariant 0 <= i <= entries.Length && i <= |avail|
      invariant forall k :: 0 <= k < i ==> Holds(entries[k], avail[k], cap)
    {
      if i == |avail| {
        if i == 0 {
          return Failed(error);
        }
        return Received(i);
      }
      var n := Min(|avail[i].data|, cap);
      entries[i] := Entry(avail[i].from, avail[i].data[..n], n);
      i := i + 1;
    }
    return Received(entries.Length);
  }

  const MAX_ITERATIONS := 8

  /** The datagrams in `k` full batches. */
  function InBatches(batch: nat, k: nat): nat {
    if k == 0 then 0 else InBatches(batch, k - 1) + batch
  }

  /** Whether the socket runs empty right after a full batch and before the eighth. */
  predicate EmptiesOnBoundary(n: nat, batch: nat) {
    batch > 0 && exists k :: 0 <= k < MAX_ITERATIONS && n == InBatches(batch, k)
  }

  lemma {:induction false} InBatchesIsProduct(batch: nat, k: nat)
    ensures InBatches(batch, k) == k * batch
  {
    if k > 0 {
      InBatchesIsProduct(batch, k - 1);
      assert k * batch == (k - 1) * batch + batch;
    }
  }

  lemma {:induction false} InBatchesMonotone(batch: nat, a: nat, b: nat)
    requires a < b
    ensures InBatches(batch, a) + batch <= InBatches(batch, b)
  {
    if a < b - 1 {
      InBatchesMonotone(batch, a, b - 1);
    }
  }

  lemma BatchFits(batch: nat, iter: nat)
    requires iter < MAX_ITERATIONS
    ensures InBatches(batch, iter) + batch <= MAX_ITERATIONS * batch
  {
    InBatchesMonotone(batch, iter, MAX_ITERATIONS);
    InBatchesIsProduct(batch, MAX_ITERATIONS);
  }

  /** Strictly between two batch boundaries there is no other. */
  lemma OffBoundary(n: nat, batch: nat, iter: nat)
    requires InBatches(batch, iter) < n < InBatches(batch, iter) + batch
    ensures !EmptiesOnBoundary(n, batch)
  {
    if EmptiesOnBoundary(n, batch) {
      var k :| 0 <= k < MAX_ITERATIONS && n == InBatches(batch, k);
      if k < iter {
        InBatchesMonotone(batch, k, iter);
      } else if iter < k {
        InBatchesMonotone(batch, iter, k);
      }
    }
  }

  lemma PastBoundaries(n: nat, batch: nat)
    requires InBatches(batch, MAX_ITERATIONS) <= n
    ensures !EmptiesOnBoundary(n, batch)
  {
    if EmptiesOnBoundary(n, batch) {
      var k :| 0 <= k < MAX_ITERATIONS && n == InBatches(batch, k);
      InBatchesMonotone(batch, k, MAX_ITERATIONS);
    }
  }

  /** Routing appends to what was already handed over. */
  lemma {:induction false} RouteShift(r: Routed, flags: seq<set<Peer>>, demux: bool, ds: seq<Datagram>)
    requires |flags| == |ds|
    ensures var s := RouteAll(Routed(r.claims, [], []), flags, demux, ds);
            RouteAll(r, flags, demux, ds) == Routed(s.claims, r.parent + s.parent, r.peers + s.peers)
    decreases |ds|
  {
    if ds != [] {
      var n := |ds| - 1;
      RouteShift(r, flags[..n], demux, ds[..n]);
      var s := RouteAll(Routed(r.claims, [], []), flags[..n], demux, ds[..n]);
      var d := ds[n];
      assert r.parent + s.parent + [d] == r.parent + (s.parent + [d]);
      if Claimed(s.claims, flags[n], d) {
        var x := Delivery(s.claims[d.from], d.data);
        assert r.peers + s.peers + [x] == r.peers + (s.peers + [x]);
      }
    }
  }

  /** One more batch behind those routed so far. */
  lemma NextBatch(r0: Routed, fa: seq<set<Peer>>, fb: seq<set<Peer>>, demux: bool, a: seq<Datagram>, b: seq<Datagram>)
    requires |fa| == |a| && |fb| == |b|
    ensures var r := RouteAll(r0, fa, demux, a);
            var s := RouteAll(Routed(r.claims, [], []), fb, demux, b);
            RouteAll(r0, fa + fb, demux, a + b) == Routed(s.claims, r.parent + s.parent, r.peers + s.peers)
  {
    RouteConcat(r0, fa, fb, demux, a, b);
    RouteShift(RouteAll(r0, fa, demux, a), fb, demux, b);
  }

  /** The datagrams a batch callback reads off its messages. */
  method ReadMessages(buf: array<char>, msgs: array<Message>, ghost ds: seq<Datagram>) returns (out: seq<Datagram>)
    requires Laid(buf[..], msgs[..], ds)
    ensures out == ds
  {
    out := [];
    for k := 0 to msgs.Length
      invariant out == ds[..k]
    {
      assert msgs[..][k] == msgs[k];
      assert buf[..][msgs[k].offset..msgs[k].offset + msgs[k].len] == buf[msgs[k].offset..msgs[k].offset + msgs[k].len];
      out := out + [Datagram(msgs[k].from, buf[msgs[k].offset..msgs[k].offset + msgs[k].len])];
    }
  }

  /** Whether the two passes over a batch agree: there is nothing to hand over, or no
      peer is relinquished between the two loads for one of its datagrams. */
  predicate Fine(claims: map<Addr, Peer>, first: seq<set<Peer>>, second: seq<set<Peer>>, demux: bool, ds: seq<Datagram>)
    requires |first| == |second| == |ds|
  {
    RouteAll(Routed(claims, [], []), first, demux, ds).parent == [] || Steady(claims, first, second, ds)
  }

  /** Routes a received batch by one path or the other. */
  method RouteBatch(entries: array<Entry>, count: nat, claims0: map<Addr, Peer>,
                    first: seq<set<Peer>>, second: seq<set<Peer>>, demux: bool, inBatches: bool)
    returns (fits: bool, claims: map<Addr, Peer>, handed: seq<Datagram>, delivered: seq<Delivery>)
    requires count == |first| == |second| <= entries.Length && forall i :: 0 <= i < count ==> Filled(entries[i])
    requires Falling(first + second)
    ensures fits ==> Routed(claims, handed, delivered) ==
                     RouteAll(Routed(claims0, [], []), first, demux, DatagramsOf(entries[..count]))
    ensures fits <==> !inBatches || Fine(claims0, first, second, demux, DatagramsOf(entries[..count]))
  {
    if inBatches {
      var buf, msgs;
      fits, claims, buf, msgs, delivered := BatchPath(entries, count, claims0, first, second, demux);
      handed := [];
      if fits {
        handed := ReadMessages(buf, msgs, RouteAll(Routed(claims0, [], []), first, demux, DatagramsOf(entries[..count])).parent);
      }
    } else {
      fits := true;
      claims, handed, delivered := SinglePath(entries, count, claims0, first, demux);
    }
  }

  /** One iteration of handle_readable: receive a batch and route it. */
  method ReceiveAndRoute(entries: array<Entry>, cap: nat, avail: seq<Datagram>, error: RecvError,
                         claims0: map<Addr, Peer>, first: seq<set<Peer>>, second: seq<set<Peer>>,
                         demux: bool, inBatches: bool)
    returns (r: BatchResult, fits: bool, claims: map<Addr, Peer>, handed: seq<Datagram>, delivered: seq<Delivery>)
    requires |first| == |second| == Min(|avail|, entries.Length) && Falling(first + second)
    modifies entries
    ensures avail == [] && entries.Length > 0 ==> r == Failed(error)
    ensures avail != [] || entries.Length == 0 ==> r == Received(Min(|avail|, entries.Length))
    ensures r.Received? && fits ==>
              Routed(claims, handed, delivered) ==
              RouteAll(Routed(claims0, [], []), first, demux, CutAll(avail[..r.count], cap))
    ensures r.Received? ==> (fits <==> !inBatches || Fine(claims0, first, second, demux, CutAll(avail[..r.count], cap)))
  {
    fits, claims, handed, delivered := true, claims0, [], [];
    r := RecvBatch(entries, cap, avail, error);
    if r.Received? {
      assert DatagramsOf(entries[..r.count]) == CutAll(avail[..r.count], cap);
      fits, claims, handed, delivered := RouteBatch(entries, r.count, claims0, first, second, demux, inBatches);
    }
  }

  /** The open peers at the loads of one round, before and after each other in time. */
  datatype Round = Round(first: seq<set<Peer>>, second: seq<set<Peer>>)

  /** How many datagrams the round after `taken` receives. */
  function RoundSize(n: nat, taken: nat, batch: nat): nat {
    if taken <= n then Min(n - taken, batch) else 0
  }

  predicate Timed(round: Round, size: nat) {
    |round.first| == |round.second| == size && Falling(round.first + round.second)
  }

  /** The rounds of a wake-up, each with a load per datagram and pass. */
  predicate AllTimed(rounds: seq<Round>, n: nat, batch: nat) {
    |rounds| == MAX_ITERATIONS
    && forall k :: 0 <= k < |rounds| ==> Timed(rounds[k], RoundSize(n, InBatches(batch, k), batch))
  }

  /** What the lookups of the first `k` rounds saw. */
  function Seen(rounds: seq<Round>, k: nat): seq<set<Peer>>
    requires k <= |rounds|
  {
    if k == 0 then [] else Seen(rounds, k - 1) + rounds[k - 1].first
  }

  /** What routing a further batch adds. */
  function Append(r: Routed, s: Routed): Routed {
    Routed(s.claims, r.parent + s.parent, r.peers + s.peers)
  }

  /** What the first `k` rounds have routed, one after the other. */
  function AfterRounds(rounds: seq<Round>, k: nat, r0: Routed, demux: bool, kept: seq<Datagram>): Routed
    requires k <= |rounds| && |Seen(rounds, k)| <= |kept|
  {
    if k == 0 then r0
    else
      var r, n := AfterRounds(rounds, k - 1, r0, demux, kept), |Seen(rounds, k - 1)|;
      var first := rounds[k - 1].first;
      Append(r, RouteAll(Routed(r.claims, [], []), first, demux, kept[n..n + |first|]))
  }

  /** Together the rounds route as one batch would. */
  lemma {:induction false} RoundsRoute(rounds: seq<Round>, k: nat, r0: Routed, demux: bool, kept: seq<Datagram>)
    requires k <= |rounds| && |Seen(rounds, k)| <= |kept|
    ensures AfterRounds(rounds, k, r0, demux, kept) == RouteAll(r0, Seen(rounds, k), demux, kept[..|Seen(rounds, k)|])
    decreases k
  {
    if k > 0 {
      RoundsRoute(rounds, k - 1, r0, demux, kept);
      MoreRouted(r0, Seen(rounds, k - 1), rounds[k - 1].first, demux, kept, |Seen(rounds, k - 1)|, |rounds[k - 1].first|);
    }
  }

  /** Whether the passes of round `k` agree, with the claims the rounds before leave. */
  predicate FineAt(rounds: seq<Round>, k: nat, r0: Routed, demux: bool, kept: seq<Datagram>)
    requires k < |rounds|
  {
    var n, round := |Seen(rounds, k)|, rounds[k];
    n + |round.first| <= |kept| && |round.first| == |round.second| ==>
      Fine(AfterRounds(rounds, k, r0, demux, kept).claims, round.first, round.second, demux, kept[n..n + |round.first|])
  }

  /** One round of handle_readable's loop, behind the `taken` datagrams routed so far;
      `kept` are the datagrams as the buffers keep them. */
  method NextRound(entries: array<Entry>, cap: nat, avail: seq<Datagram>, error: RecvError, taken: nat,
                   round: Round, demux: bool, inBatches: bool, before: Routed, ghost kept: seq<Datagram>)
    returns (r: BatchResult, fits: bool, after: Routed)
    requires taken <= |avail| && Timed(round, RoundSize(|avail|, taken, entries.Length)) && kept == CutAll(avail, cap)
    modifies entries
    ensures taken == |avail| && entries.Length > 0 ==> r == Failed(error)
    ensures taken < |avail| || entries.Length == 0 ==> r == Received(RoundSize(|avail|, taken, entries.Length))
    ensures r.Received? && fits ==>
              after == Append(before, RouteAll(Routed(before.claims, [], []), round.first, demux, kept[taken..taken + r.count]))
    ensures r.Received? ==>
              (fits <==> !inBatches || Fine(before.claims, round.first, round.second, demux, kept[taken..taken + r.count]))
  {
    var claims, handed, delivered;
    r, fits, claims, handed, delivered :=
      ReceiveAndRoute(entries, cap, avail[taken..], error, before.claims, round.first, round.second, demux, inBatches);
    after := Append(before, Routed(claims, handed, delivered));
    assert r.Received? ==> CutAll(avail[taken..][..r.count], cap) == kept[taken..taken + r.count];
  }

  /** How a round that begins after `start` datagrams ends the loop: there are no
      slots, nothing is left to receive, or the round is not full. */
  predicate EndedAt(start: nat, taken: nat, n: nat, batch: nat, fatal: bool, reported: bool) {
    if batch == 0 then taken == start && !reported
    else if n == start then taken == n && reported == fatal
    else start < taken == n < start + batch && !reported
  }

  /** How the loop ends after `iter` full rounds. */
  predicate Ended(iter: nat, taken: nat, n: nat, batch: nat, fatal: bool, reported: bool) {
    && iter <= MAX_ITERATIONS
    && if iter == MAX_ITERATIONS then taken == InBatches(batch, iter) <= n && !reported
       else EndedAt(InBatches(batch, iter), taken, n, batch, fatal, reported)
  }

  lemma EndedMeans(iter: nat, taken: nat, n: nat, batch: nat, fatal: bool, reported: bool)
    requires Ended(iter, taken, n, batch, fatal, reported)
    ensures taken == Min(n, MAX_ITERATIONS * batch)
    ensures reported <==> fatal && EmptiesOnBoundary(n, batch)
    ensures iter == MAX_ITERATIONS || batch == 0 || n <= InBatches(batch, iter + 1)
  {
    InBatchesIsProduct(batch, MAX_ITERATIONS);
    InBatchesIsProduct(batch, iter);
    if iter == MAX_ITERATIONS {
      PastBoundaries(n, batch);
    } else {
      BatchFits(batch, iter);
      if batch > 0 && n != InBatches(batch, iter) { OffBoundary(n, batch, iter); }
    }
  }

  /** handle_readable. One wake-up takes exactly the first 8 * batch datagrams, or
      all if there are fewer, each cut to the buffer, and routes them in arrival order
      by either kind of callback, each by the flags its lookup saw; a socket error is
      reported exactly if the socket ran empty right after a full batch and before
      the eighth. It stays inside its buffers exactly if it has no batch callback or
      the two passes of every round agree. */
  method HandleReadable(entries: array<Entry>, cap: nat, avail: seq<Datagram>, error: RecvError,
                        claims: map<Addr, Peer>, rounds: seq<Round>, demux: bool, inBatches: bool)
    returns (fits: bool, result: Routed, taken: nat, reported: bool, ghost seen: seq<set<Peer>>)
    requires AllTimed(rounds, |avail|, entries.Length)
    modifies entries
    ensures fits ==> taken == |seen| == Min(|avail|, MAX_ITERATIONS * entries.Length)
    ensures fits ==> seen == Seen(rounds, MAX_ITERATIONS)
    ensures fits ==> result == RouteAll(Routed(claims, [], []), seen, demux, CutAll(avail, cap)[..taken])
    ensures fits && (forall i :: 0 <= i < |avail| ==> |avail[i].data| <= cap) ==>
              result == RouteAll(Routed(claims, [], []), seen, demux, avail[..taken])
    ensures fits ==> (reported <==> error.Fatal? && EmptiesOnBoundary(|avail|, entries.Length))
    ensures fits <==> !inBatches || AllFine(rounds, MAX_ITERATIONS, Routed(claims, [], []), demux, CutAll(avail, cap))
  {
    ghost var full, done;
    fits, result, taken, reported, full, done :=
      ReceiveLoop(entries, cap, avail, error, Routed(claims, [], []), rounds, demux, inBatches, CutAll(avail, cap));
    seen := Seen(rounds, MAX_ITERATIONS);
    if forall i :: 0 <= i < |avail| ==> |avail[i].data| <= cap { NothingCut(avail, cap); }
    if fits {
      EndedMeans(full, taken, |avail|, entries.Length, error.Fatal?, reported);
      NothingMoreSeen(rounds, |avail|, entries.Length, done, MAX_ITERATIONS);
      RoundsRoute(rounds, done, Routed(claims, [], []), demux, CutAll(avail, cap));
      if inBatches {
        RestFine(rounds, |avail|, entries.Length, done, Routed(claims, [], []), demux, CutAll(avail, cap));
      }
    }
  }

  /** The loop of handle_readable: `full` rounds were full, `done` received something
      or tried to. */
  method ReceiveLoop(entries: array<Entry>, cap: nat, avail: seq<Datagram>, error: RecvError,
                     r0: Routed, rounds: seq<Round>, demux: bool, inBatches: bool, ghost kept: seq<Datagram>)
    returns (fits: bool, result: Routed, taken: nat, reported: bool, ghost full: nat, ghost done: nat)
    requires AllTimed(rounds, |avail|, entries.Length) && kept == CutAll(avail, cap)
    modifies entries
    ensures fits ==> full <= MAX_ITERATIONS && done == if full < MAX_ITERATIONS then full + 1 else full
    ensures fits ==> RoutedBy(rounds, done, r0, demux, inBatches, kept, taken, result)
    ensures fits ==> Ended(full, taken, |avail|, entries.Length, error.Fatal?, reported)
    ensures !fits ==> inBatches && !AllFine(rounds, MAX_ITERATIONS, r0, demux, kept)
  {
    fits, result, taken, reported, full, done := true, r0, 0, false, 0, 0;
    RoutedByNone(rounds, r0, demux, inBatches, kept);
    var iter := 0;
    while iter < MAX_ITERATIONS
      invariant 0 <= iter == full == done <= MAX_ITERATIONS && !reported && fits
      invariant taken == InBatches(entries.Length, iter) <= |avail|
      invariant RoutedBy(rounds, iter, r0, demux, inBatches, kept, taken, result)
    {
      var status;
      status, result, taken, reported :=
        FurtherRound(entries, cap, avail, error, rounds, iter, taken, demux, inBatches, result, r0, kept);
      if status.Overrun? {
        fits := false;
        return;
      }
      done := iter + 1;
      if status.Stop? { return; }
      iter, full := iter + 1, iter + 1;
    }
  }

  /** The first `k` rounds took `taken` datagrams, all were fine, and left `r`. */
  ghost predicate RoutedBy(rounds: seq<Round>, k: nat, r0: Routed, demux: bool, inBatches: bool,
                           kept: seq<Datagram>, taken: nat, r: Routed)
  {
    && k <= |rounds| && taken == |Seen(rounds, k)| <= |kept| && r == AfterRounds(rounds, k, r0, demux, kept)
    && (inBatches ==> AllFine(rounds, k, r0, demux, kept))
  }

  lemma RoutedByNone(rounds: seq<Round>, r0: Routed, demux: bool, inBatches: bool, kept: seq<Datagram>)
    ensures RoutedBy(rounds, 0, r0, demux, inBatches, kept, 0, r0)
  {
  }

  /** One pass through the body, behind rounds that were all fine. */
  method FurtherRound(entries: array<Entry>, cap: nat, avail: seq<Datagram>, error: RecvError,
                      rounds: seq<Round>, iter: nat, taken: nat, demux: bool, inBatches: bool,
                      before: Routed, ghost r0: Routed, ghost kept: seq<Datagram>)
    returns (status: Status, after: Routed, taken': nat, reported: bool)
    requires AllTimed(rounds, |avail|, entries.Length) && kept == CutAll(avail, cap) && iter < MAX_ITERATIONS
    requires taken == InBatches(entries.Length, iter) <= |avail|
    requires RoutedBy(rounds, iter, r0, demux, inBatches, kept, taken, before)
    modifies entries
    ensures status.Overrun? ==> inBatches && !AllFine(rounds, MAX_ITERATIONS, r0, demux, kept)
    ensures !status.Overrun? ==> RoutedBy(rounds, iter + 1, r0, demux, inBatches, kept, taken', after)
    ensures status.GoOn? ==> taken' == InBatches(entries.Length, iter + 1) <= |avail| && !reported
    ensures status.Stop? ==> Ended(iter, taken', |avail|, entries.Length, error.Fatal?, reported)
  {
    status, after, taken', reported :=
      StepRound(entries, cap, avail, error, rounds, iter, taken, demux, inBatches, before, r0, kept);
    if inBatches && !status.Overrun? { FineSnoc(rounds, iter, r0, demux, kept); }
  }

  /** One pass through the body, in terms of the rounds so far. */
  method StepRound(entries: array<Entry>, cap: nat, avail: seq<Datagram>, error: RecvError,
                   rounds: seq<Round>, iter: nat, taken: nat, demux: bool, inBatches: bool,
                   before: Routed, ghost r0: Routed, ghost kept: seq<Datagram>)
    returns (status: Status, after: Routed, taken': nat, reported: bool)
    requires kept == CutAll(avail, cap) && iter < |rounds| && taken == |Seen(rounds, iter)| <= |avail|
    requires Timed(rounds[iter], RoundSize(|avail|, taken, entries.Length))
    requires before == AfterRounds(rounds, iter, r0, demux, kept)
    modifies entries
    ensures |Seen(rounds, iter + 1)| == taken + |rounds[iter].first| <= |kept|
    ensures status.Overrun? <==> inBatches && !FineAt(rounds, iter, r0, demux, kept)
    ensures !status.Overrun? ==>
              taken' == taken + |rounds[iter].first| && after == AfterRounds(rounds, iter + 1, r0, demux, kept)
    ensures status.GoOn? ==> |rounds[iter].first| == entries.Length > 0 && !reported
    ensures status.Stop? ==> EndedAt(taken, taken', |avail|, entries.Length, error.Fatal?, reported)
  {
    PlanRound(rounds, iter, r0, demux, kept);
    status, after, taken', reported :=
      RoundAs(entries, cap, avail, error, rounds[iter], taken, demux, inBatches, before, kept,
              FineAt(rounds, iter, r0, demux, kept), AfterRounds(rounds, iter + 1, r0, demux, kept));
  }

  datatype Status = GoOn | Stop | Overrun

  /** One pass through the body of the loop: whether to go on with another round. */
  method DoRound(entries: array<Entry>, cap: nat, avail: seq<Datagram>, error: RecvError, round: Round, taken: nat,
                 demux: bool, inBatches: bool, before: Routed, ghost kept: seq<Datagram>)
    returns (status: Status, after: Routed, taken': nat, reported: bool)
    requires taken <= |avail| && Timed(round, RoundSize(|avail|, taken, entries.Length)) && kept == CutAll(avail, cap)
    modifies entries
    ensures taken + |round.first| <= |avail|
    ensures status.Overrun? <==>
            inBatches && !Fine(before.claims, round.first, round.second, demux, kept[taken..taken + |round.first|])
    ensures !status.Overrun? ==>
              && taken' == taken + |round.first| <= |avail|
              && after == Append(before, RouteAll(Routed(before.claims, [], []), round.first, demux, kept[taken..taken']))
    ensures status.GoOn? ==> |round.first| == entries.Length > 0 && !reported
    ensures status.Stop? ==> EndedAt(taken, taken', |avail|, entries.Length, error.Fatal?, reported)
  {
    var r, fits;
    r, fits, after := NextRound(entries, cap, avail, error, taken, round, demux, inBatches, before, kept);
    if r.Failed? || r.count == 0 {
      return Stop, before, taken, r.Failed? && error.Fatal?;
    }
    if !fits {
      return Overrun, before, taken, false;
    }
    taken', reported := taken + r.count, false;
    status := if r.count < entries.Length then Stop else GoOn;
  }

  /** What a round behind `taken` datagrams finds and leaves. */
  ghost predicate Planned(round: Round, taken: nat, before: Routed, demux: bool, kept: seq<Datagram>, fine: bool, next: Routed) {
    && |round.first| == |round.second| && taken + |round.first| <= |kept|
    && var part := kept[taken..taken + |round.first|];
    && fine == Fine(before.claims, round.first, round.second, demux, part)
    && next == Append(before, RouteAll(Routed(before.claims, [], []), round.first, demux, part))
  }

  /** DoRound with names for what it is to find and to leave. */
  method RoundAs(entries: array<Entry>, cap: nat, avail: seq<Datagram>, error: RecvError, round: Round, taken: nat,
                 demux: bool, inBatches: bool, before: Routed, ghost kept: seq<Datagram>, ghost fine: bool, ghost next: Routed)
    returns (status: Status, after: Routed, taken': nat, reported: bool)
    requires taken <= |avail| && Timed(round, RoundSize(|avail|, taken, entries.Length)) && kept == CutAll(avail, cap)
    requires Planned(round, taken, before, demux, kept, fine, next)
    modifies entries
    ensures status.Overrun? <==> inBatches && !fine
    ensures !status.Overrun? ==> taken' == taken + |round.first| <= |avail| && after == next
    ensures status.GoOn? ==> |round.first| == entries.Length > 0 && !reported
    ensures status.Stop? ==> EndedAt(taken, taken', |avail|, entries.Length, error.Fatal?, reported)
  {
    status, after, taken', reported :=
      DoRound(entries, cap, avail, error, round, taken, demux, inBatches, before, kept);
  }

  lemma PlanRound(rounds: seq<Round>, k: nat, r0: Routed, demux: bool, kept: seq<Datagram>)
    requires k < |rounds| && |Seen(rounds, k)| + |rounds[k].first| <= |kept| && |rounds[k].first| == |rounds[k].second|
    ensures |Seen(rounds, k + 1)| == |Seen(rounds, k)| + |rounds[k].first|
    ensures Planned(rounds[k], |Seen(rounds, k)|, AfterRounds(rounds, k, r0, demux, kept), demux, kept,
                    FineAt(rounds, k, r0, demux, kept), AfterRounds(rounds, k + 1, r0, demux, kept))
  {
  }

  predicate AllFine(rounds: seq<Round>, k: nat, r0: Routed, demux: bool, kept: seq<Datagram>)
    requires k <= |rounds|
  {
    forall j :: 0 <= j < k ==> FineAt(rounds, j, r0, demux, kept)
  }

  lemma EmptyFine(rounds: seq<Round>, k: nat, r0: Routed, demux: bool, kept: seq<Datagram>)
    requires k < |rounds| && rounds[k].first == []
    ensures FineAt(rounds, k, r0, demux, kept)
  {
  }

  lemma FineSnoc(rounds: seq<Round>, k: nat, r0: Routed, demux: bool, kept: seq<Datagram>)
    requires k < |rounds| && AllFine(rounds, k, r0, demux, kept) && FineAt(rounds, k, r0, demux, kept)
    ensures AllFine(rounds, k + 1, r0, demux, kept)
  {
  }

  /** A round that receives nothing is fine. */
  lemma RestFine(rounds: seq<Round>, n: nat, batch: nat, k: nat, r0: Routed, demux: bool, kept: seq<Datagram>)
    requires AllTimed(rounds, n, batch) && k <= MAX_ITERATIONS && AllFine(rounds, k, r0, demux, kept)
    requires n <= InBatches(batch, k) || batch == 0 || k == MAX_ITERATIONS
    ensures AllFine(rounds, MAX_ITERATIONS, r0, demux, kept)
  {
    forall j | k <= j < MAX_ITERATIONS ensures FineAt(rounds, j, r0, demux, kept) {
      if batch > 0 && k < j { InBatchesMonotone(batch, k, j); }
      assert rounds[j].first == [];
      EmptyFine(rounds, j, r0, demux, kept);
    }
  }

  /** Rounds that the loop does not get to receive nothing. */
  lemma {:induction false} NothingMoreSeen(rounds: seq<Round>, n: nat, batch: nat, k: nat, end: nat)
    requires AllTimed(rounds, n, batch) && k <= end <= MAX_ITERATIONS
    requires n <= InBatches(batch, k) || batch == 0 || k == MAX_ITERATIONS
    ensures Seen(rounds, end) == Seen(rounds, k)
    decreases end
  {
    if k < end {
      NothingMoreSeen(rounds, n, batch, k, end - 1);
      if batch > 0 && k < end - 1 { InBatchesMonotone(batch, k, end - 1); }
      assert rounds[end - 1].first == [];
    }
  }

  lemma MoreRouted(r0: Routed, seen: seq<set<Peer>>, first: seq<set<Peer>>, demux: bool,
                   kept: seq<Datagram>, taken: nat, n: nat)
    requires |seen| == taken && |first| == n && taken + n <= |kept|
    ensures var r := RouteAll(r0, seen, demux, kept[..taken]);
            var s := RouteAll(Routed(r.claims, [], []), first, demux, kept[taken..taken + n]);
            RouteAll(r0, seen + first, demux, kept[..taken + n]) == Append(r, s)
  {
    NextBatch(r0, seen, first, demux, kept[..taken], kept[taken..taken + n]);
    assert kept[..taken + n] == kept[..taken] + kept[taken..taken + n];
  }
}
