/** What the write/close protocol guarantees on every interleaving. */
module ConnectionTheorems {
  import opened ConnectionProtocol

  /** The payloads of the sends in `acts` that were not empty and, with what was queued
      at that moment, within the limit, concatenated in lock order. */
  function AcceptedBytes(c: Conn, acts: seq<Action>): Bytes {
    if acts == [] then []
    else
      var before, last := acts[..|acts| - 1], acts[|acts| - 1];
      AcceptedBytes(c, before) +
      if last.Enqueue? && Fits(Exec(c, before), c.out.limit, last.payload) then last.payload else []
  }

  /** Not empty, and within the limit together with the bytes queued now. */
  predicate Fits(s: Conn, limit: nat, payload: Bytes) {
    0 < |payload| <= limit - |Flat(s.out.queue)|
  }

  /** The bytes recv returned during `acts`, concatenated in order. */
  function ReceivedBytes(c: Conn, acts: seq<Action>): Bytes {
    if acts == [] then []
    else
      var before, last := acts[..|acts| - 1], acts[|acts| - 1];
      ReceivedBytes(c, before) + if Receives(Exec(c, before), last) then last.recv.data else []
  }

  lemma InitInv(limit: nat, d: bool, cl: bool)
    ensures Inv(Init(limit, d, cl))
  {
  }

  lemma StepAccepted(c: Conn, a: Action)
    requires Conserved(c.out)
    ensures Step(c, a).out.accepted ==
            c.out.accepted + if a.Enqueue? && Fits(c, c.out.limit, a.payload) then a.payload else []
  {
    if !a.Enqueue? && !a.TakeChunk? && !a.Send? { OutputFrame(c, a); }
  }

  lemma {:induction false} ExecAccepted(c: Conn, acts: seq<Action>)
    requires Inv(c) && c.out.accepted == []
    ensures Exec(c, acts).out.accepted == AcceptedBytes(c, acts)
  {
    if acts != [] {
      ExecAccepted(c, acts[..|acts| - 1]);
      ExecInv(c, acts[..|acts| - 1]);
      LimitFixed(c, acts[..|acts| - 1]);
      StepAccepted(Exec(c, acts[..|acts| - 1]), acts[|acts| - 1]);
    }
  }

  lemma ConservedShape(o: Output)
    requires Conserved(o)
    ensures o.wire <= o.accepted
    ensures o.lost == [] ==> o.wire + o.flight + Flat(o.queue) == o.accepted
  {
    var tail := Flat(o.queue);
    assert o.wire + o.lost + o.flight + tail == o.wire + (o.lost + o.flight + tail);
    assert o.wire + [] == o.wire;
  }

  /** Byte-stream conservation. In every interleaving of senders with the drain
      loop and for every pattern of partial, blocked and failed sends, the bytes
      given to the socket, the rest of the in-flight chunk and the queue make up
      the accepted payloads in lock order; only a fatal send drops anything, it
      closes the connection, and the wire then stays a prefix. */
  lemma ByteStreamConserved(limit: nat, d: bool, cl: bool, acts: seq<Action>)
    ensures var s := Exec(Init(limit, d, cl), acts);
            var sent := AcceptedBytes(Init(limit, d, cl), acts);
            && s.out.wire <= sent
            && sent == s.out.wire + s.out.lost + s.out.flight + Flat(s.out.queue)
            && (s.out.lost != [] ==> s.inp.closed)
            && (!s.inp.closed ==> s.out.wire + s.out.flight + Flat(s.out.queue) == sent)
  {
    var c := Init(limit, d, cl);
    ExecInv(c, acts);
    ExecAccepted(c, acts);
    ConservedShape(Exec(c, acts).out);
  }

  /** No stranded output. Queued or in-flight bytes imply `write_registered_`,
      and on an open, started connection they imply that the dispatcher watches
      for writability or that a register_writable task is still posted. */
  lemma NoStrandedOutput(limit: nat, d: bool, cl: bool, acts: seq<Action>)
    ensures var s := Exec(Init(limit, d, cl), acts);
            s.out.queue != [] || s.out.flight != [] ==>
              && s.registered
              && (s.tracked ==> s.interest.write || RegisterTask in s.posts)
  {
    ExecInv(Init(limit, d, cl), acts);
  }

  /** The backpressure bound. The counter is exact, no queued chunk is empty,
      all chunks but the first total at most the limit, and the whole is at most
      twice the limit; it exceeds the limit only after a send was accepted while
      a chunk was in flight. */
  lemma BackpressureBound(limit: nat, d: bool, cl: bool, acts: seq<Action>)
    ensures var o := Exec(Init(limit, d, cl), acts).out;
            && o.queueBytes == |Flat(o.queue)|
            && (forall i :: 0 <= i < |o.queue| ==> o.queue[i] != [])
            && (o.queue != [] ==> |Flat(o.queue[1..])| <= limit)
            && o.queueBytes <= 2 * limit
            && (o.queueBytes > limit ==> o.overlapped)
  {
    var c := Init(limit, d, cl);
    ExecInv(c, acts);
    LimitFixed(c, acts);
  }

  lemma StepLimitFixed(c: Conn, a: Action)
    ensures Step(c, a).out.limit == c.out.limit
    ensures Step(c, a).inp.hasOnData == c.inp.hasOnData && Step(c, a).inp.hasOnClose == c.inp.hasOnClose
    ensures OnClose in Step(c, a).inp.submitted ==> OnClose in c.inp.submitted || c.inp.hasOnClose
  {
    InputEffect(c, a);
    if !a.Enqueue? && !a.TakeChunk? && !a.Send? { OutputFrame(c, a); }
  }

  lemma {:induction false} LimitFixed(c: Conn, acts: seq<Action>)
    ensures Exec(c, acts).out.limit == c.out.limit
    ensures Exec(c, acts).inp.hasOnData == c.inp.hasOnData
    ensures Exec(c, acts).inp.hasOnClose == c.inp.hasOnClose
  {
    if acts != [] {
      LimitFixed(c, acts[..|acts| - 1]);
      StepLimitFixed(Exec(c, acts[..|acts| - 1]), acts[|acts| - 1]);
    }
  }

  // ---- runs, step by step ----------------------------------------------------

  lemma ExecOne(c: Conn, a: Action)
    ensures Exec(c, [a]) == Step(c, a)
  {
    assert [a][..0] == [];
  }

  lemma {:induction false} ExecConcat(c: Conn, a: seq<Action>, b: seq<Action>)
    ensures Exec(c, a + b) == Exec(Exec(c, a), b)
  {
    if b == [] {
      assert a + b == a;
    } else {
      assert (a + b)[..|a + b| - 1] == a + b[..|b| - 1];
      ExecConcat(c, a, b[..|b| - 1]);
    }
  }

  lemma ExecFirst(c: Conn, a: Action, rest: seq<Action>)
    ensures Exec(c, [a] + rest) == Exec(Step(c, a), rest)
  {
    ExecOne(c, a);
    ExecConcat(c, [a], rest);
  }

  lemma ExecThree(c: Conn, a: Action, b: Action, d: Action)
    ensures Exec(c, [a, b, d]) == Step(Step(Step(c, a), b), d)
  {
    ExecFirst(c, a, [b, d]);
    ExecFirst(Step(c, a), b, [d]);
    ExecOne(Step(Step(c, a), b), d);
    assert [a, b, d] == [a] + [b, d] && [b, d] == [b] + [d];
  }

  /** The run that fills the queue to twice its limit: a full queue is taken in
      flight, the queue is refilled, and the taken chunk comes back unsent. */
  const StartUp: seq<Action> := [StartReading, RunTask, ApplyInterest]

  function TakeAll(payload: Bytes): seq<Action> {
    [Enqueue(payload), IoEvent(false, false, true, RecvEof), TakeChunk]
  }

  function Refill(payload: Bytes): seq<Action> {
    StartUp + TakeAll(payload) + [Enqueue(payload), Send(SendWouldBlock)]
  }

  lemma StartUpState(c: Conn)
    requires !c.startPosted && !c.inp.closed && c.posts == [] && c.pc.Idle?
    ensures var s := Exec(c, StartUp);
            s.tracked && s.pc.Idle? && s.out == c.out && s.inp == c.inp
  {
    ExecThree(c, StartReading, RunTask, ApplyInterest);
    var c2 := Step(Step(c, StartReading), RunTask);
    assert c2.pc.Adding? && c2.out == c.out && c2.inp == c.inp;
  }

  lemma TakeAllState(c: Conn, payload: Bytes)
    requires c.tracked && c.pc.Idle? && !c.inp.closed
    requires c.out.queue == [] && c.out.queueBytes == 0 && 0 < |payload| <= c.out.limit
    ensures var s := Exec(c, TakeAll(payload));
            && s.pc.Sending? && s.out.flight == payload && s.out.queue == [] && s.out.queueBytes == 0
            && s.out.limit == c.out.limit
  {
    var acts := TakeAll(payload);
    ExecThree(c, acts[0], acts[1], acts[2]);
    var c1 := Step(c, acts[0]);
    assert c1.out.queue == [payload] && c1.out.queueBytes == |payload| && c1.pc.Idle? && c1.tracked && !c1.inp.closed;
    assert Step(c1, acts[1]) == c1.(pc := Draining);
  }

  /** The factor two is reached for every positive limit, so the configured limit
      alone does not bound the queue. */
  lemma BackpressureTight(limit: nat, d: bool, cl: bool, payload: Bytes)
    requires limit > 0 && |payload| == limit
    ensures Exec(Init(limit, d, cl), Refill(payload)).out.queueBytes == 2 * limit
  {
    var c := Init(limit, d, cl);
    StartUpState(c);
    TakeAllState(Exec(c, StartUp), payload);
    var s := Exec(Exec(c, StartUp), TakeAll(payload));
    ExecConcat(c, StartUp, TakeAll(payload));
    ExecConcat(c, StartUp + TakeAll(payload), [Enqueue(payload), Send(SendWouldBlock)]);
    RefillState(s, payload);
  }

  lemma RefillState(c: Conn, payload: Bytes)
    requires c.pc.Sending? && c.out.queue == [] && c.out.queueBytes == 0
    requires c.out.flight == payload && 0 < |payload| <= c.out.limit
    ensures Exec(c, [Enqueue(payload), Send(SendWouldBlock)]).out.queueBytes == 2 * |payload|
  {
    ExecFirst(c, Enqueue(payload), [Send(SendWouldBlock)]);
    ExecOne(Step(c, Enqueue(payload)), Send(SendWouldBlock));
    assert [Enqueue(payload), Send(SendWouldBlock)] == [Enqueue(payload)] + [Send(SendWouldBlock)];
  }

  // ---- flushing ----------------------------------------------------------------

  /** A drain in which the socket accepts everything. */
  function FullDrain(q: seq<Bytes>): seq<Action> {
    if q == [] then [TakeChunk] else [TakeChunk, Send(SendOk(|q[0]|))] + FullDrain(q[1..])
  }

  lemma TakeFrontStep(c: Conn)
    requires Inv(c) && c.pc.Draining? && c.out.queue != []
    ensures var s := Step(c, TakeChunk);
            && s.pc.Sending? && s.out.flight == c.out.queue[0] && s.out.queue == c.out.queue[1..]
            && s.out.accepted == c.out.accepted
  {
    PopFrontKeeps(c.out);
  }

  lemma SendAllStep(c: Conn, n: nat)
    requires c.pc.Sending? && n == |c.out.flight|
    ensures var s := Step(c, Send(SendOk(n)));
            s.pc.Draining? && s.out.queue == c.out.queue && s.out.accepted == c.out.accepted
  {
  }

  /** Taking and fully sending the front chunk. */
  lemma SendFront(c: Conn) returns (c2: Conn)
    requires Inv(c) && c.pc.Draining? && c.out.queue != []
    ensures c2 == Exec(c, [TakeChunk, Send(SendOk(|c.out.queue[0]|))])
    ensures Inv(c2) && c2.pc.Draining? && c2.out.queue == c.out.queue[1..] && c2.out.accepted == c.out.accepted
  {
    var a := Send(SendOk(|c.out.queue[0]|));
    ExecInv(c, [TakeChunk, a]);
    ExecPairOf(c, TakeChunk, a);
    c2 := Exec(c, [TakeChunk, a]);
    TakeFrontStep(c);
    SendAllStep(Step(c, TakeChunk), |c.out.queue[0]|);
  }

  lemma ExecPairOf(c: Conn, a: Action, b: Action)
    ensures Exec(c, [a, b]) == Step(Step(c, a), b)
  {
    ExecFirst(c, a, [b]);
    ExecOne(Step(c, a), b);
    assert [a, b] == [a] + [b];
  }

  lemma {:induction false} FullDrainFlushes(c: Conn)
    requires Inv(c) && c.pc.Draining?
    ensures var s := Exec(c, FullDrain(c.out.queue));
            && s.out.wire == c.out.accepted && s.out.accepted == c.out.accepted
            && s.out.queue == [] && s.pc.Idle? && !s.registered
    decreases |c.out.queue|
  {
    var q := c.out.queue;
    if q == [] {
      ExecOne(c, TakeChunk);
      ConservedShape(c.out);
      assert c.out.wire + [] + [] == c.out.wire;
    } else {
      var c2 := SendFront(c);
      FullDrainFlushes(c2);
      ExecConcat(c, [TakeChunk, Send(SendOk(|q[0]|))], FullDrain(q[1..]));
    }
  }

  lemma EventFlushes(s: Conn)
    requires Inv(s) && s.pc.Idle? && s.tracked
    ensures var w := [IoEvent(false, false, true, RecvWouldBlock)];
            Exec(s, w + FullDrain(s.out.queue)).out.wire == s.out.accepted
  {
    var e := IoEvent(false, false, true, RecvWouldBlock);
    StepInv(s, e);
    ExecOne(s, e);
    ExecConcat(s, [e], FullDrain(s.out.queue));
    FullDrainFlushes(Step(s, e));
  }

  /** Whenever the loop is quiet with output pending on a started connection, the
      dispatcher is watching for writability, and one writable event followed by
      a socket that accepts everything puts every accepted byte on the wire. */
  lemma QuietStateFlushes(limit: nat, d: bool, cl: bool, acts: seq<Action>)
    ensures var s := Exec(Init(limit, d, cl), acts);
            s.pc.Idle? && s.posts == [] && s.tracked && s.out.queue != [] ==>
              && s.interest.write
              && var w := [IoEvent(false, false, true, RecvWouldBlock)];
                 Exec(s, w + FullDrain(s.out.queue)).out.wire == AcceptedBytes(Init(limit, d, cl), acts)
  {
    var c := Init(limit, d, cl);
    var s := Exec(c, acts);
    ExecInv(c, acts);
    if s.pc.Idle? && s.posts == [] && s.tracked && s.out.queue != [] {
      EventFlushes(s);
      ExecAccepted(c, acts);
    }
  }

  // ---- close and callback order ------------------------------------------------

  lemma {:induction false} ExecReceived(c: Conn, acts: seq<Action>)
    requires c.inp.received == []
    ensures Exec(c, acts).inp.received == ReceivedBytes(c, acts)
  {
    if acts != [] {
      ExecReceived(c, acts[..|acts| - 1]);
      InputEffect(Exec(c, acts[..|acts| - 1]), acts[|acts| - 1]);
    }
  }

  /** The close body runs at most once, and the callbacks handed to the serial
      queue are the received bytes in order, then at most one on_close. */
  lemma CallbackOrder(limit: nat, d: bool, cl: bool, acts: seq<Action>)
    ensures var c := Init(limit, d, cl);
            var s := Exec(c, acts).inp;
            && s.closeRuns <= 1
            && (forall k :: 0 <= k < |s.submitted| && s.submitted[k].OnClose? ==> k == |s.submitted| - 1)
            && DataOf(s.submitted) == (if d then ReceivedBytes(c, acts) else [])
            && (cl && s.closed <==> OnClose in s.submitted)
  {
    var c := Init(limit, d, cl);
    ExecInv(c, acts);
    ExecReceived(c, acts);
    LimitFixed(c, acts);
    CloseNeedsHandler(c, acts);
  }

  lemma {:induction false} CloseNeedsHandler(c: Conn, acts: seq<Action>)
    requires OnClose !in c.inp.submitted
    ensures OnClose in Exec(c, acts).inp.submitted ==> c.inp.hasOnClose
  {
    if acts != [] {
      CloseNeedsHandler(c, acts[..|acts| - 1]);
      LimitFixed(c, acts[..|acts| - 1]);
      StepLimitFixed(Exec(c, acts[..|acts| - 1]), acts[|acts| - 1]);
    }
  }

  lemma ClosedStep(c: Conn, a: Action)
    requires Placed(c) && c.inp.closed
    ensures var s := Step(c, a); s.inp == c.inp && s.out.wire == c.out.wire && !s.tracked
  {
    InputEffect(c, a);
    if !a.Enqueue? && !a.TakeChunk? && !a.Send? { OutputFrame(c, a); }
  }

  /** Once closed, no continuation submits a callback, receives or sends a byte. */
  lemma {:induction false} ClosedIsFinal(c: Conn, acts: seq<Action>)
    requires Inv(c) && c.inp.closed
    ensures var s := Exec(c, acts);
            s.inp == c.inp && s.out.wire == c.out.wire && !s.tracked
  {
    if acts != [] {
      ClosedIsFinal(c, acts[..|acts| - 1]);
      ExecInv(c, acts[..|acts| - 1]);
      ClosedStep(Exec(c, acts[..|acts| - 1]), acts[|acts| - 1]);
    }
  }
}
