/** The write/close protocol of one TCP connection, as atomic steps.

A connection is shared by sender threads, by threads that call close, pause and
resume, and by the single loop thread. Every step below is one section under
`write_mutex_`, one dispatcher call, one socket call or one post to the loop, so
that a list of actions is an interleaving of all those threads.

The loop thread's position inside its current callback is `pc`. The closed
check that `enqueue_send`, `close_from_user`, `pause_from_user` and
`resume_from_user` make before their locked section may be stale by the time
that section runs, so those actions are enabled in every state.
*/
module ConnectionProtocol {

  type Bytes = seq<char>

  datatype Interest = Interest(read: bool, write: bool)

  /** Callbacks this connection has put on the event loop's post queue. */
  datatype Task = StartTask | RegisterTask | PauseTask | ResumeTask | CloseTask

  /** User callbacks handed to the connection's serial queue. */
  datatype Callback = OnData(data: Bytes) | OnClose

  datatype LoopPc =
    | Idle                             // waiting for an event or a posted task
    | Adding(interest: Interest)       // start task, between the lock and io().add
    | Modifying(interest: Interest)    // pause/resume task, between the lock and io().modify
    | Draining                         // about to take the lock in drain_write_queue
    | Sending                          // inside the send loop, no lock held

  datatype RecvResult = RecvData(data: Bytes) | RecvEof | RecvWouldBlock | RecvError
  datatype SendResult = SendOk(n: nat) | SendWouldBlock | SendFatal

  /** The write side: what `write_mutex_` guards, the unsent rest of the chunk the
      loop thread holds (`flight`), and a record of the bytes accepted from
      senders, given to the socket, and dropped by a fatal send. */
  datatype Output = Output(
    limit: nat, queue: seq<Bytes>, queueBytes: nat, flight: Bytes,
    wire: Bytes, lost: Bytes, accepted: Bytes, overlapped: bool)

  /** The read side and the close flag: bytes received, callbacks submitted, and
      how often the body of initiate_close has run. */
  datatype Input = Input(
    hasOnData: bool, hasOnClose: bool,
    closed: bool, closeRuns: nat, received: Bytes, submitted: seq<Callback>)

  datatype Conn = Conn(
    out: Output, inp: Input, registered: bool, paused: bool, startPosted: bool,
    tracked: bool, interest: Interest, posts: seq<Task>, pc: LoopPc)

  datatype Action =
    | StartReading
    | Enqueue(payload: Bytes)
    | CloseFromUser
    | PauseFromUser
    | ResumeFromUser
    | RunTask
    | ApplyInterest
    | IoEvent(error: bool, readable: bool, writable: bool, recv: RecvResult)
    | TakeChunk
    | Send(result: SendResult)

  function Init(limit: nat, hasOnData: bool, hasOnClose: bool): Conn {
    Conn(Output(limit, [], 0, [], [], [], [], false),
         Input(hasOnData, hasOnClose, false, 0, [], []),
         false, false, false, false, Interest(false, false), [], Idle)
  }

  function Flat(q: seq<Bytes>): Bytes {
    if q == [] then [] else q[0] + Flat(q[1..])
  }

  // ---- write side ----------------------------------------------------------

  predicate Accepts(o: Output, payload: Bytes) {
    payload != [] && o.queueBytes + |payload| <= o.limit
  }

  function PushBack(o: Output, payload: Bytes): Output {
    o.(queue := o.queue + [payload], queueBytes := o.queueBytes + |payload|,
       accepted := o.accepted + payload, overlapped := o.overlapped || o.flight != [])
  }

  function PopFront(o: Output): Output
    requires o.queue != [] && |o.queue[0]| <= o.queueBytes
  {
    o.(queue := o.queue[1..], queueBytes := o.queueBytes - |o.queue[0]|, flight := o.queue[0])
  }

  function Transmit(o: Output, n: nat): Output
    requires n <= |o.flight|
  {
    o.(flight := o.flight[n..], wire := o.wire + o.flight[..n])
  }

  function PushFront(o: Output): Output {
    o.(queue := [o.flight] + o.queue, queueBytes := o.queueBytes + |o.flight|, flight := [])
  }

  function Drop(o: Output): Output {
    o.(lost := o.flight, flight := [])
  }

  // ---- read side -----------------------------------------------------------

  function Closing(i: Input): Input {
    if i.closed then i
    else i.(closed := true, closeRuns := i.closeRuns + 1,
            submitted := if i.hasOnClose then i.submitted + [OnClose] else i.submitted)
  }

  function Receiving(i: Input, data: Bytes): Input {
    i.(received := i.received + data,
       submitted := if i.hasOnData then i.submitted + [OnData(data)] else i.submitted)
  }

  // ---- the steps -----------------------------------------------------------

  /** The dispatcher replaces the mask of a tracked socket. Of a socket that is not yet
      tracked, epoll and IOCP refuse it; kqueue registers its filters without a
      callback, and whatever filters the kernel then has beyond the recorded mask only
      add events (Kqueue.AnyCallsCovered). */
  function Modify(c: Conn, interest: Interest): Conn {
    if c.tracked then c.(interest := interest) else c
  }

  function Post(c: Conn, t: Task): Conn {
    c.(posts := c.posts + [t])
  }

  /** The locked section of enqueue_send. */
  function EnqueueSend(c: Conn, payload: Bytes): Conn {
    if !Accepts(c.out, payload) then c
    else
      var c1 := c.(out := PushBack(c.out, payload));
      if c.registered then c1 else Post(c1.(registered := true), RegisterTask)
  }

  function InitiateClose(c: Conn): Conn {
    c.(inp := Closing(c.inp), tracked := c.tracked && c.inp.closed)
  }

  /** The loop thread pops the next posted task and runs it up to its dispatcher call. */
  function RunPosted(c: Conn): Conn
    requires c.posts != []
  {
    var c1 := c.(posts := c.posts[1..]);
    match c.posts[0]
    case StartTask => c1.(pc := Adding(Interest(true, c.out.queue != [])))
    case RegisterTask => if c.inp.closed then c1 else Modify(c1, Interest(true, true))
    case PauseTask => if c.inp.closed then c1 else c1.(pc := Modifying(Interest(false, c.registered)))
    case ResumeTask => if c.inp.closed then c1 else c1.(pc := Modifying(Interest(true, c.registered)))
    case CloseTask => InitiateClose(c1)
  }

  /** The dispatcher call that ends a start, pause or resume task. */
  function FinishTask(c: Conn): Conn
    requires c.pc.Adding? || c.pc.Modifying?
  {
    var c1 := c.(pc := Idle);
    if c.pc.Modifying? then Modify(c1, c.pc.interest)
    else if c.inp.closed then c1
    else c1.(tracked := true, interest := c.pc.interest)
  }

  function OnIoEvent(c: Conn, error: bool, readable: bool, writable: bool, recv: RecvResult): Conn {
    if c.inp.closed then c
    else if error then InitiateClose(c)
    else if readable && recv.RecvWouldBlock? then c
    else if readable && (!recv.RecvData? || recv.data == []) then InitiateClose(c)
    else
      var c1 := if readable then c.(inp := Receiving(c.inp, recv.data)) else c;
      if writable then c1.(pc := Draining) else c1
  }

  /** The locked section at the top of drain_write_queue's loop. */
  function TakeFront(c: Conn): Conn {
    if c.out.queue == [] then
      Modify(c.(registered := false, pc := Idle), Interest(true, false))
    else if |c.out.queue[0]| <= c.out.queueBytes then
      c.(out := PopFront(c.out), pc := Sending)
    else c
  }

  /** One socket_.send call on the in-flight chunk and the code that handles its result. */
  function SendSome(c: Conn, r: SendResult): Conn {
    match r
    case SendOk(n) =>
      var o := Transmit(c.out, if n <= |c.out.flight| then n else |c.out.flight|);
      c.(out := o, pc := if o.flight == [] then Draining else Sending)
    case SendWouldBlock => c.(out := PushFront(c.out), pc := Idle)
    case SendFatal => InitiateClose(c.(out := Drop(c.out), pc := Idle))
  }

  /** Whether the loop thread is where it can take the step; other threads always can. */
  predicate Enabled(c: Conn, a: Action) {
    match a
    case RunTask => c.pc.Idle? && c.posts != []
    case ApplyInterest => c.pc.Adding? || c.pc.Modifying?
    case IoEvent(_, _, _, _) => c.pc.Idle? && c.tracked
    case TakeChunk => c.pc.Draining?
    case Send(_) => c.pc.Sending?
    case _ => true
  }

  function Take(c: Conn, a: Action): Conn
    requires Enabled(c, a)
  {
    match a
    case StartReading => if c.startPosted then c else Post(c.(startPosted := true), StartTask)
    case Enqueue(p) => EnqueueSend(c, p)
    case CloseFromUser => Post(c, CloseTask)
    case PauseFromUser => Post(c.(paused := true), PauseTask)
    case ResumeFromUser => Post(c.(paused := false), ResumeTask)
    case RunTask => RunPosted(c)
    case ApplyInterest => FinishTask(c)
    case IoEvent(e, r, w, recv) => OnIoEvent(c, e, r, w, recv)
    case TakeChunk => TakeFront(c)
    case Send(r) => SendSome(c, r)
  }

  /** An action that is not enabled leaves the connection unchanged. */
  function Step(c: Conn, a: Action): Conn {
    if Enabled(c, a) then Take(c, a) else c
  }

  /** The state after an interleaving. */
  function Exec(c: Conn, acts: seq<Action>): Conn {
    if acts == [] then c else Step(Exec(c, acts[..|acts| - 1]), acts[|acts| - 1])
  }

  // ---- the invariant -------------------------------------------------------

  /** Every accepted byte is on the wire, was dropped by a fatal send, is in
      flight, or is queued, in that order; the byte counter is exact. */
  ghost predicate Conserved(o: Output) {
    && o.accepted == o.wire + o.lost + o.flight + Flat(o.queue)
    && o.queueBytes == |Flat(o.queue)|
  }

  ghost predicate Bounded(o: Output) {
    && (forall i :: 0 <= i < |o.queue| ==> 0 < |o.queue[i]| <= o.limit)
    && (o.queue != [] ==> |Flat(o.queue[1..])| <= o.limit)
    && |o.flight| <= o.limit
    && (o.flight != [] ==> |Flat(o.queue)| <= o.limit)
    && (!o.overlapped ==> |o.flight| + |Flat(o.queue)| <= o.limit)
  }

  function DataOf(cs: seq<Callback>): Bytes {
    if cs == [] then []
    else DataOf(cs[..|cs| - 1]) + var last := cs[|cs| - 1]; if last.OnData? then last.data else []
  }

  /** Callbacks are submitted in the order data*, close?; the close body ran at most once. */
  ghost predicate Ordered(i: Input) {
    && i.closeRuns == (if i.closed then 1 else 0)
    && (forall k :: 0 <= k < |i.submitted| && i.submitted[k].OnClose? ==> i.closed && k == |i.submitted| - 1)
    && (i.closed && i.hasOnClose ==> i.submitted != [] && i.submitted[|i.submitted| - 1].OnClose?)
    && DataOf(i.submitted) == (if i.hasOnData then i.received else [])
  }

  /** Pending output always has a writable notification requested or on its way. */
  ghost predicate Watched(c: Conn) {
    && (c.out.queue != [] || c.pc.Sending? ==> c.registered)
    && (c.tracked && c.registered ==> c.interest.write || RegisterTask in c.posts)
    && ((c.pc.Adding? || c.pc.Modifying?) && !c.inp.closed && !c.pc.interest.write && c.registered ==>
          RegisterTask in c.posts)
    && (!c.tracked && !c.inp.closed ==> !c.pc.Draining? && !c.pc.Sending? && (c.registered ==> c.out.queue != []))
  }

  ghost predicate Placed(c: Conn) {
    && (c.pc.Sending? <==> c.out.flight != [])
    && (c.inp.closed ==> !c.tracked && !c.pc.Draining? && !c.pc.Sending?)
    && (c.out.lost != [] ==> c.inp.closed)
  }

  /** start_reading runs once per connection, so its task is posted and run at most once. */
  ghost predicate StartedOnce(c: Conn) {
    multiset(c.posts)[StartTask] + (if c.tracked || c.pc.Adding? then 1 else 0) <= if c.startPosted then 1 else 0
  }

  ghost predicate Inv(c: Conn) {
    Conserved(c.out) && Bounded(c.out) && Ordered(c.inp) && Placed(c) && StartedOnce(c) && Watched(c)
  }

  // ---- write side preservation ---------------------------------------------

  lemma {:induction false} FlatAppend(q: seq<Bytes>, x: Bytes)
    ensures Flat(q + [x]) == Flat(q) + x
  {
    if q == [] {
      assert Flat([x]) == x + Flat([x][1..]);
    } else {
      FlatAppend(q[1..], x);
      assert (q + [x])[1..] == q[1..] + [x];
    }
  }

  lemma FlatCons(x: Bytes, q: seq<Bytes>)
    ensures Flat([x] + q) == x + Flat(q)
  {
    assert ([x] + q)[1..] == q;
  }

  lemma PushBackKeeps(o: Output, p: Bytes)
    requires Conserved(o) && Bounded(o) && Accepts(o, p)
    ensures Conserved(PushBack(o, p)) && Bounded(PushBack(o, p))
  {
    var o' := PushBack(o, p);
    FlatAppend(o.queue, p);
    assert |Flat(o'.queue)| <= o.limit;
    assert Flat(o'.queue) == o'.queue[0] + Flat(o'.queue[1..]);
    var front := o.wire + o.lost + o.flight;
    assert front + Flat(o.queue) + p == front + (Flat(o.queue) + p);
  }

  lemma PopFrontKeeps(o: Output)
    requires Conserved(o) && Bounded(o) && o.queue != [] && o.flight == []
    ensures |o.queue[0]| <= o.queueBytes
    ensures Conserved(PopFront(o)) && Bounded(PopFront(o))
  {
    var front, tail := o.wire + o.lost, Flat(o.queue[1..]);
    assert Flat(o.queue) == o.queue[0] + tail;
    assert front + [] + (o.queue[0] + tail) == front + o.queue[0] + tail;
    if o.queue[1..] != [] {
      assert tail == o.queue[1..][0] + Flat(o.queue[1..][1..]);
    }
  }

  lemma TransmitKeeps(o: Output, n: nat)
    requires Conserved(o) && Bounded(o) && n <= |o.flight| && o.lost == []
    ensures Conserved(Transmit(o, n)) && Bounded(Transmit(o, n))
  {
    assert o.flight == o.flight[..n] + o.flight[n..];
    assert o.wire + [] + (o.flight[..n] + o.flight[n..]) == (o.wire + o.flight[..n]) + [] + o.flight[n..];
  }

  lemma PushFrontKeeps(o: Output)
    requires Conserved(o) && Bounded(o) && o.flight != []
    ensures Conserved(PushFront(o)) && Bounded(PushFront(o))
  {
    FlatCons(o.flight, o.queue);
    var front, tail := o.wire + o.lost, Flat(o.queue);
    assert front + o.flight + tail == front + [] + (o.flight + tail);
    assert ([o.flight] + o.queue)[1..] == o.queue;
  }

  lemma DropKeeps(o: Output)
    requires Conserved(o) && Bounded(o) && o.lost == []
    ensures Conserved(Drop(o)) && Bounded(Drop(o))
  {
    assert o.wire + [] + o.flight == o.wire + o.flight + [];
  }

  /** Only three actions change the write side. */
  lemma OutputFrame(c: Conn, a: Action)
    requires !a.Enqueue? && !a.TakeChunk? && !a.Send?
    ensures Step(c, a).out == c.out
  {
  }

  lemma StepKeepsOutput(c: Conn, a: Action)
    requires Conserved(c.out) && Bounded(c.out) && Placed(c)
    ensures Conserved(Step(c, a).out) && Bounded(Step(c, a).out)
  {
    match a
    case Enqueue(p) =>
      if Accepts(c.out, p) {
        PushBackKeeps(c.out, p);
        assert Step(c, a).out == PushBack(c.out, p);
      }
    case TakeChunk =>
      if c.pc.Draining? && c.out.queue != [] {
        PopFrontKeeps(c.out);
        assert Step(c, a).out == PopFront(c.out);
      }
    case Send(r) => SendKeepsOutput(c, r);
    case _ => OutputFrame(c, a);
  }

  lemma SendKeepsOutput(c: Conn, r: SendResult)
    requires Conserved(c.out) && Bounded(c.out) && Placed(c)
    ensures Conserved(Step(c, Send(r)).out) && Bounded(Step(c, Send(r)).out)
  {
    if c.pc.Sending? {
      match r
      case SendOk(n) => TransmitKeeps(c.out, if n <= |c.out.flight| then n else |c.out.flight|);
      case SendWouldBlock => PushFrontKeeps(c.out);
      case SendFatal => DropKeeps(c.out);
    }
  }

  // ---- read side preservation ----------------------------------------------

  lemma DataOfAppend(cs: seq<Callback>, x: Callback)
    ensures DataOf(cs + [x]) == DataOf(cs) + if x.OnData? then x.data else []
  {
    assert (cs + [x])[..|cs|] == cs;
  }

  lemma ClosingKeeps(i: Input)
    requires Ordered(i)
    ensures Ordered(Closing(i))
  {
    DataOfAppend(i.submitted, OnClose);
  }

  lemma ReceivingKeeps(i: Input, data: Bytes)
    requires Ordered(i) && !i.closed
    ensures Ordered(Receiving(i, data))
  {
    DataOfAppend(i.submitted, OnData(data));
  }

  lemma RunInput(c: Conn)
    requires c.posts != []
    ensures RunPosted(c).inp == c.inp || RunPosted(c).inp == Closing(c.inp)
  {
  }

  lemma LoopInput(c: Conn, a: Action)
    requires a.ApplyInterest? || a.TakeChunk? || a.Send?
    ensures Step(c, a).inp == c.inp || Step(c, a).inp == Closing(c.inp)
  {
  }

  /** Apart from a receive, a step either leaves the read side alone or closes. */
  lemma InputFrame(c: Conn, a: Action)
    requires !a.IoEvent?
    ensures Step(c, a).inp == c.inp || Step(c, a).inp == Closing(c.inp)
  {
    match a
    case RunTask => if c.posts != [] { RunInput(c); }
    case ApplyInterest => LoopInput(c, a);
    case TakeChunk => LoopInput(c, a);
    case Send(_) => LoopInput(c, a);
    case _ =>
  }

  /** Whether the event makes the connection receive `a.recv`. */
  predicate Receives(c: Conn, a: Action) {
    && a.IoEvent? && c.pc.Idle? && c.tracked && !c.inp.closed
    && !a.error && a.readable && a.recv.RecvData? && a.recv.data != []
  }

  lemma InputEffect(c: Conn, a: Action)
    ensures if Receives(c, a) then Step(c, a).inp == Receiving(c.inp, a.recv.data)
            else Step(c, a).inp == c.inp || Step(c, a).inp == Closing(c.inp)
  {
    if !a.IoEvent? { InputFrame(c, a); }
  }

  lemma StepKeepsInput(c: Conn, a: Action)
    requires Ordered(c.inp)
    ensures Ordered(Step(c, a).inp)
  {
    InputEffect(c, a);
    ClosingKeeps(c.inp);
    if Receives(c, a) { ReceivingKeeps(c.inp, a.recv.data); }
  }

  // ---- interest preservation -----------------------------------------------

  lemma StepKeepsPlace(c: Conn, a: Action)
    requires Conserved(c.out) && Bounded(c.out) && Placed(c)
    ensures Placed(Step(c, a))
  {
    match a
    case TakeChunk => if c.pc.Draining? && c.out.queue != [] { PopFrontKeeps(c.out); }
    case Enqueue(_) =>
    case Send(r) => SendKeepsPlace(c, r);
    case _ => FrameKeepsPlace(c, a);
  }

  lemma SendKeepsPlace(c: Conn, r: SendResult)
    requires Placed(c)
    ensures Placed(Step(c, Send(r)))
  {
  }

  lemma RunKeepsPlace(c: Conn)
    requires Placed(c) && c.pc.Idle? && c.posts != []
    ensures Placed(RunPosted(c))
  {
  }

  lemma FrameKeepsPlace(c: Conn, a: Action)
    requires Placed(c) && !a.Enqueue? && !a.TakeChunk? && !a.Send?
    ensures Placed(Step(c, a))
  {
    match a
    case RunTask => if c.pc.Idle? && c.posts != [] { RunKeepsPlace(c); }
    case _ =>
  }

  lemma StepKeepsStart(c: Conn, a: Action)
    requires StartedOnce(c) && Placed(c)
    ensures StartedOnce(Step(c, a))
  {
    match a
    case RunTask => if c.posts != [] { RunTaskKeepsStart(c); }
    case IoEvent(_, _, _, _) =>
    case Send(_) =>
    case TakeChunk =>
    case ApplyInterest =>
    case _ => PostKeepsStart(c, a);
  }

  lemma RunTaskKeepsStart(c: Conn)
    requires StartedOnce(c) && Placed(c) && c.posts != []
    ensures StartedOnce(RunPosted(c))
    ensures c.posts[0] == StartTask ==> !c.tracked
  {
    PopStart(c.posts);
  }

  lemma PopStart(posts: seq<Task>)
    requires posts != []
    ensures multiset(posts)[StartTask] == multiset(posts[1..])[StartTask] + if posts[0] == StartTask then 1 else 0
  {
    assert posts == [posts[0]] + posts[1..];
  }

  lemma PostKeepsStart(c: Conn, a: Action)
    requires StartedOnce(c) && !a.RunTask? && !a.IoEvent? && !a.Send? && !a.TakeChunk? && !a.ApplyInterest?
    ensures StartedOnce(Step(c, a))
  {
    forall t ensures multiset(c.posts + [t]) == multiset(c.posts) + multiset{t} {}
  }

  lemma StepKeepsWatch(c: Conn, a: Action)
    requires Inv(c)
    ensures Watched(Step(c, a))
  {
    match a
    case Enqueue(p) => EnqueueKeepsWatch(c, p);
    case RunTask => RunTaskKeepsWatch(c);
    case TakeChunk => TakeKeepsWatch(c);
    case Send(r) => SendKeepsWatch(c, r);
    case IoEvent(_, _, _, _) => EventKeepsWatch(c, a);
    case ApplyInterest => ApplyKeepsWatch(c);
    case _ => PostKeepsWatch(c, a);
  }

  lemma TakeKeepsWatch(c: Conn)
    requires Watched(c) && Placed(c) && Conserved(c.out) && Bounded(c.out)
    ensures Watched(Step(c, TakeChunk))
  {
    if c.pc.Draining? && c.out.queue != [] { PopFrontKeeps(c.out); }
  }

  lemma SendKeepsWatch(c: Conn, r: SendResult)
    requires Watched(c) && Placed(c)
    ensures Watched(Step(c, Send(r)))
  {
  }

  lemma EventKeepsWatch(c: Conn, a: Action)
    requires Watched(c) && Placed(c) && a.IoEvent?
    ensures Watched(Step(c, a))
  {
  }

  lemma ApplyKeepsWatch(c: Conn)
    requires Watched(c) && Placed(c) && StartedOnce(c)
    ensures Watched(Step(c, ApplyInterest))
  {
  }

  lemma PostKeepsWatch(c: Conn, a: Action)
    requires Watched(c) && (a.StartReading? || a.CloseFromUser? || a.PauseFromUser? || a.ResumeFromUser?)
    ensures Watched(Step(c, a))
  {
  }

  lemma EnqueueKeepsWatch(c: Conn, p: Bytes)
    requires Watched(c)
    ensures Watched(Step(c, Enqueue(p)))
  {
  }

  lemma RegisterKeepsWatch(c: Conn)
    requires Watched(c) && Placed(c) && c.pc.Idle? && c.posts != [] && c.posts[0] == RegisterTask
    ensures Watched(RunPosted(c))
  {
  }

  /** Of the other tasks the register task is not the one that is popped. */
  lemma OtherTaskKeepsWatch(c: Conn)
    requires Watched(c) && Placed(c) && StartedOnce(c) && c.pc.Idle? && c.posts != [] && c.posts[0] != RegisterTask
    ensures Watched(RunPosted(c))
  {
    RunTaskKeepsStart(c);
    assert c.posts == [c.posts[0]] + c.posts[1..];
    assert RegisterTask in c.posts ==> RegisterTask in c.posts[1..];
  }

  lemma RunTaskKeepsWatch(c: Conn)
    requires Watched(c) && Placed(c) && StartedOnce(c)
    ensures Watched(Step(c, RunTask))
  {
    if c.pc.Idle? && c.posts != [] {
      if c.posts[0] == RegisterTask { RegisterKeepsWatch(c); } else { OtherTaskKeepsWatch(c); }
    }
  }

  lemma StepInv(c: Conn, a: Action)
    requires Inv(c)
    ensures Inv(Step(c, a))
  {
    StepKeepsOutput(c, a);
    StepKeepsInput(c, a);
    StepKeepsPlace(c, a);
    StepKeepsStart(c, a);
    StepKeepsWatch(c, a);
  }

  /** Every interleaving from an Inv state ends in an Inv state. */
  lemma {:induction false} ExecInv(c: Conn, acts: seq<Action>)
    requires Inv(c)
    ensures Inv(Exec(c, acts))
  {
    if acts != [] {
      ExecInv(c, acts[..|acts| - 1]);
      StepInv(Exec(c, acts[..|acts| - 1]), acts[|acts| - 1]);
    }
  }
}
