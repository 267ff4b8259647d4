/** The event loop: its double-buffered post queue, its wake token, and the
stop handshake, as atomic steps.

The loop thread's position in run() is `pc`. A thread that posts or stops first
changes the queue or the flag and then wakes the dispatcher; `wakes` counts the
threads between those two moments. `token` says the dispatcher's waker is
signalled, which keeps poll() from blocking until the token is consumed.
*/
module LoopProtocol {

  /** A posted callback; StopLoop is the callback that calls stop() on the loop. */
  datatype Task = Call(id: nat) | StopLoop

  datatype Pc =
    | NotStarted   // before run()
    | Resetting    // running_ set, stop flag about to be cleared
    | AtHead       // about to test the stop flag
    | Swapping     // in drain_posts, about to swap the buffers
    | Running      // in drain_posts, about to call the next callback or to clear
    | Polling      // in poll, before it returns
    | Woken        // poll has events to process
    | Left         // run() has returned

  /** `posted` and `ran` record the callbacks in order, `postedAt` the number of
      swaps before each was posted, `ranAt` the number of the drain that ran it. */
  datatype Loop = Loop(
    bufA: seq<Task>, bufB: seq<Task>, activeIsA: bool, next: nat,
    pc: Pc, stop: bool, token: bool, wakes: nat, swaps: nat,
    posted: seq<Task>, postedAt: seq<nat>, ran: seq<Task>, ranAt: seq<nat>)

  datatype Action =
    | Start
    | Reset
    | TestStop
    | Swap
    | RunNext
    | PollReturns
    | Process(consume: bool)
    | PollFails
    | Post(task: Task)          // another thread: push under the spinlock
    | PostOnLoop(task: Task)    // a callback on the loop thread: push and wake
    | RequestStop               // another thread: store the flag
    | Wake                      // a thread that has pushed or stored wakes the dispatcher
    | IoReady                   // poll wakes up for a socket or a timer

  function Init(): Loop {
    Loop([], [], true, 0, NotStarted, false, false, 0, 0, [], [], [], [])
  }

  function Active(l: Loop): seq<Task> {
    if l.activeIsA then l.bufA else l.bufB
  }

  function DrainBuf(l: Loop): seq<Task> {
    if l.activeIsA then l.bufB else l.bufA
  }

  /** The callbacks posted and not yet run, oldest first. */
  function Pending(l: Loop): seq<Task> {
    (if l.next <= |DrainBuf(l)| then DrainBuf(l)[l.next..] else []) + Active(l)
  }

  function Push(l: Loop, t: Task): Loop {
    var l1 := l.(posted := l.posted + [t], postedAt := l.postedAt + [l.swaps]);
    if l.activeIsA then l1.(bufA := l.bufA + [t]) else l1.(bufB := l.bufB + [t])
  }

  function ClearDrain(l: Loop): Loop {
    if l.activeIsA then l.(bufB := [], next := 0) else l.(bufA := [], next := 0)
  }

  /** Calls the next callback of the drain buffer, or clears the buffer after the last. */
  function RunOne(l: Loop): Loop {
    if l.next < |DrainBuf(l)| then
      var t := DrainBuf(l)[l.next];
      var l1 := l.(next := l.next + 1, ran := l.ran + [t], ranAt := l.ranAt + [l.swaps]);
      if t.StopLoop? then l1.(stop := true, token := true) else l1
    else ClearDrain(l).(pc := Polling)
  }

  /** Whether an action of the loop thread can be taken. */
  predicate Enabled(l: Loop, a: Action) {
    match a
    case Start => l.pc.NotStarted?
    case Reset => l.pc.Resetting?
    case TestStop => l.pc.AtHead?
    case Swap => l.pc.Swapping?
    case RunNext => l.pc.Running?
    case PollReturns => l.pc.Polling? && l.token
    case IoReady => l.pc.Polling?
    case Process(_) => l.pc.Woken?
    case PollFails => l.pc.Polling?
    case PostOnLoop(_) => l.pc.Running? || l.pc.Woken?
    case Wake => l.wakes > 0
    case _ => true
  }

  function Take(l: Loop, a: Action): Loop
    requires Enabled(l, a)
  {
    match a
    case Start => l.(pc := Resetting)
    case Reset => l.(pc := AtHead, stop := false)
    case TestStop => l.(pc := if l.stop then Left else Swapping)
    case Swap => l.(activeIsA := !l.activeIsA, next := 0, swaps := l.swaps + 1, pc := Running)
    case RunNext => RunOne(l)
    case PollReturns => l.(pc := Woken)
    case IoReady => l.(pc := Woken)
    case Process(consume) => l.(pc := AtHead, token := l.token && !consume)
    case PollFails => l.(pc := Left)
    case Post(t) => Push(l, t).(wakes := l.wakes + 1)
    case PostOnLoop(t) => Push(l, t).(token := true)
    case RequestStop => l.(stop := true, wakes := l.wakes + 1)
    case Wake => l.(wakes := l.wakes - 1, token := true)
  }

  function Step(l: Loop, a: Action): Loop {
    if Enabled(l, a) then Take(l, a) else l
  }

  function Exec(l: Loop, acts: seq<Action>): Loop {
    if acts == [] then l else Step(Exec(l, acts[..|acts| - 1]), acts[|acts| - 1])
  }

  // ---- the invariant -------------------------------------------------------

  /** The two buffers refine one queue: what was posted is what ran, then what is pending. */
  ghost predicate Refines(l: Loop) {
    && (l.pc.Running? || (DrainBuf(l) == [] && l.next == 0))
    && l.next <= |DrainBuf(l)|
    && l.posted == l.ran + Pending(l)
  }

  /** Each callback runs in the drain that begins with the first swap after its post. */
  ghost predicate Stamped(l: Loop) {
    && |l.postedAt| == |l.posted| && |l.ranAt| == |l.ran| <= |l.posted|
    && l.next <= |DrainBuf(l)| && |l.posted| == |l.ran| + |DrainBuf(l)| - l.next + |Active(l)|
    && (forall n :: 0 <= n < |l.ran| ==> l.ranAt[n] == l.postedAt[n] + 1)
    && (forall n :: |l.ran| <= n < |l.posted| - |Active(l)| ==> l.postedAt[n] + 1 == l.swaps)
    && (forall n :: |l.posted| - |Active(l)| <= n < |l.posted| ==> l.postedAt[n] == l.swaps)
  }

  /** Between the swap and the next return of poll, a post or a stop request has
      its wake token set or still to be issued. */
  ghost predicate Signalled(l: Loop) {
    && (l.pc.Running? || l.pc.Polling? ==> Active(l) == [] || l.token || l.wakes > 0)
    && (l.pc.Swapping? || l.pc.Running? || l.pc.Polling? ==> !l.stop || l.token || l.wakes > 0)
  }

  predicate BeforeReset(l: Loop) {
    l.pc.NotStarted? || l.pc.Resetting?
  }

  /** A posted StopLoop is pending, or has taken effect for good. */
  ghost predicate StopKept(l: Loop) {
    StopLoop in l.posted ==> StopLoop in Pending(l) || (l.stop && !BeforeReset(l)) || l.pc.Left?
  }

  ghost predicate Inv(l: Loop) {
    Refines(l) && Stamped(l) && Signalled(l) && StopKept(l)
  }

  // ---- preservation --------------------------------------------------------

  /** What a push does to the queue. */
  lemma PushEffect(l: Loop, t: Task)
    ensures Active(Push(l, t)) == Active(l) + [t] && DrainBuf(Push(l, t)) == DrainBuf(l)
    ensures Pending(Push(l, t)) == Pending(l) + [t]
  {
    var head := if l.next <= |DrainBuf(l)| then DrainBuf(l)[l.next..] else [];
    assert head + (Active(l) + [t]) == head + Active(l) + [t];
  }

  lemma PushRefines(l: Loop, t: Task)
    requires Refines(l)
    ensures Refines(Push(l, t))
  {
    PushEffect(l, t);
    assert l.ran + Pending(l) + [t] == l.ran + (Pending(l) + [t]);
  }

  lemma PushStamped(l: Loop, t: Task)
    requires Refines(l) && Stamped(l)
    ensures Stamped(Push(l, t))
  {
    PushEffect(l, t);
  }

  lemma SwapEffect(l: Loop)
    requires Refines(l) && l.pc.Swapping?
    ensures var l' := Step(l, Swap);
            && Active(l') == [] && DrainBuf(l') == Active(l) && l'.next == 0
            && Pending(l') == Pending(l) && Pending(l) == Active(l)
  {
    var l' := Step(l, Swap);
    assert [] + Active(l) == Active(l);
    assert Active(l)[0..] + [] == Active(l);
  }

  lemma RunEffect(l: Loop)
    requires Refines(l) && l.pc.Running? && l.next < |DrainBuf(l)|
    ensures var l' := RunOne(l); var t := DrainBuf(l)[l.next];
            && Pending(l) == [t] + Pending(l') && l'.ran == l.ran + [t]
            && Active(l') == Active(l) && DrainBuf(l') == DrainBuf(l)
  {
    SplitHead(DrainBuf(l), l.next, Active(l));
  }

  lemma SplitHead(drain: seq<Task>, k: nat, active: seq<Task>)
    requires k < |drain|
    ensures drain[k..] + active == [drain[k]] + (drain[k + 1..] + active)
  {
  }

  lemma ClearEffect(l: Loop)
    requires Refines(l) && l.pc.Running? && l.next == |DrainBuf(l)|
    ensures var l' := RunOne(l);
            Pending(l') == Pending(l) && Active(l') == Active(l) && DrainBuf(l') == [] && l'.next == 0
  {
    assert DrainBuf(l)[l.next..] == [];
  }

  lemma StepRefines(l: Loop, a: Action)
    requires Refines(l)
    ensures Refines(Step(l, a))
  {
    match a
    case Post(t) => PushRefines(l, t);
    case PostOnLoop(t) => PushRefines(l, t);
    case Swap => if l.pc.Swapping? { SwapEffect(l); }
    case RunNext => if l.pc.Running? { RunRefines(l); }
    case _ =>
  }

  lemma RunRefines(l: Loop)
    requires Refines(l) && l.pc.Running?
    ensures Refines(RunOne(l))
  {
    if l.next < |DrainBuf(l)| {
      RunEffect(l);
      var t, l' := DrainBuf(l)[l.next], RunOne(l);
      assert l.ran + ([t] + Pending(l')) == l.ran + [t] + Pending(l');
    } else {
      ClearEffect(l);
    }
  }

  lemma RunStamped(l: Loop)
    requires Refines(l) && Stamped(l) && l.pc.Running?
    ensures Stamped(RunOne(l))
  {
    if l.next < |DrainBuf(l)| { RunEffect(l); } else { ClearEffect(l); }
  }

  lemma SwapStamped(l: Loop)
    requires Refines(l) && Stamped(l) && l.pc.Swapping?
    ensures Stamped(Step(l, Swap))
  {
    SwapEffect(l);
  }

  predicate QueueAction(a: Action) {
    a.Post? || a.PostOnLoop? || a.Swap? || a.RunNext?
  }

  /** The other actions touch neither the queue nor its history. */
  lemma QueueFrame(l: Loop, a: Action)
    requires !QueueAction(a)
    ensures var l' := Step(l, a);
            && l'.bufA == l.bufA && l'.bufB == l.bufB && l'.activeIsA == l.activeIsA && l'.next == l.next
            && l'.posted == l.posted && l'.postedAt == l.postedAt && l'.ran == l.ran && l'.ranAt == l.ranAt
            && l'.swaps == l.swaps
  {
  }

  lemma StepStamped(l: Loop, a: Action)
    requires Refines(l) && Stamped(l)
    ensures Stamped(Step(l, a))
  {
    match a
    case Post(t) => PushStamped(l, t);
    case PostOnLoop(t) => PushStamped(l, t);
    case Swap => if l.pc.Swapping? { SwapStamped(l); }
    case RunNext => if l.pc.Running? { RunStamped(l); }
    case _ => FrameStamped(l, a);
  }

  lemma FrameStamped(l: Loop, a: Action)
    requires Stamped(l) && !QueueAction(a)
    ensures Stamped(Step(l, a))
  {
    QueueFrame(l, a);
  }

  lemma StepSignalled(l: Loop, a: Action)
    requires Refines(l) && Signalled(l)
    ensures Signalled(Step(l, a))
  {
    match a
    case Swap => if l.pc.Swapping? { SwapEffect(l); }
    case RunNext =>
      if l.pc.Running? {
        if l.next < |DrainBuf(l)| { RunEffect(l); } else { ClearEffect(l); }
      }
    case _ =>
  }

  lemma RunStopKept(l: Loop)
    requires Refines(l) && StopKept(l) && l.pc.Running?
    ensures StopKept(RunOne(l))
  {
    if l.next < |DrainBuf(l)| { RunEffect(l); } else { ClearEffect(l); }
  }

  lemma StepStopKept(l: Loop, a: Action)
    requires Refines(l) && StopKept(l)
    ensures StopKept(Step(l, a))
  {
    match a
    case Post(t) => PushEffect(l, t);
    case PostOnLoop(t) => PushEffect(l, t);
    case Swap => if l.pc.Swapping? { SwapEffect(l); }
    case RunNext => if l.pc.Running? { RunStopKept(l); }
    case _ => FrameStopKept(l, a);
  }

  /** Steps that leave the buffers alone. */
  lemma FrameStopKept(l: Loop, a: Action)
    requires Refines(l) && StopKept(l) && !a.Post? && !a.PostOnLoop? && !a.Swap? && !a.RunNext?
    ensures StopKept(Step(l, a))
  {
    QueueFrame(l, a);
    assert Pending(Step(l, a)) == Pending(l);
  }

  lemma StepInv(l: Loop, a: Action)
    requires Inv(l)
    ensures Inv(Step(l, a))
  {
    StepRefines(l, a);
    StepStamped(l, a);
    StepSignalled(l, a);
    StepStopKept(l, a);
  }

  lemma {:induction false} ExecInv(l: Loop, acts: seq<Action>)
    requires Inv(l)
    ensures Inv(Exec(l, acts))
  {
    if acts != [] {
      ExecInv(l, acts[..|acts| - 1]);
      StepInv(Exec(l, acts[..|acts| - 1]), acts[|acts| - 1]);
    }
  }
}
