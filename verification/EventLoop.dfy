/** The event loop object: two vectors swapped under the spinlock, the stop flag
and the waker, updated in place by post, stop, drain_posts and run. `Valid` ties
them to the ghost field `model`, a state of the loop protocol; `called` lists the
callbacks that have been invoked, and `wakesDue` counts the threads that have
pushed or stored and are about to wake the dispatcher.
*/
module EventLoop {
  import opened LoopProtocol

  /** One trip through run(): what other threads do before the stop flag is tested,
      before the buffers are swapped, around each callback, in poll, and while events
      are handled; callbacks and event handlers may post too. Then whether poll fails,
      whether a socket or timer is ready, and whether poll reports the waker. */
  datatype Round = Round(
    beforeTest: seq<Action>, beforeSwap: seq<Action>, duringDrain: seq<seq<Action>>, duringPoll: seq<Action>,
    duringEvents: seq<Action>, fails: bool, io: bool, sawWaker: bool)

  const LastRound := Round([], [], [], [], [], true, false, false)

  /** What other threads do, and with `onLoop` what runs on the loop thread. */
  predicate Foreign(a: Action, onLoop: bool) {
    a.Post? || a.RequestStop? || a.Wake? || (onLoop && a.PostOnLoop?)
  }

  predicate AllForeign(acts: seq<Action>, onLoop: bool) {
    forall i :: 0 <= i < |acts| ==> Foreign(acts[i], onLoop)
  }

  predicate Allowed(r: Round) {
    && AllForeign(r.beforeTest, false) && AllForeign(r.beforeSwap, false) && AllForeign(r.duringPoll, false)
    && AllForeign(r.duringEvents, true)
    && forall i :: 0 <= i < |r.duringDrain| ==> AllForeign(r.duringDrain[i], true)
  }

  /** Whether code of callbacks runs on the loop thread now. */
  predicate OnLoop(pc: Pc) {
    pc.Running? || pc.Woken?
  }

  // ---- the run that a trip performs ---------------------------------------------

  function ScriptAt(others: seq<seq<Action>>, i: nat): seq<Action> {
    if i < |others| then others[i] else []
  }

  /** `n` calls, each behind what others do before it. */
  function CallActs(others: seq<seq<Action>>, n: nat): seq<Action> {
    if n == 0 then [] else CallActs(others, n - 1) + ScriptAt(others, n - 1) + [RunNext]
  }

  /** A drain of `n` callbacks. */
  function DrainActs(others: seq<seq<Action>>, n: nat): seq<Action> {
    [Swap] + CallActs(others, n) + ScriptAt(others, n) + [RunNext]
  }

  function ToSwap(r: Round): seq<Action> {
    r.beforeTest + [TestStop] + r.beforeSwap
  }

  /** A trip up to the moment when poll ends: it drains what is posted at the swap. */
  function ToPoll(l: Loop, r: Round): seq<Action> {
    ToSwap(r) + DrainActs(r.duringDrain, |Active(Exec(l, ToSwap(r)))|) + r.duringPoll
  }

  predicate SeesStop(l: Loop, r: Round) {
    Exec(l, r.beforeTest).stop
  }

  /** Whether the loop goes round again after the trip `r` from `l`: the stop flag is
      not seen, poll does not fail, and something is ready in it. */
  predicate GoesOn(l: Loop, r: Round) {
    !SeesStop(l, r) && !r.fails && (r.io || Exec(l, ToPoll(l, r)).token)
  }

  function TripActs(l: Loop, r: Round): seq<Action> {
    if SeesStop(l, r) then r.beforeTest + [TestStop]
    else if !GoesOn(l, r) then ToPoll(l, r) + [PollFails]
    else ToPoll(l, r) + [if Exec(l, ToPoll(l, r)).token then PollReturns else IoReady] + r.duringEvents + [Process(r.sawWaker)]
  }

  function RoundAt(rounds: seq<Round>, k: nat): Round {
    if k < |rounds| then rounds[k] else LastRound
  }

  /** `heads` are the states at the loop condition, trip after trip: every trip but the
      last goes on, and the last one leaves in state `end`. */
  ghost predicate Trips(heads: seq<Loop>, rounds: seq<Round>, end: Loop) {
    && 0 < |heads| <= |rounds| + 1 && SoFar(heads, rounds)
    && LeftBy(heads[|heads| - 1], RoundAt(rounds, |heads| - 1), end)
  }

  ghost predicate SoFar(heads: seq<Loop>, rounds: seq<Round>) {
    forall k :: 0 <= k < |heads| - 1 ==> Went(heads[k], RoundAt(rounds, k), heads[k + 1])
  }

  ghost predicate Went(l: Loop, r: Round, next: Loop) {
    GoesOn(l, r) && next == Exec(l, TripActs(l, r))
  }

  ghost predicate LeftBy(l: Loop, r: Round, end: Loop) {
    !GoesOn(l, r) && end == Exec(l, TripActs(l, r))
  }

  // ---- a loop that nobody stops ---------------------------------------------------

  predicate Calm(acts: seq<Action>) {
    forall i :: 0 <= i < |acts| ==> !Stops(acts[i])
  }

  /** The action stops the loop, or posts the callback that does. */
  predicate Stops(a: Action) {
    a.RequestStop? || ((a.Post? || a.PostOnLoop?) && a.task.StopLoop?)
  }

  predicate CalmRound(r: Round) {
    && Calm(r.beforeTest) && Calm(r.beforeSwap) && Calm(r.duringPoll) && Calm(r.duringEvents)
    && forall i :: 0 <= i < |r.duringDrain| ==> Calm(r.duringDrain[i])
  }

  ghost predicate Unstopped(l: Loop) {
    Inv(l) && !l.stop && StopLoop !in Pending(l)
  }

  lemma RunUnstopped(l: Loop)
    requires Unstopped(l) && l.pc.Running?
    ensures !RunOne(l).stop && StopLoop !in Pending(RunOne(l))
  {
    if l.next < |DrainBuf(l)| {
      RunEffect(l);
      assert DrainBuf(l)[l.next] == Pending(l)[0];
    } else {
      ClearEffect(l);
    }
  }

  lemma CalmStep(l: Loop, a: Action)
    requires Unstopped(l) && !Stops(a)
    ensures Unstopped(Step(l, a))
  {
    StepInv(l, a);
    match a
    case Post(t) => PushEffect(l, t);
    case PostOnLoop(t) => PushEffect(l, t);
    case Swap => if l.pc.Swapping? { SwapEffect(l); }
    case RunNext => if l.pc.Running? { RunUnstopped(l); }
    case RequestStop =>
    case _ =>
      QueueFrame(l, a);
      assert Pending(Step(l, a)) == Pending(l);
  }

  lemma {:induction false} CalmRun(l: Loop, acts: seq<Action>)
    requires Unstopped(l) && Calm(acts)
    ensures Unstopped(Exec(l, acts))
  {
    if acts != [] {
      CalmRun(l, acts[..|acts| - 1]);
      CalmStep(Exec(l, acts[..|acts| - 1]), acts[|acts| - 1]);
    }
  }

  lemma {:induction false} CalmCalls(others: seq<seq<Action>>, n: nat)
    requires forall i :: 0 <= i < |others| ==> Calm(others[i])
    ensures Calm(CallActs(others, n))
  {
    if n > 0 { CalmCalls(others, n - 1); }
  }

  lemma CalmDrain(others: seq<seq<Action>>, n: nat)
    requires forall i :: 0 <= i < |others| ==> Calm(others[i])
    ensures Calm(DrainActs(others, n))
  {
    CalmCalls(others, n);
  }

  lemma CalmJoin(a: seq<Action>, b: seq<Action>)
    requires Calm(a) && Calm(b)
    ensures Calm(a + b)
  {
  }

  lemma CalmToPoll(l: Loop, r: Round)
    requires CalmRound(r)
    ensures Calm(ToPoll(l, r))
  {
    var n := |Active(Exec(l, ToSwap(r)))|;
    CalmDrain(r.duringDrain, n);
    CalmJoin(ToSwap(r), DrainActs(r.duringDrain, n));
    CalmJoin(ToSwap(r) + DrainActs(r.duringDrain, n), r.duringPoll);
  }

  lemma CalmEnd(acts: seq<Action>, a: Action, r: Round)
    requires Calm(acts) && CalmRound(r) && !Stops(a)
    ensures Calm(acts + [a]) && Calm(acts + [a] + r.duringEvents + [Process(r.sawWaker)])
  {
  }

  lemma CalmTrip(l: Loop, r: Round)
    requires CalmRound(r)
    ensures Calm(r.beforeTest) && Calm(TripActs(l, r))
  {
    CalmToPoll(l, r);
    CalmEnd(r.beforeTest, TestStop, r);
    CalmEnd(ToPoll(l, r), PollFails, r);
    CalmEnd(ToPoll(l, r), if Exec(l, ToPoll(l, r)).token then PollReturns else IoReady, r);
  }

  lemma {:induction false} StaysUnstopped(heads: seq<Loop>, rounds: seq<Round>, end: Loop, k: nat)
    requires Trips(heads, rounds, end) && k < |heads| && Unstopped(heads[0])
    requires forall i :: 0 <= i < |rounds| ==> CalmRound(rounds[i])
    ensures Unstopped(heads[k])
  {
    if k > 0 {
      StaysUnstopped(heads, rounds, end, k - 1);
      assert Went(heads[k - 1], RoundAt(rounds, k - 1), heads[k]);
      CalmTrip(heads[k - 1], RoundAt(rounds, k - 1));
      CalmRun(heads[k - 1], TripActs(heads[k - 1], RoundAt(rounds, k - 1)));
    }
  }

  /** If nobody stops the loop, no poll fails and in every poll something is ready, then
      every round is made. */
  lemma EveryRoundMade(heads: seq<Loop>, rounds: seq<Round>, end: Loop)
    requires Trips(heads, rounds, end) && Unstopped(heads[0])
    requires forall i :: 0 <= i < |rounds| ==> CalmRound(rounds[i]) && !rounds[i].fails
    requires forall i :: 0 <= i < |rounds| && i < |heads| ==>
               rounds[i].io || Exec(heads[i], ToPoll(heads[i], rounds[i])).token
    ensures |heads| == |rounds| + 1
  {
    var k := |heads| - 1;
    if k < |rounds| {
      StaysUnstopped(heads, rounds, end, k);
      CalmTrip(heads[k], rounds[k]);
      CalmRun(heads[k], rounds[k].beforeTest);
    }
  }

  lemma OneMore(heads: seq<Loop>, rounds: seq<Round>, next: Loop)
    requires heads != [] && SoFar(heads, rounds)
    requires Went(heads[|heads| - 1], RoundAt(rounds, |heads| - 1), next)
    ensures SoFar(heads + [next], rounds)
  {
    forall k | 0 <= k < |heads + [next]| - 1
      ensures Went((heads + [next])[k], RoundAt(rounds, k), (heads + [next])[k + 1])
    {
      OneMoreAt(heads, rounds, next, k, (heads + [next])[k], (heads + [next])[k + 1]);
    }
  }

  lemma OneMoreAt(heads: seq<Loop>, rounds: seq<Round>, next: Loop, k: nat, l: Loop, m: Loop)
    requires heads != [] && SoFar(heads, rounds) && k < |heads|
    requires Went(heads[|heads| - 1], RoundAt(rounds, |heads| - 1), next)
    requires l == heads[k] && m == if k + 1 < |heads| then heads[k + 1] else next
    ensures Went(l, RoundAt(rounds, k), m)
  {
    if k + 1 < |heads| { assert Went(heads[k], RoundAt(rounds, k), heads[k + 1]); }
  }

  /** After `trips` trips from `first`, with `again` at the head of another. */
  ghost predicate Looping(rounds: seq<Round>, trips: nat, first: Loop, heads: seq<Loop>, now: Loop, again: bool) {
    && trips <= |rounds| + 1 && Inv(now) && heads != [] && heads[0] == first && SoFar(heads, rounds)
    && if again then trips == |heads| - 1 <= |rounds| && heads[trips] == now && now.pc.AtHead?
       else trips == |heads| && now.pc.Left? && LeftBy(heads[trips - 1], RoundAt(rounds, trips - 1), now)
  }

  lemma LoopingEnds(rounds: seq<Round>, trips: nat, first: Loop, heads: seq<Loop>, now: Loop)
    requires Looping(rounds, trips, first, heads, now, false)
    ensures Inv(now) && now.pc.Left? && trips == |heads| && Trips(heads, rounds, now) && heads[0] == first
  {
  }

  predicate AllAllowed(rounds: seq<Round>) {
    forall i :: 0 <= i < |rounds| ==> Allowed(rounds[i])
  }

  // ---- sequences of actions ---------------------------------------------------------

  ghost predicate At(start: Loop, acts: seq<Action>, l: Loop) {
    l == Exec(start, acts) && Inv(l)
  }

  lemma AtNext(start: Loop, acts: seq<Action>, l: Loop, a: Action)
    requires At(start, acts, l)
    ensures At(start, acts + [a], Step(l, a))
  {
    assert (acts + [a])[..|acts|] == acts;
    StepInv(l, a);
  }

  lemma FirstOther(before: seq<Action>, others: seq<Action>)
    requires others != []
    ensures before + [others[0]] + others[1..] == before + others
  {
  }

  lemma NextCall(before: seq<Action>, others: seq<seq<Action>>, i: nat)
    ensures before + CallActs(others, i) + ScriptAt(others, i) + [RunNext] == before + CallActs(others, i + 1)
  {
  }

  lemma DrainShape(before: seq<Action>, others: seq<seq<Action>>, n: nat)
    ensures before + [Swap] + CallActs(others, n) + ScriptAt(others, n) + [RunNext] == before + DrainActs(others, n)
  {
    Regroup(before, [Swap], CallActs(others, n), ScriptAt(others, n), [RunNext]);
  }

  lemma Regroup(a: seq<Action>, b: seq<Action>, c: seq<Action>, d: seq<Action>, e: seq<Action>)
    ensures a + b + c + d + e == a + (b + c + d + e)
  {
  }

  lemma Alone(a: Action)
    ensures [] + [a] == [a]
  {
  }

  lemma AppendNext(done: seq<Task>, batch: seq<Task>, i: nat)
    requires i < |batch|
    ensures done + batch[..i] + [batch[i]] == done + batch[..i + 1]
  {
  }

  class EventLoop {
    var queueA: seq<Task>
    var queueB: seq<Task>
    var activeIsA: bool
    var stopRequested: bool
    var running: bool
    var wakeToken: bool
    var wakesDue: nat
    var called: seq<Task>
    ghost var model: Loop

    ghost predicate Valid()
      reads this
    {
      && model.bufA == queueA && model.bufB == queueB && model.activeIsA == activeIsA
      && model.stop == stopRequested && model.token == wakeToken && model.wakes == wakesDue && model.ran == called
    }

    constructor ()
      ensures Valid() && Inv(model) && model == Init() && !running
    {
      queueA, queueB, activeIsA := [], [], true;
      stopRequested, running, wakeToken, wakesDue, called := false, false, false, 0, [];
      model := Init();
    }

    /** The part of post() under the spinlock. */
    method PushPosted(t: Task)
      requires Valid()
      modifies this
      ensures Valid() && model == Step(old(model), Post(t)) && running == old(running) && called == old(called)
    {
      model := Step(model, Post(t));
      if activeIsA { queueA := queueA + [t]; } else { queueB := queueB + [t]; }
      wakesDue := wakesDue + 1;
    }

    /** One action of another thread, or a post from the loop thread. */
    method OtherThread(a: Action, onLoop: bool)
      requires Valid() && Foreign(a, onLoop) && (onLoop ==> OnLoop(model.pc))
      modifies this
      ensures Valid() && model == Step(old(model), a) && running == old(running) && called == old(called)
      ensures model.pc == old(model).pc && model.next == old(model).next && DrainBuf(model) == DrainBuf(old(model))
    {
      match a
      case Post(t) => PushPosted(t);
      case PostOnLoop(t) =>
        model := Step(model, a);
        if activeIsA { queueA := queueA + [t]; } else { queueB := queueB + [t]; }
        wakeToken := true;
      case RequestStop =>
        model := Step(model, a);
        stopRequested := true;
        wakesDue := wakesDue + 1;
      case Wake =>
        if wakesDue > 0 {
          model := Step(model, a);
          wakesDue := wakesDue - 1;
          wakeToken := true;
        }
    }

    method NextOther(a: Action, onLoop: bool, ghost start: Loop, ghost before: seq<Action>)
      requires Valid() && At(start, before, model) && Foreign(a, onLoop) && (onLoop ==> OnLoop(model.pc))
      modifies this
      ensures Valid() && At(start, before + [a], model) && running == old(running) && called == old(called)
      ensures model.pc == old(model).pc && model.next == old(model).next && DrainBuf(model) == DrainBuf(old(model))
    {
      AtNext(start, before, model, a);
      OtherThread(a, onLoop);
    }

    method OtherThreads(others: seq<Action>, onLoop: bool, ghost start: Loop, ghost before: seq<Action>)
      requires Valid() && At(start, before, model)
      requires AllForeign(others, onLoop) && (onLoop ==> OnLoop(model.pc))
      modifies this
      ensures Valid() && At(start, before + others, model) && running == old(running) && called == old(called)
      ensures model.pc == old(model).pc && model.next == old(model).next && DrainBuf(model) == DrainBuf(old(model))
      decreases |others|
    {
      if others == [] {
        assert before + others == before;
      } else {
        NextOther(others[0], onLoop, start, before);
        OtherThreads(others[1..], onLoop, start, before + [others[0]]);
        FirstOther(before, others);
      }
    }

    /** The swap under the spinlock at the top of drain_posts. */
    method SwapBuffers() returns (n: nat)
      requires Valid() && Inv(model) && model.pc.Swapping?
      modifies this
      ensures Valid() && model == Step(old(model), Swap) && running == old(running) && called == old(called)
      ensures model.pc.Running? && model.next == 0 && DrainBuf(model) == Active(old(model)) && n == |DrainBuf(model)|
    {
      SwapEffect(model);
      model := Step(model, Swap);
      activeIsA := !activeIsA;
      n := if activeIsA then |queueB| else |queueA|;
    }

    /** Calls the i-th callback of the drain buffer. */
    method CallOne(i: nat)
      requires Valid() && Inv(model) && model.pc.Running? && model.next == i < |DrainBuf(model)|
      modifies this
      ensures Valid() && model == Step(old(model), RunNext) && running == old(running)
      ensures model.pc.Running? && model.next == i + 1 && DrainBuf(model) == DrainBuf(old(model))
      ensures called == old(called) + [DrainBuf(old(model))[i]]
    {
      RunEffect(model);
      model := Step(model, RunNext);
      var fn := if activeIsA then queueB[i] else queueA[i];
      called := called + [fn];
      if fn.StopLoop? {
        stopRequested := true;
        wakeToken := true;
      }
    }

    method ClearDrained()
      requires Valid() && model.pc.Running? && model.next == |DrainBuf(model)|
      modifies this
      ensures Valid() && model == Step(old(model), RunNext) && model.pc.Polling?
      ensures running == old(running) && called == old(called)
    {
      model := Step(model, RunNext);
      if activeIsA { queueB := []; } else { queueA := []; }
    }

    /** Swaps the buffers, then calls what was posted up to the swap, in order. What
        callbacks and other threads post meanwhile stays for the next drain. */
    method DrainPosts(others: seq<seq<Action>>, ghost start: Loop, ghost before: seq<Action>)
      requires Valid() && At(start, before, model) && model.pc.Swapping?
      requires forall i :: 0 <= i < |others| ==> AllForeign(others[i], true)
      modifies this
      ensures Valid() && At(start, before + DrainActs(others, |old(Active(model))|), model)
      ensures model.pc.Polling? && running == old(running)
      ensures called == old(called) + old(Active(model))
    {
      AtNext(start, before, model, Swap);
      var n := SwapBuffers();
      CallAll(n, others, start, before + [Swap]);
      ghost var acts := before + [Swap] + CallActs(others, n);
      OtherThreads(if n < |others| then others[n] else [], true, start, acts);
      AtNext(start, acts + ScriptAt(others, n), model, RunNext);
      ClearDrained();
      DrainShape(before, others, n);
    }

    /** The loop of drain_posts over the drain buffer. */
    method CallAll(n: nat, others: seq<seq<Action>>, ghost start: Loop, ghost before: seq<Action>)
      requires Valid() && At(start, before, model)
      requires model.pc.Running? && model.next == 0 && n == |DrainBuf(model)|
      requires forall i :: 0 <= i < |others| ==> AllForeign(others[i], true)
      modifies this
      ensures Valid() && At(start, before + CallActs(others, n), model) && running == old(running)
      ensures model.pc.Running? && model.next == n == |DrainBuf(model)|
      ensures called == old(called) + DrainBuf(old(model))
    {
      ghost var batch := DrainBuf(model);
      assert before + CallActs(others, 0) == before;
      for i := 0 to n
        invariant Valid() && At(start, before + CallActs(others, i), model) && running == old(running)
        invariant model.pc.Running? && model.next == i && DrainBuf(model) == batch
        invariant called == old(called) + batch[..i]
      {
        CallNext(i, if i < |others| then others[i] else [], start, before + CallActs(others, i));
        NextCall(before, others, i);
        AppendNext(old(called), batch, i);
      }
      assert batch[..n] == batch;
    }

    method CallNext(i: nat, others: seq<Action>, ghost start: Loop, ghost before: seq<Action>)
      requires Valid() && At(start, before, model) && AllForeign(others, true)
      requires model.pc.Running? && model.next == i < |DrainBuf(model)|
      modifies this
      ensures Valid() && At(start, before + others + [RunNext], model) && running == old(running)
      ensures model.pc.Running? && model.next == i + 1 && DrainBuf(model) == DrainBuf(old(model))
      ensures called == old(called) + [DrainBuf(old(model))[i]]
    {
      OtherThreads(others, true, start, before);
      AtNext(start, before + others, model, RunNext);
      CallOne(i);
    }

    /** poll() ends: with an event if it does not fail and the token is set or a socket
        or timer is ready. */
    method EndPoll(fails: bool, io: bool) returns (ok: bool, ghost a: Action)
      requires Valid() && model.pc.Polling?
      modifies `model
      ensures Valid() && model == Step(old(model), a)
      ensures ok <==> !fails && (wakeToken || io)
      ensures a == if !ok then PollFails else if wakeToken then PollReturns else IoReady
      ensures if ok then model.pc.Woken? else model.pc.Left?
    {
      ok := !fails && (wakeToken || io);
      a := if !ok then PollFails else if wakeToken then PollReturns else IoReady;
      model := Step(model, a);
    }

    method ProcessEvents(sawWaker: bool)
      requires Valid() && model.pc.Woken?
      modifies `model, `wakeToken
      ensures Valid() && model == Step(old(model), Process(sawWaker)) && model.pc.AtHead?
    {
      model := Step(model, Process(sawWaker));
      if sawWaker {
        wakeToken := false;
      }
    }

    /** The events of a poll that ended well. */
    method HandleEvents(r: Round, ghost start: Loop, ghost before: seq<Action>)
      requires Valid() && At(start, before, model) && model.pc.Woken? && Allowed(r)
      modifies this
      ensures Valid() && At(start, before + r.duringEvents + [Process(r.sawWaker)], model)
      ensures model.pc.AtHead? && running == old(running)
    {
      OtherThreads(r.duringEvents, true, start, before);
      AtNext(start, before + r.duringEvents, model, Process(r.sawWaker));
      ProcessEvents(r.sawWaker);
    }

    method FinishPoll(fails: bool, io: bool, ghost start: Loop, ghost before: seq<Action>) returns (ok: bool, ghost a: Action)
      requires Valid() && At(start, before, model) && model.pc.Polling?
      modifies `model
      ensures Valid() && At(start, before + [a], model)
      ensures ok <==> !fails && (io || old(model).token)
      ensures a == if !ok then PollFails else if old(model).token then PollReturns else IoReady
      ensures if ok then model.pc.Woken? else model.pc.Left?
    {
      ghost var was := model;
      ok, a := EndPoll(fails, io);
      AtNext(start, before, was, a);
    }

    /** The loop condition of run(). */
    method StopSeen(ghost start: Loop, ghost before: seq<Action>) returns (stop: bool)
      requires Valid() && At(start, before, model) && model.pc.AtHead?
      modifies `model
      ensures Valid() && At(start, before + [TestStop], model) && stop == stopRequested
      ensures if stop then model.pc.Left? else model.pc.Swapping?
    {
      AtNext(start, before, model, TestStop);
      stop := stopRequested;
      model := Step(model, TestStop);
    }

    method Started(ghost start: Loop, ghost before: seq<Action>)
      requires Valid() && At(start, before, model) && model.pc.NotStarted?
      modifies `running, `model
      ensures Valid() && At(start, before + [Start], model) && model.pc.Resetting? && running
    {
      AtNext(start, before, model, Start);
      running := true;
      model := Step(model, Start);
    }

    method ClearStop(ghost start: Loop, ghost before: seq<Action>)
      requires Valid() && At(start, before, model) && model.pc.Resetting?
      modifies `stopRequested, `model
      ensures Valid() && At(start, before + [Reset], model) && model.pc.AtHead? && !stopRequested
    {
      AtNext(start, before, model, Reset);
      stopRequested := false;
      model := Step(model, Reset);
    }

    /** The head of run(): a stop by another thread in between is overwritten. */
    method BeginRun(between: seq<Action>)
      requires Valid() && Inv(model) && model.pc.NotStarted? && AllForeign(between, false)
      modifies this
      ensures Valid() && Inv(model) && model == Exec(old(model), [Start] + between + [Reset])
      ensures model.pc.AtHead? && !stopRequested && running
    {
      ghost var start := model;
      Started(start, []);
      Alone(Start);
      OtherThreads(between, false, start, [Start]);
      ClearStop(start, [Start] + between);
    }

    /** The part of a trip up to poll. */
    method DrainRound(r: Round, ghost start: Loop)
      requires Valid() && At(start, r.beforeTest + [TestStop], model) && model.pc.Swapping? && Allowed(r)
      modifies this
      ensures Valid() && At(start, ToPoll(start, r), model) && model.pc.Polling? && running == old(running)
    {
      OtherThreads(r.beforeSwap, false, start, r.beforeTest + [TestStop]);
      DrainPosts(r.duringDrain, start, ToSwap(r));
      OtherThreads(r.duringPoll, false, start, ToSwap(r) + DrainActs(r.duringDrain, |Active(Exec(start, ToSwap(r)))|));
    }

    /** poll and its events, at the end of a trip. */
    method PollRound(r: Round, ghost start: Loop) returns (again: bool)
      requires Valid() && At(start, ToPoll(start, r), model) && model.pc.Polling? && Allowed(r) && !SeesStop(start, r)
      modifies this
      ensures Valid() && At(start, TripActs(start, r), model) && running == old(running)
      ensures again <==> GoesOn(start, r)
      ensures if again then model.pc.AtHead? else model.pc.Left?
    {
      ghost var a;
      again, a := FinishPoll(r.fails, r.io, start, ToPoll(start, r));
      if again {
        HandleEvents(r, start, ToPoll(start, r) + [a]);
      }
    }

    method TestRound(r: Round, ghost start: Loop) returns (stop: bool)
      requires Valid() && At(start, [], model) && model.pc.AtHead? && Allowed(r)
      modifies this
      ensures Valid() && At(start, r.beforeTest + [TestStop], model) && running == old(running)
      ensures stop <==> SeesStop(start, r)
      ensures if stop then model.pc.Left? else model.pc.Swapping?
    {
      OtherThreads(r.beforeTest, false, start, []);
      assert [] + r.beforeTest == r.beforeTest;
      stop := StopSeen(start, r.beforeTest);
    }

    /** One trip through the loop of run(); it goes round again unless it saw the stop
        flag, poll failed or nothing was ready. */
    method Trip(r: Round) returns (again: bool)
      requires Valid() && Inv(model) && model.pc.AtHead? && Allowed(r)
      modifies this
      ensures Valid() && Inv(model) && running == old(running)
      ensures if again then Went(old(model), r, model) && model.pc.AtHead? else LeftBy(old(model), r, model) && model.pc.Left?
    {
      ghost var start := model;
      var stop := TestRound(r, start);
      if stop {
        return false;
      }
      DrainRound(r, start);
      again := PollRound(r, start);
    }

    method NextTrip(rounds: seq<Round>, k: nat, ghost first: Loop, ghost before: seq<Loop>)
      returns (again: bool, ghost heads: seq<Loop>)
      requires Valid() && AllAllowed(rounds) && Looping(rounds, k, first, before, model, true)
      modifies this
      ensures Valid() && running == old(running) && Looping(rounds, k + 1, first, heads, model, again)
    {
      heads := before;
      again := Trip(if k < |rounds| then rounds[k] else LastRound);
      if again {
        OneMore(before, rounds, model);
        heads := before + [model];
      }
    }

    /** The loop of run(), for as many trips as `rounds` describes; then poll fails. */
    method RunLoop(rounds: seq<Round>) returns (trips: nat, ghost heads: seq<Loop>)
      requires Valid() && Inv(model) && model.pc.AtHead? && AllAllowed(rounds)
      modifies this
      ensures Valid() && running == old(running) && Looping(rounds, trips, old(model), heads, model, false)
    {
      ghost var first := model;
      trips, heads := 0, [model];
      var again := true;
      while again
        invariant Valid() && running == old(running) && Looping(rounds, trips, first, heads, model, again)
        decreases again, |rounds| + 1 - trips
      {
        again, heads := NextTrip(rounds, trips, first, heads);
        trips := trips + 1;
      }
    }

    /** run(): `heads` are the states at its loop condition. */
    method Run(between: seq<Action>, rounds: seq<Round>) returns (trips: nat, ghost heads: seq<Loop>)
      requires Valid() && Inv(model) && model.pc.NotStarted? && AllForeign(between, false)
      requires AllAllowed(rounds)
      modifies this
      ensures Valid() && Inv(model) && model.pc.Left? && !running
      ensures trips == |heads| && Trips(heads, rounds, model)
      ensures heads[0] == Exec(old(model), [Start] + between + [Reset])
    {
      BeginRun(between);
      ghost var first := model;
      trips, heads := RunLoop(rounds);
      LoopingEnds(rounds, trips, first, heads, model);
      running := false;
    }
  }
}
