/** What the event loop guarantees on every interleaving. */
module LoopTheorems {
  import opened LoopProtocol

  /** The callbacks pushed during `acts`, in push order. */
  function PostsIn(l: Loop, acts: seq<Action>): seq<Task> {
    if acts == [] then []
    else
      var before, last := acts[..|acts| - 1], acts[|acts| - 1];
      PostsIn(l, before) +
      if last.Post? || (last.PostOnLoop? && RunsCallbacks(Exec(l, before))) then [last.task] else []
  }

  /** The loop thread is calling posted callbacks or handling events. */
  predicate RunsCallbacks(l: Loop) {
    l.pc.Running? || l.pc.Woken?
  }

  lemma InitInv()
    ensures Inv(Init())
  {
  }

  lemma StepPosted(l: Loop, a: Action)
    ensures Step(l, a).posted == l.posted + if a.Post? || (a.PostOnLoop? && RunsCallbacks(l)) then [a.task] else []
  {
    if !QueueAction(a) { QueueFrame(l, a); }
  }

  lemma {:induction false} ExecPosted(acts: seq<Action>)
    ensures Exec(Init(), acts).posted == PostsIn(Init(), acts)
  {
    if acts != [] {
      ExecPosted(acts[..|acts| - 1]);
      StepPosted(Exec(Init(), acts[..|acts| - 1]), acts[|acts| - 1]);
    }
  }

  /** Post queue refinement. The two swapped buffers behave as one FIFO: callbacks
      run at most once and in push order, a callback runs in the drain begun by
      the first swap after its push (so one posted during a drain waits for a
      later one), and between drains the drain buffer is empty. */
  lemma PostQueueIsFifo(acts: seq<Action>)
    ensures var l := Exec(Init(), acts);
            && PostsIn(Init(), acts) == l.ran + Pending(l)
            && |l.ranAt| == |l.ran| <= |l.postedAt|
            && (forall n :: 0 <= n < |l.ran| ==> l.ranAt[n] == l.postedAt[n] + 1)
            && (!l.pc.Running? ==> DrainBuf(l) == [])
  {
    InitInv();
    ExecInv(Init(), acts);
    ExecPosted(acts);
  }

  /** No lost wake-up: a loop in poll with posted callbacks has its token set or
      a poster about to set it. */
  lemma NoLostWake(acts: seq<Action>)
    ensures var l := Exec(Init(), acts);
            l.pc.Polling? && Pending(l) != [] ==> l.token || l.wakes > 0
  {
    InitInv();
    ExecInv(Init(), acts);
    if Exec(Init(), acts).pc.Polling? { PendingInPoll(Exec(Init(), acts)); }
  }

  lemma PendingInPoll(l: Loop)
    requires Refines(l) && !l.pc.Running?
    ensures Pending(l) == Active(l)
  {
    assert [] + Active(l) == Active(l);
  }

  /** No lost stop. Once the stop callback is posted, as destroy does before its
      direct stop(), a loop in poll is about to be woken, whatever came first. */
  lemma NoLostStop(acts: seq<Action>)
    ensures var l := Exec(Init(), acts);
            StopLoop in l.posted && l.pc.Polling? ==> l.token || l.wakes > 0
  {
    var l := Exec(Init(), acts);
    InitInv();
    ExecInv(Init(), acts);
    if l.pc.Polling? { PendingInPoll(l); }
  }

  // ---- the loop leaves run() -----------------------------------------------

  predicate LoopThread(a: Action) {
    a.Start? || a.Reset? || a.TestStop? || a.Swap? || a.RunNext? || a.PollReturns? || a.IoReady? || a.Process? || a.PollFails?
  }

  /** The loop is bound to leave run(): the stop callback was posted, or stop() was
      called after run() cleared the flag, or run() has returned. */
  predicate Stopping(l: Loop) {
    StopLoop in l.posted || (l.stop && !BeforeReset(l)) || l.pc.Left?
  }

  /** An upper bound on the loop thread's remaining steps once it is stopping. */
  ghost function Rank(l: Loop): nat {
    var a, d := |Active(l)|, if l.next <= |DrainBuf(l)| then |DrainBuf(l)| - l.next else 0;
    match l.pc
    case NotStarted => 8 + a
    case Resetting => 7 + a
    case AtHead => if l.stop then 1 else 6 + a
    case Swapping => 5 + a
    case Running =>
      if l.stop || (l.next <= |DrainBuf(l)| && StopLoop in DrainBuf(l)[l.next..]) then 4 + d else 9 + a + d
    case Polling => if l.stop then 3 else 8 + a
    case Woken => if l.stop then 2 else 7 + a
    case Left => 0
  }

  lemma CallRank(l: Loop)
    requires Inv(l) && Stopping(l) && l.pc.Running? && l.next < |DrainBuf(l)|
    ensures Rank(RunOne(l)) < Rank(l)
  {
    RunEffect(l);
    assert DrainBuf(l)[l.next..] == [DrainBuf(l)[l.next]] + DrainBuf(l)[l.next + 1..];
  }

  lemma ClearRank(l: Loop)
    requires Inv(l) && Stopping(l) && l.pc.Running? && l.next >= |DrainBuf(l)|
    ensures Rank(RunOne(l)) < Rank(l)
  {
    ClearEffect(l);
    assert l.next == |DrainBuf(l)| ==> DrainBuf(l)[l.next..] == [];
  }

  lemma RunRank(l: Loop)
    requires Inv(l) && Stopping(l) && l.pc.Running?
    ensures Rank(RunOne(l)) < Rank(l)
  {
    if l.next < |DrainBuf(l)| { CallRank(l); } else { ClearRank(l); }
  }

  lemma SwapRank(l: Loop)
    requires Inv(l) && Stopping(l) && l.pc.Swapping?
    ensures Rank(Step(l, Swap)) < Rank(l)
  {
    SwapEffect(l);
    var l' := Step(l, Swap);
    assert DrainBuf(l')[0..] == DrainBuf(l');
  }

  lemma LoopRank(l: Loop, a: Action)
    requires Inv(l) && Stopping(l) && LoopThread(a) && Enabled(l, a)
    ensures Rank(Step(l, a)) < Rank(l)
  {
    match a
    case Swap => SwapRank(l);
    case RunNext => RunRank(l);
    case _ => QueueFrame(l, a);
  }

  lemma PushRank(l: Loop, t: Task)
    ensures Rank(Push(l, t)) <= Rank(l) + 1
    ensures forall w: nat, k :: Rank(Push(l, t).(wakes := w, token := k)) == Rank(Push(l, t))
  {
    PushEffect(l, t);
  }

  lemma OtherRank(l: Loop, a: Action)
    requires !LoopThread(a)
    ensures Rank(Step(l, a)) <= Rank(l) + if a.Post? || a.PostOnLoop? then 1 else 0
  {
    match a
    case Post(t) => PushRank(l, t);
    case PostOnLoop(t) => PushRank(l, t);
    case _ => QueueFrame(l, a);
  }

  /** The steps of the loop thread taken in a run. */
  function LoopSteps(l: Loop, acts: seq<Action>): nat {
    if acts == [] then 0
    else
      var before, last := acts[..|acts| - 1], acts[|acts| - 1];
      LoopSteps(l, before) + if LoopThread(last) && Enabled(Exec(l, before), last) then 1 else 0
  }

  function Posts(acts: seq<Action>): nat {
    if acts == [] then 0
    else Posts(acts[..|acts| - 1]) + if acts[|acts| - 1].Post? || acts[|acts| - 1].PostOnLoop? then 1 else 0
  }

  lemma StepStopping(l: Loop, a: Action)
    requires Stopping(l)
    ensures Stopping(Step(l, a))
  {
    StepPosted(l, a);
  }

  lemma {:induction false} ExecStopping(l: Loop, acts: seq<Action>)
    requires Stopping(l)
    ensures Stopping(Exec(l, acts))
  {
    if acts != [] {
      ExecStopping(l, acts[..|acts| - 1]);
      StepStopping(Exec(l, acts[..|acts| - 1]), acts[|acts| - 1]);
    }
  }

  /** The loop leaves run(): once it is stopping, every continuation has at most
      `Rank` steps of the loop thread plus one for each further post. */
  lemma {:induction false} StopTakesEffect(l: Loop, acts: seq<Action>)
    requires Inv(l) && Stopping(l)
    ensures LoopSteps(l, acts) + Rank(Exec(l, acts)) <= Rank(l) + Posts(acts)
  {
    if acts != [] {
      var before, last := acts[..|acts| - 1], acts[|acts| - 1];
      var m := Exec(l, before);
      StopTakesEffect(l, before);
      ExecInv(l, before);
      ExecStopping(l, before);
      if LoopThread(last) && Enabled(m, last) {
        LoopRank(m, last);
      } else if !LoopThread(last) {
        OtherRank(m, last);
      }
    }
  }

  /** In poll with no wake set or owed. */
  predicate Blocked(l: Loop) {
    l.pc.Polling? && !l.token && l.wakes == 0
  }

  lemma StoppingNotBlocked(l: Loop)
    requires Inv(l) && Stopping(l)
    ensures !Blocked(l)
  {
    if l.pc.Polling? { PendingInPoll(l); }
  }

  /** And it is never stuck before it has left: it has a step of its own to take, or
      some thread is between its push or store and its wake. */
  lemma LoopNeverStuck(l: Loop, acts: seq<Action>)
    requires Inv(l) && Stopping(l)
    ensures var m := Exec(l, acts);
            !Blocked(m)
            && (!m.pc.Left? && m.wakes == 0 ==>
                  exists a :: LoopThread(a) && !a.IoReady? && !a.PollFails? && Enabled(m, a))
  {
    var m := Exec(l, acts);
    ExecInv(l, acts);
    ExecStopping(l, acts);
    StoppingNotBlocked(m);
    match m.pc
    case NotStarted => assert Enabled(m, Start);
    case Resetting => assert Enabled(m, Reset);
    case AtHead => assert Enabled(m, TestStop);
    case Swapping => assert Enabled(m, Swap);
    case Running => assert Enabled(m, RunNext);
    case Polling => assert m.wakes == 0 ==> Enabled(m, PollReturns);
    case Woken => assert Enabled(m, Process(true));
    case Left =>
  }

  // ---- exactly when run() is sure to return -----------------------------------

  /** Every continuation has boundedly many loop steps, but for later posts, and none
      blocks. */
  ghost predicate SureToReturn(l: Loop) {
    exists n: nat :: ReturnsWithin(l, n)
  }

  ghost predicate ReturnsWithin(l: Loop, n: nat) {
    forall acts :: StepsWithin(l, acts, n)
  }

  predicate StepsWithin(l: Loop, acts: seq<Action>, n: nat) {
    LoopSteps(l, acts) <= n + Posts(acts) && !Blocked(Exec(l, acts))
  }

  /** A quiet loop that nothing stops. */
  ghost predicate Endless(l: Loop) {
    Inv(l) && !Stopping(l) && l.wakes == 0
  }

  /** Its next step if nothing happens from outside. */
  function QuietStep(l: Loop): Action {
    match l.pc
    case NotStarted => Start
    case Resetting => Reset
    case AtHead => TestStop
    case Swapping => Swap
    case Running => RunNext
    case Woken => Process(true)
    case _ => PollReturns
  }

  /** How far it is from blocking: the wake token is used up first, and then it takes
      so many steps to reach poll. */
  function Stage(l: Loop): nat {
    if l.pc.Woken? then 1 else if !l.token then 0 else if l.pc.Polling? then 2 else 3
  }

  function ToPoll(l: Loop): nat {
    var a := |Active(l)|;
    match l.pc
    case NotStarted => a + 5
    case Resetting => a + 4
    case AtHead => a + 3
    case Swapping => a + 2
    case Running => if l.next <= |DrainBuf(l)| then |DrainBuf(l)| - l.next + 1 else 0
    case _ => 0
  }

  lemma QuietRun(l: Loop)
    requires Endless(l) && l.pc.Running?
    ensures var m := Step(l, RunNext);
            !Stopping(m) && m.wakes == 0 && m.token == l.token
            && (m.pc.Polling? || (m.pc.Running? && ToPoll(m) < ToPoll(l)))
  {
    if l.next < |DrainBuf(l)| {
      RunEffect(l);
      var t := DrainBuf(l)[l.next];
      assert t in Pending(l) by { assert DrainBuf(l)[l.next..][0] == t; }
      assert t in l.posted;
    } else {
      ClearEffect(l);
    }
  }

  lemma QuietSwap(l: Loop)
    requires Endless(l) && l.pc.Swapping?
    ensures var m := Step(l, Swap);
            !Stopping(m) && m.wakes == 0 && m.token == l.token && m.pc.Running? && ToPoll(m) < ToPoll(l)
  {
    SwapEffect(l);
  }

  predicate Closer(m: Loop, l: Loop) {
    Stage(m) < Stage(l) || (Stage(m) == Stage(l) && ToPoll(m) < ToPoll(l))
  }

  /** The steps that do not touch the buffers. */
  lemma QuietMove(l: Loop)
    requires !Stopping(l) && l.wakes == 0 && !Blocked(l) && !l.pc.Running? && !l.pc.Swapping?
    ensures var m := Step(l, QuietStep(l)); !Stopping(m) && m.wakes == 0 && Closer(m, l)
  {
    QueueFrame(l, QuietStep(l));
  }

  lemma QuietProgress(l: Loop)
    requires Endless(l) && !Blocked(l)
    ensures var m := Step(l, QuietStep(l)); Endless(m) && Closer(m, l)
  {
    StepInv(l, QuietStep(l));
    if l.pc.Running? {
      QuietRun(l);
    } else if l.pc.Swapping? {
      QuietSwap(l);
    } else {
      QuietMove(l);
    }
  }

  /** Left to itself it ends up blocked. */
  lemma {:induction false} EndlessBlocks(l: Loop) returns (acts: seq<Action>)
    requires Endless(l)
    ensures Blocked(Exec(l, acts))
    decreases Stage(l), ToPoll(l)
  {
    if Blocked(l) {
      acts := [];
    } else {
      var a := QuietStep(l);
      QuietProgress(l);
      var rest := EndlessBlocks(Step(l, a));
      acts := [a] + rest;
      ExecConcat(l, [a], rest);
      ExecOne(l, a);
    }
  }

  /** The wakes still owed can come first. */
  lemma {:induction false} WakesFirst(l: Loop) returns (acts: seq<Action>)
    requires Inv(l) && !Stopping(l)
    ensures Endless(Exec(l, acts))
    decreases l.wakes
  {
    if l.wakes == 0 {
      acts := [];
    } else {
      StepInv(l, Wake);
      var rest := WakesFirst(Step(l, Wake));
      acts := [Wake] + rest;
      ExecConcat(l, [Wake], rest);
      ExecOne(l, Wake);
    }
  }

  /** run() is sure to return exactly if the loop is stopping; otherwise some
      continuation blocks in poll with no wake on its way. */
  lemma ReturnsIffStopping(l: Loop)
    requires Inv(l)
    ensures SureToReturn(l) <==> Stopping(l)
  {
    if Stopping(l) {
      forall acts ensures StepsWithin(l, acts, Rank(l)) {
        StopTakesEffect(l, acts);
        LoopNeverStuck(l, acts);
      }
      assert ReturnsWithin(l, Rank(l));
    } else {
      var a := WakesFirst(l);
      var b := EndlessBlocks(Exec(l, a));
      ExecConcat(l, a, b);
      forall n: nat ensures !ReturnsWithin(l, n) {
        assert !StepsWithin(l, a + b, n);
      }
    }
  }

  /** So a direct stop() of a loop that nothing else stops makes run() return exactly
      if it comes after run() has cleared the flag. */
  lemma DirectStopReturnsIff(l: Loop)
    requires Inv(l) && !Stopping(l)
    ensures SureToReturn(Step(l, RequestStop)) <==> !BeforeReset(l)
  {
    StepInv(l, RequestStop);
    ReturnsIffStopping(Step(l, RequestStop));
  }

  // ---- a run in which a stop is lost ---------------------------------------------

  lemma ExecOne(l: Loop, a: Action)
    ensures Exec(l, [a]) == Step(l, a)
  {
    assert [a][..|[a]| - 1] == [];
  }

  lemma ExecTwo(l: Loop, a: Action, b: Action)
    ensures Exec(l, [a, b]) == Step(Step(l, a), b)
  {
    assert [a, b][..|[a, b]| - 1] == [a];
    assert [a][..|[a]| - 1] == [];
    assert Exec(l, [a]) == Step(l, a);
  }

  lemma {:induction false} ExecConcat(l: Loop, a: seq<Action>, b: seq<Action>)
    ensures Exec(l, a + b) == Exec(Exec(l, a), b)
  {
    if b == [] {
      assert a + b == a;
    } else {
      assert (a + b)[..|a + b| - 1] == a + b[..|b| - 1];
      ExecConcat(l, a, b[..|b| - 1]);
    }
  }

  lemma ExecFour(l: Loop, a: Action, b: Action, c: Action, d: Action)
    ensures Exec(l, [a, b, c, d]) == Step(Step(Step(Step(l, a), b), c), d)
  {
    ExecTwo(l, a, b);
    ExecTwo(Exec(l, [a, b]), c, d);
    ExecConcat(l, [a, b], [c, d]);
    assert [a, b, c, d] == [a, b] + [c, d];
  }

  /** The run in which a lone early stop() is lost: the flag is cleared, its wake
      token is consumed by the first poll, and the second poll blocks. */
  const EarlyStop: seq<Action> := [RequestStop, Wake, Start, Reset]
  const FirstRound: seq<Action> := [TestStop, Swap, RunNext, PollReturns]
  const SecondRound: seq<Action> := [Process(true), TestStop, Swap, RunNext]

  lemma FirstRoundState(l: Loop)
    requires l.pc.AtHead? && !l.stop && l.token && l.wakes == 0 && l.bufA == l.bufB == []
    ensures var m := Exec(l, FirstRound);
            m.pc.Woken? && !m.stop && m.wakes == 0 && m.bufA == m.bufB == []
  {
    ExecFour(l, TestStop, Swap, RunNext, PollReturns);
    var r := Step(Step(l, TestStop), Swap);
    assert r.pc.Running? && DrainBuf(r) == [] && r.token && !r.stop && r.wakes == 0;
  }

  lemma SecondRoundState(l: Loop)
    requires l.pc.Woken? && !l.stop && l.wakes == 0 && l.bufA == l.bufB == []
    ensures var m := Exec(l, SecondRound);
            m.pc.Polling? && !m.stop && !m.token && m.wakes == 0
  {
    ExecFour(l, Process(true), TestStop, Swap, RunNext);
    var r := Step(Step(Step(l, Process(true)), TestStop), Swap);
    assert r.pc.Running? && DrainBuf(r) == [] && !r.token && !r.stop && r.wakes == 0;
  }

  lemma LoneEarlyStopIsLost()
    ensures var l := Exec(Init(), EarlyStop + FirstRound + SecondRound);
            l.pc.Polling? && !l.stop && !l.token && l.wakes == 0
  {
    ExecConcat(Init(), EarlyStop + FirstRound, SecondRound);
    ExecConcat(Init(), EarlyStop, FirstRound);
    ExecFour(Init(), RequestStop, Wake, Start, Reset);
    FirstRoundState(Exec(Init(), EarlyStop));
    SecondRoundState(Exec(Exec(Init(), EarlyStop), FirstRound));
  }

  // ---- wakes and a loop that waits ---------------------------------------------------

  /** The posts and stops of other threads so far: each is followed by a wake. */
  function Signals(acts: seq<Action>): nat {
    if acts == [] then 0
    else Signals(acts[..|acts| - 1]) + var a := acts[|acts| - 1]; if a.Post? || a.RequestStop? then 1 else 0
  }

  function WakesGiven(l: Loop, acts: seq<Action>): nat {
    if acts == [] then 0
    else
      WakesGiven(l, acts[..|acts| - 1]) +
      if acts[|acts| - 1].Wake? && Exec(l, acts[..|acts| - 1]).wakes > 0 then 1 else 0
  }

  lemma WakeStep(l: Loop, a: Action)
    ensures Step(l, a).wakes + (if a.Wake? && l.wakes > 0 then 1 else 0) ==
            l.wakes + if a.Post? || a.RequestStop? then 1 else 0
  {
  }

  /** Every post and stop of another thread wakes the dispatcher once. */
  lemma {:induction false} WakesForEach(acts: seq<Action>)
    ensures Exec(Init(), acts).wakes + WakesGiven(Init(), acts) == Signals(acts)
  {
    if acts != [] {
      WakesForEach(acts[..|acts| - 1]);
      WakeStep(Exec(Init(), acts[..|acts| - 1]), acts[|acts| - 1]);
    }
  }

  /** What ends the wait of a loop in poll: another thread posts or stops it, a socket or
      timer is ready, or poll fails. */
  predicate Rouses(a: Action) {
    a.Post? || a.RequestStop? || a.IoReady? || a.PollFails?
  }

  /** A blocked loop stays as it is, whatever else happens, until one of these; a socket or
      timer that is ready has it handle events, and a failure has it leave. */
  lemma {:induction false} BlockedUntilRoused(l: Loop, acts: seq<Action>, a: Action)
    requires Blocked(l) && forall i :: 0 <= i < |acts| ==> !Rouses(acts[i])
    ensures Exec(l, acts) == l
    ensures Rouses(a) <==> Step(l, a) != l
    ensures a.IoReady? ==> Step(l, a) == l.(pc := Woken)
    ensures a.PollFails? ==> Step(l, a) == l.(pc := Left)
    decreases |acts|
  {
    BlockedStep(l, a);
    if acts != [] {
      BlockedUntilRoused(l, acts[..|acts| - 1], acts[|acts| - 1]);
    }
  }

  lemma BlockedStep(l: Loop, a: Action)
    requires Blocked(l)
    ensures Rouses(a) <==> Step(l, a) != l
    ensures a.IoReady? ==> Step(l, a) == l.(pc := Woken)
    ensures a.PollFails? ==> Step(l, a) == l.(pc := Left)
  {
    match a
    case Post(t) => StepPosted(l, a);
    case _ =>
  }

  /** A poll with its token set returns and, unless the events consume the token, so does
      the next. */
  lemma TokenEndsPoll(l: Loop, consume: bool)
    requires l.pc.Polling? && l.token
    ensures var w := Step(l, PollReturns);
            w == l.(pc := Woken) && Step(w, Process(consume)) == l.(pc := AtHead, token := !consume)
  {
  }
}
