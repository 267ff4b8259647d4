/** Shutdown of the thread pool comes to an end: after stop the workers take boundedly
many steps, but for tasks still submitted to serial queues, and until all have exited
one of them, or the notify_all, has a step to take. */
module CallbackShutdown {
  import opened CallbackStack
  import opened CallbackInvariant

  // ---- how much is left to do ----------------------------------------------------

  /** Steps a worker may still take for what it holds. */
  function Weight(w: Worker): nat {
    match w
    case Exited => 0
    case Asleep => 1
    case Ready => 1
    case Running(_) => 2
    case AtLock(_) => 2
    case Executing(_, _) => 3
  }

  function Weights(ws: seq<Worker>): nat {
    if ws == [] then 0 else Weights(ws[..|ws| - 1]) + Weight(ws[|ws| - 1])
  }

  function Waiting(sqs: seq<Serial>): nat {
    if sqs == [] then 0 else Waiting(sqs[..|sqs| - 1]) + |sqs[|sqs| - 1].pending|
  }

  function Rank(s: Stack): nat {
    2 * |s.pool.queue| + Weights(s.workers) + 2 * Waiting(s.serials)
  }

  lemma {:induction false} WeightsUpdate(ws: seq<Worker>, i: nat, w: Worker)
    requires i < |ws|
    ensures Weights(ws[i := w]) + Weight(ws[i]) == Weights(ws) + Weight(w)
  {
    var n := |ws| - 1;
    if i == n {
      assert ws[i := w][..n] == ws[..n];
    } else {
      WeightsUpdate(ws[..n], i, w);
      assert ws[i := w][..n] == ws[..n][i := w];
    }
  }

  lemma {:induction false} WaitingUpdate(sqs: seq<Serial>, q: nat, sq: Serial)
    requires q < |sqs|
    ensures Waiting(sqs[q := sq]) + |sqs[q].pending| == Waiting(sqs) + |sq.pending|
  {
    var n := |sqs| - 1;
    if q == n {
      assert sqs[q := sq][..n] == sqs[..n];
    } else {
      WaitingUpdate(sqs[..n], q, sq);
      assert sqs[q := sq][..n] == sqs[..n][q := sq];
    }
  }

  lemma {:induction false} WeightsSame(ws: seq<Worker>, vs: seq<Worker>)
    requires |ws| == |vs| && forall i :: 0 <= i < |ws| ==> Weight(ws[i]) == Weight(vs[i])
    ensures Weights(ws) == Weights(vs)
  {
    if ws != [] { WeightsSame(ws[..|ws| - 1], vs[..|vs| - 1]); }
  }

  // ---- the steps of the workers ---------------------------------------------------

  /** Whether the action is a step that its worker can take. */
  predicate WorkerStep(s: Stack, a: Action) {
    match a
    case CheckQueue(w) => w < |s.workers| && s.workers[w].Ready?
    case LockSerial(w) => w < |s.workers| && s.workers[w].AtLock? && s.workers[w].q < |s.serials|
    case FinishTask(w) =>
      w < |s.workers| && (s.workers[w].Running? || (s.workers[w].Executing? && s.workers[w].q < |s.serials|))
    case _ => false
  }

  lemma CheckRank(s: Stack, w: nat)
    requires s.pool.stopped && w < |s.workers| && s.workers[w].Ready?
    ensures Rank(WorkerChecks(s, w)) < Rank(s)
  {
    WeightsUpdate(s.workers, w, WorkerChecks(s, w).workers[w]);
  }

  lemma LockRank(s: Stack, w: nat, q: nat)
    requires w < |s.workers| && q < |s.serials| && s.workers[w] == AtLock(q)
    ensures Rank(DrainLocks(s, w, q)) < Rank(s)
  {
    var s' := DrainLocks(s, w, q);
    WeightsUpdate(s.workers, w, s'.workers[w]);
    WaitingUpdate(s.serials, q, s'.serials[q]);
  }

  lemma FinishRank(s: Stack, w: nat)
    requires WorkerStep(s, FinishTask(w))
    ensures Rank(TaskEnds(s, w)) < Rank(s)
  {
    var s' := TaskEnds(s, w);
    WeightsUpdate(s.workers, w, s'.workers[w]);
    if s.workers[w].Executing? { WaitingUpdate(s.serials, s.workers[w].q, s'.serials[s.workers[w].q]); }
  }

  lemma WorkerRank(s: Stack, a: Action)
    requires s.pool.stopped && WorkerStep(s, a)
    ensures Rank(Step(s, a)) < Rank(s)
  {
    match a
    case CheckQueue(w) => CheckRank(s, w);
    case LockSerial(w) => LockRank(s, w, s.workers[w].q);
    case FinishTask(w) => FinishRank(s, w);
  }

  /** Other steps leave the rank alone, but for a task submitted to a serial queue:
      the pool itself takes nothing any more. */
  lemma OtherRank(s: Stack, a: Action)
    requires s.pool.stopped && !WorkerStep(s, a)
    ensures Rank(Step(s, a)) <= Rank(s) + if a.SubmitSerial? then 2 else 0
  {
    match a
    case SubmitSerial(q, t) => if q < |s.serials| { WaitingUpdate(s.serials, q, Step(s, a).serials[q]); }
    case NotifyOne(w) => if w < |s.workers| && s.workers[w].Asleep? { WeightsUpdate(s.workers, w, Ready); }
    case WakeSpuriously(w) => if w < |s.workers| && s.workers[w].Asleep? { WeightsUpdate(s.workers, w, Ready); }
    case NotifyAll => WeightsSame(WakeAll(s.workers), s.workers);
    case _ =>
  }

  /** The steps that workers take in a run. */
  function WorkerSteps(s: Stack, acts: seq<Action>): nat {
    if acts == [] then 0
    else
      var before, last := acts[..|acts| - 1], acts[|acts| - 1];
      WorkerSteps(s, before) + if WorkerStep(Exec(s, before), last) then 1 else 0
  }

  function SerialSubmits(acts: seq<Action>): nat {
    if acts == [] then 0
    else SerialSubmits(acts[..|acts| - 1]) + if acts[|acts| - 1].SubmitSerial? then 1 else 0
  }

  lemma {:induction false} StaysStopped(s: Stack, acts: seq<Action>)
    requires s.pool.stopped
    ensures Exec(s, acts).pool.stopped
  {
    if acts != [] { StaysStopped(s, acts[..|acts| - 1]); }
  }

  /** After stop, every continuation has at most `Rank` steps of the workers, plus two
      for each task submitted to a serial queue meanwhile. */
  lemma {:induction false} ShutdownEnds(s: Stack, acts: seq<Action>)
    requires s.pool.stopped
    ensures WorkerSteps(s, acts) + Rank(Exec(s, acts)) <= Rank(s) + 2 * SerialSubmits(acts)
  {
    if acts != [] {
      var before, last := acts[..|acts| - 1], acts[|acts| - 1];
      ShutdownEnds(s, before);
      StaysStopped(s, before);
      if WorkerStep(Exec(s, before), last) {
        WorkerRank(Exec(s, before), last);
      } else {
        OtherRank(Exec(s, before), last);
      }
    }
  }

  // ---- and nobody is stuck ----------------------------------------------------------

  /** Every drain is of a queue that exists. */
  predicate DrainsKnown(s: Stack) {
    && (forall i :: 0 <= i < |s.pool.queue| && s.pool.queue[i].Drain? ==> s.pool.queue[i].q < |s.serials|)
    && (forall i :: 0 <= i < |s.workers| && (s.workers[i].AtLock? || s.workers[i].Executing?) ==>
          s.workers[i].q < |s.serials|)
  }

  lemma StepDrainsKnown(s: Stack, a: Action)
    requires DrainsKnown(s)
    ensures DrainsKnown(Step(s, a))
  {
  }

  lemma {:induction false} ExecDrainsKnown(s: Stack, acts: seq<Action>)
    requires DrainsKnown(s)
    ensures DrainsKnown(Exec(s, acts))
  {
    if acts != [] {
      ExecDrainsKnown(s, acts[..|acts| - 1]);
      StepDrainsKnown(Exec(s, acts[..|acts| - 1]), acts[|acts| - 1]);
    }
  }

  /** The step of a worker that is not asleep. */
  function NextStep(w: nat, worker: Worker): Action {
    if worker.Ready? then CheckQueue(w) else if worker.AtLock? then LockSerial(w) else FinishTask(w)
  }

  lemma SomeStep(s: Stack)
    requires Roused(s) && DrainsKnown(s) && s.pool.stopped && !s.pool.notifyAll && !AllExited(s.workers)
    ensures exists a :: WorkerStep(s, a)
  {
    var w :| 0 <= w < |s.workers| && !s.workers[w].Exited?;
    assert !s.workers[w].Asleep?;
    assert WorkerStep(s, NextStep(w, s.workers[w]));
  }

  /** In every reachable state after stop the notify_all is still to be delivered, or
      some worker has a step, or all have exited and shutdown can return. */
  lemma ShutdownNeverStuck(limit: nat, threads: nat, queues: nat, acts: seq<Action>)
    requires threads > 0
    ensures var s := Exec(Init(limit, threads, queues), acts);
            s.pool.stopped ==>
              s.pool.notifyAll || (exists a :: WorkerStep(s, a)) || Step(s, Join).pool.joined
  {
    var s := Exec(Init(limit, threads, queues), acts);
    InitInv(limit, threads, queues);
    ExecInv(Init(limit, threads, queues), acts);
    ExecDrainsKnown(Init(limit, threads, queues), acts);
    if s.pool.stopped && !s.pool.notifyAll && !AllExited(s.workers) { SomeStep(s); }
  }
}
