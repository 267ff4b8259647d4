/** Every step of the callback stack keeps its invariant. */
module CallbackInvariant {
  import opened CallbackStack

  // ---- job history -----------------------------------------------------------

  lemma SubmitKeepsJobs(s: Stack, j: Job)
    requires JobsKept(s)
    ensures JobsKept(s.(pool := SubmitJob(s.pool, j)))
  {
    assert s.pool.started + s.pool.queue + [j] == s.pool.started + (s.pool.queue + [j]);
  }

  /** The balance of started, finished and held jobs after worker `w` becomes `v`. */
  lemma Rebalance(s: Stack, s': Stack, w: nat, v: Worker)
    requires JobsKept(s) && w < |s.workers| && s'.workers == s.workers[w := v]
    requires s'.pool.accepted == s'.pool.started + s'.pool.queue
    requires forall j :: Count(s'.pool.started, j) + Holds(s.workers[w], j) + Count(s.pool.finished, j) ==
                         Count(s.pool.started, j) + Holds(v, j) + Count(s'.pool.finished, j)
    ensures JobsKept(s')
  {
    forall j ensures Count(s'.pool.started, j) == Count(s'.pool.finished, j) + Held(s'.workers, j) {
      HeldUpdate(s.workers, w, v, j);
    }
  }

  lemma CheckKeepsJobs(s: Stack, w: nat)
    requires JobsKept(s) && w < |s.workers| && s.workers[w].Ready?
    ensures JobsKept(WorkerChecks(s, w))
  {
    var p, s' := s.pool, WorkerChecks(s, w);
    if p.queue != [] {
      assert p.started + p.queue == (p.started + [p.queue[0]]) + p.queue[1..];
      forall j ensures Count(s'.pool.started, j) == Count(p.started, j) + Holds(Begin(p.queue[0]), j) {
        CountAppend(p.started, p.queue[0], j);
      }
    }
    Rebalance(s, s', w, s'.workers[w]);
  }

  lemma LockKeepsJobs(s: Stack, w: nat, q: nat)
    requires JobsKept(s) && w < |s.workers| && q < |s.serials| && s.workers[w] == AtLock(q)
    ensures JobsKept(DrainLocks(s, w, q))
  {
    var s' := DrainLocks(s, w, q);
    forall j ensures Count(s.pool.finished + [Drain(q)], j) == Count(s.pool.finished, j) + Holds(AtLock(q), j) {
      CountAppend(s.pool.finished, Drain(q), j);
    }
    Rebalance(s, s', w, s'.workers[w]);
  }

  lemma FinishKeepsJobs(s: Stack, w: nat)
    requires JobsKept(s) && w < |s.workers| && (s.workers[w].Running? || s.workers[w].Executing?)
    ensures JobsKept(TaskEnds(s, w))
  {
    var s' := TaskEnds(s, w);
    if s.workers[w].Running? {
      var x := Plain(s.workers[w].task);
      forall j ensures Count(s.pool.finished + [x], j) == Count(s.pool.finished, j) + Holds(s.workers[w], j) {
        CountAppend(s.pool.finished, x, j);
      }
    }
    Rebalance(s, s', w, s'.workers[w]);
  }

  lemma WakeAllHeld(ws: seq<Worker>, j: Job)
    ensures Held(WakeAll(ws), j) == Held(ws, j)
  {
    HeldSame(WakeAll(ws), ws, j);
  }

  lemma WakeAllKeepsJobs(s: Stack)
    requires JobsKept(s)
    ensures JobsKept(Step(s, NotifyAll))
  {
    forall j ensures Held(WakeAll(s.workers), j) == Held(s.workers, j) {
      WakeAllHeld(s.workers, j);
    }
  }

  lemma StepKeepsJobs(s: Stack, a: Action)
    requires JobsKept(s)
    ensures JobsKept(Step(s, a))
  {
    match a
    case SubmitPlain(t) => SubmitKeepsJobs(s, Plain(t));
    case SubmitSerial(q, t) => SubmitKeepsJobs(s, Drain(q));
    case NotifyOne(w) =>
      if w < |s.workers| && s.workers[w].Asleep? && s.pool.notifyOne > 0 { Rebalance(s, Step(s, a), w, Ready); }
    case NotifyAll => WakeAllKeepsJobs(s);
    case WakeSpuriously(w) => if w < |s.workers| && s.workers[w].Asleep? { Rebalance(s, Step(s, a), w, Ready); }
    case CheckQueue(w) => if w < |s.workers| && s.workers[w].Ready? { CheckKeepsJobs(s, w); }
    case LockSerial(w) =>
      if w < |s.workers| && s.workers[w].AtLock? && s.workers[w].q < |s.serials| {
        LockKeepsJobs(s, w, s.workers[w].q);
      }
    case FinishTask(w) =>
      if w < |s.workers| && (s.workers[w].Running? || s.workers[w].Executing?) { FinishKeepsJobs(s, w); }
    case _ =>
  }

  // ---- notifications ---------------------------------------------------------

  lemma SetAwake(ws: seq<Worker>, i: nat, w: Worker)
    requires i < |ws| && Awake(w)
    ensures SomeAwake(ws[i := w])
    ensures AnyAsleep(ws[i := w]) ==> AnyAsleep(ws)
  {
    assert Awake(ws[i := w][i]);
    if AnyAsleep(ws[i := w]) {
      var k :| 0 <= k < |ws| && ws[i := w][k].Asleep?;
      assert ws[k].Asleep?;
    }
  }

  lemma CheckKeepsRoused(s: Stack, w: nat)
    requires Roused(s) && w < |s.workers| && s.workers[w].Ready?
    ensures Roused(WorkerChecks(s, w))
  {
    if s.pool.queue != [] {
      SetAwake(s.workers, w, Begin(s.pool.queue[0]));
    }
  }

  lemma StepKeepsRoused(s: Stack, a: Action)
    requires Roused(s)
    ensures Roused(Step(s, a))
  {
    match a
    case NotifyOne(w) =>
      if w < |s.workers| && s.workers[w].Asleep? {
        SetAwake(s.workers, w, Ready);
      } else if s.pool.queue != [] && !AnyAsleep(s.workers) {
        assert Awake(s.workers[0]);
      }
    case NotifyAll => if s.pool.queue != [] { assert Awake(WakeAll(s.workers)[0]); }
    case WakeSpuriously(w) => if w < |s.workers| { SetAwake(s.workers, w, Ready); }
    case CheckQueue(w) => if w < |s.workers| && s.workers[w].Ready? { CheckKeepsRoused(s, w); }
    case LockSerial(w) => LockKeepsRoused(s, w);
    case FinishTask(w) => FinishKeepsRoused(s, w);
    case _ =>
  }

  lemma LockKeepsRoused(s: Stack, w: nat)
    requires Roused(s)
    ensures Roused(Step(s, LockSerial(w)))
  {
    var s' := Step(s, LockSerial(w));
    if w < |s.workers| && Awake(s'.workers[w]) { SetAwake(s.workers, w, s'.workers[w]); }
  }

  lemma FinishKeepsRoused(s: Stack, w: nat)
    requires Roused(s)
    ensures Roused(Step(s, FinishTask(w)))
  {
    var s' := Step(s, FinishTask(w));
    if w < |s.workers| && Awake(s'.workers[w]) { SetAwake(s.workers, w, s'.workers[w]); }
  }

  // ---- serial queues -----------------------------------------------------------

  /** A step that moves no drain and touches neither queue `q` nor a worker executing for it. */
  lemma SerialFrame(s: Stack, s': Stack, q: nat)
    requires q < |s.serials| && q < |s'.serials| && s'.serials[q] == s.serials[q]
    requires SerialOk(s.serials[q], Live(s, q)) && Executes(s, q)
    requires Live(s', q) == Live(s, q) && |s'.workers| == |s.workers|
    requires forall i :: 0 <= i < |s.workers| ==>
               s'.workers[i] == s.workers[i] ||
               !((s.workers[i].Executing? && s.workers[i].q == q) || (s'.workers[i].Executing? && s'.workers[i].q == q))
    ensures SerialOk(s'.serials[q], Live(s', q)) && Executes(s', q)
  {
    if forall i :: 0 <= i < |s'.workers| && s'.workers[i].Executing? ==> s'.workers[i].q != q {
      assert forall i :: 0 <= i < |s.workers| && s.workers[i].Executing? ==> s.workers[i].q != q;
    }
  }

  lemma LiveSubmit(p: Pool, j: Job, q: nat)
    ensures Count(SubmitJob(p, j).queue, Drain(q)) ==
            Count(p.queue, Drain(q)) + if !Refuses(p) && j == Drain(q) then 1 else 0
  {
  }

  lemma SubmitPlainKeepsSerial(s: Stack, t: Work)
    requires Serialized(s)
    ensures Serialized(Step(s, SubmitPlain(t)))
  {
    var s' := Step(s, SubmitPlain(t));
    forall q | 0 <= q < |s'.serials| ensures SerialOk(s'.serials[q], Live(s', q)) && Executes(s', q) {
      LiveSubmit(s.pool, Plain(t), q);
      SerialFrame(s, s', q);
    }
  }

  lemma SubmitSerialKeepsSerial(s: Stack, q: nat, t: Work)
    requires Serialized(s) && q < |s.serials|
    ensures Serialized(SerialSubmit(s, q, t))
  {
    var s' := SerialSubmit(s, q, t);
    forall k | 0 <= k < |s'.serials| ensures SerialOk(s'.serials[k], Live(s', k)) && Executes(s', k) {
      LiveSubmit(s.pool, Drain(q), k);
      if k != q { SerialFrame(s, s', k); } else { SubmitKeepsOwn(s, q, t); }
    }
  }

  lemma SubmitKeepsOwn(s: Stack, q: nat, t: Work)
    requires SerialOkAt(s, q) && Executes(s, q)
    ensures var s' := SerialSubmit(s, q, t); SerialOk(s'.serials[q], Live(s', q)) && Executes(s', q)
  {
    var sq := s.serials[q];
    LiveSubmit(s.pool, Drain(q), q);
    assert sq.started + sq.pending + [t] == sq.started + (sq.pending + [t]);
  }

  /** Replacing a worker by one that holds the same job and executes nothing. */
  lemma WorkerFrame(s: Stack, s': Stack, w: nat, v: Worker)
    requires Serialized(s) && w < |s.workers| && !s.workers[w].Executing? && !v.Executing?
    requires s'.workers == s.workers[w := v] && s'.serials == s.serials
    requires forall q :: Count(s'.pool.queue, Drain(q)) + Holds(v, Drain(q)) ==
                         Count(s.pool.queue, Drain(q)) + Holds(s.workers[w], Drain(q))
    ensures Serialized(s')
  {
    forall q | 0 <= q < |s'.serials| ensures SerialOk(s'.serials[q], Live(s', q)) && Executes(s', q) {
      HeldUpdate(s.workers, w, v, Drain(q));
      SerialFrame(s, s', q);
    }
  }

  lemma CheckKeepsSerial(s: Stack, w: nat)
    requires Serialized(s) && w < |s.workers| && s.workers[w].Ready?
    ensures Serialized(WorkerChecks(s, w))
  {
    var s' := WorkerChecks(s, w);
    if s.pool.queue != [] {
      forall q ensures Count(s.pool.queue, Drain(q)) == Count(s'.pool.queue, Drain(q)) + Holds(s'.workers[w], Drain(q)) {
        CountPop(s.pool.queue, Drain(q));
      }
    }
    WorkerFrame(s, s', w, s'.workers[w]);
  }

  lemma WakeAllKeepsSerial(s: Stack)
    requires Serialized(s)
    ensures Serialized(Step(s, NotifyAll))
  {
    var s' := Step(s, NotifyAll);
    forall q | 0 <= q < |s'.serials| ensures SerialOk(s'.serials[q], Live(s', q)) && Executes(s', q) {
      WakeAllHeld(s.workers, Drain(q));
      SerialFrame(s, s', q);
    }
  }

  ghost predicate SerialOkAt(s: Stack, q: nat) {
    q < |s.serials| && SerialOk(s.serials[q], Live(s, q))
  }

  /** At most one worker is in the drain of `q`. */
  lemma OnlyOne(s: Stack, w: nat, i: nat, q: nat)
    requires SerialOkAt(s, q) && w < |s.workers| && i < |s.workers|
    requires Holds(s.workers[w], Drain(q)) == Holds(s.workers[i], Drain(q)) == 1
    ensures w == i
  {
    if w < i {
      HeldTwice(s.workers, w, i, Drain(q));
    } else if i < w {
      HeldTwice(s.workers, i, w, Drain(q));
    }
  }

  /** No worker but `w` executes for the queue whose drain `w` is in. */
  lemma Alone(s: Stack, w: nat, q: nat)
    requires SerialOkAt(s, q) && w < |s.workers| && Holds(s.workers[w], Drain(q)) == 1
    ensures forall i :: 0 <= i < |s.workers| && s.workers[i].Executing? && s.workers[i].q == q ==> i == w
    ensures s.serials[q].draining && !s.serials[q].refused
  {
    forall i | 0 <= i < |s.workers| && s.workers[i].Executing? && s.workers[i].q == q ensures i == w {
      OnlyOne(s, w, i, q);
    }
    HeldUpdate(s.workers, w, Asleep, Drain(q));
  }

  lemma LockKeepsOwn(s: Stack, w: nat, q: nat)
    requires SerialOkAt(s, q) && w < |s.workers| && s.workers[w] == AtLock(q) && Executes(s, q)
    ensures var s' := DrainLocks(s, w, q); SerialOk(s'.serials[q], Live(s', q)) && Executes(s', q)
  {
    var s' := DrainLocks(s, w, q);
    var sq := s.serials[q];
    HeldUpdate(s.workers, w, s'.workers[w], Drain(q));
    Alone(s, w, q);
    assert sq.started == sq.finished;
    if sq.pending != [] {
      assert s'.workers[w].Executing?;
      assert sq.started + sq.pending == (sq.started + [sq.pending[0]]) + sq.pending[1..];
    }
  }

  lemma LockKeepsOther(s: Stack, w: nat, q: nat, k: nat)
    requires SerialOkAt(s, k) && Executes(s, k) && k != q
    requires w < |s.workers| && q < |s.serials| && s.workers[w] == AtLock(q)
    ensures var s' := DrainLocks(s, w, q); SerialOk(s'.serials[k], Live(s', k)) && Executes(s', k)
  {
    var s' := DrainLocks(s, w, q);
    HeldUpdate(s.workers, w, s'.workers[w], Drain(k));
    SerialFrame(s, s', k);
  }

  lemma LockKeepsSerial(s: Stack, w: nat, q: nat)
    requires Serialized(s) && w < |s.workers| && q < |s.serials| && s.workers[w] == AtLock(q)
    ensures Serialized(DrainLocks(s, w, q))
  {
    forall k | 0 <= k < |s.serials|
      ensures var s' := DrainLocks(s, w, q); SerialOk(s'.serials[k], Live(s', k)) && Executes(s', k)
    {
      if k != q { LockKeepsOther(s, w, q, k); } else { LockKeepsOwn(s, w, q); }
    }
  }

  lemma FinishKeepsOwn(s: Stack, w: nat, q: nat, t: Work)
    requires SerialOkAt(s, q) && w < |s.workers| && s.workers[w] == Executing(q, t) && Executes(s, q)
    ensures var s' := TaskEnds(s, w); SerialOk(s'.serials[q], Live(s', q)) && Executes(s', q)
  {
    HeldUpdate(s.workers, w, AtLock(q), Drain(q));
    Alone(s, w, q);
  }

  lemma FinishKeepsOther(s: Stack, w: nat, q: nat, t: Work, k: nat)
    requires SerialOkAt(s, k) && Executes(s, k) && k != q
    requires w < |s.workers| && q < |s.serials| && s.workers[w] == Executing(q, t)
    ensures var s' := TaskEnds(s, w); SerialOk(s'.serials[k], Live(s', k)) && Executes(s', k)
  {
    HeldUpdate(s.workers, w, AtLock(q), Drain(k));
    SerialFrame(s, TaskEnds(s, w), k);
  }

  lemma FinishKeepsSerial(s: Stack, w: nat)
    requires Serialized(s) && w < |s.workers| && (s.workers[w].Running? || s.workers[w].Executing?)
    ensures Serialized(TaskEnds(s, w))
  {
    match s.workers[w]
    case Running(t) => WorkerFrame(s, TaskEnds(s, w), w, Ready);
    case Executing(q, t) =>
      if q < |s.serials| {
        forall k | 0 <= k < |s.serials|
          ensures var s' := TaskEnds(s, w); SerialOk(s'.serials[k], Live(s', k)) && Executes(s', k)
        {
          if k != q { FinishKeepsOther(s, w, q, t, k); } else { FinishKeepsOwn(s, w, q, t); }
        }
      }
  }

  lemma StepKeepsSerial(s: Stack, a: Action)
    requires Serialized(s)
    ensures Serialized(Step(s, a))
  {
    var s' := Step(s, a);
    match a
    case SubmitPlain(t) => SubmitPlainKeepsSerial(s, t);
    case SubmitSerial(q, t) => if q < |s.serials| { SubmitSerialKeepsSerial(s, q, t); }
    case NotifyOne(w) =>
      if w < |s.workers| && s.workers[w].Asleep? && s.pool.notifyOne > 0 { WorkerFrame(s, s', w, Ready); }
    case NotifyAll => WakeAllKeepsSerial(s);
    case WakeSpuriously(w) => if w < |s.workers| && s.workers[w].Asleep? { WorkerFrame(s, s', w, Ready); }
    case CheckQueue(w) => if w < |s.workers| && s.workers[w].Ready? { CheckKeepsSerial(s, w); }
    case LockSerial(w) =>
      if w < |s.workers| && s.workers[w].AtLock? && s.workers[w].q < |s.serials| {
        LockKeepsSerial(s, w, s.workers[w].q);
      }
    case FinishTask(w) =>
      if w < |s.workers| && (s.workers[w].Running? || s.workers[w].Executing?) { FinishKeepsSerial(s, w); }
    case _ =>
  }

  lemma StepInv(s: Stack, a: Action)
    requires Inv(s)
    ensures Inv(Step(s, a))
  {
    StepKeepsJobs(s, a);
    StepKeepsRoused(s, a);
    StepKeepsSerial(s, a);
  }

  lemma {:induction false} ExecInv(s: Stack, acts: seq<Action>)
    requires Inv(s)
    ensures Inv(Exec(s, acts))
  {
    if acts != [] {
      ExecInv(s, acts[..|acts| - 1]);
      StepInv(Exec(s, acts[..|acts| - 1]), acts[|acts| - 1]);
    }
  }

  lemma InitInv(limit: nat, threads: nat, queues: nat)
    requires threads > 0
    ensures Inv(Init(limit, threads, queues))
  {
    var s := Init(limit, threads, queues);
    forall j ensures Held(s.workers, j) == 0 {
      HeldNone(s.workers, j);
    }
    assert Awake(s.workers[0]);
  }
}
