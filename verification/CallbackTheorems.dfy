/** What the thread pool and the serial queues guarantee on every interleaving. */
module CallbackTheorems {
  import opened CallbackStack
  import opened CallbackInvariant

  predicate ExecutesFor(s: Stack, i: nat, q: nat) {
    i < |s.workers| && s.workers[i].Executing? && s.workers[i].q == q
  }

  /** Serial execution. Of each queue at most one drain is queued or running, no
      two workers execute its tasks at the same time, and the tasks started and
      finished are prefixes of the tasks submitted. While no drain was refused,
      waiting tasks have exactly one live drain. */
  lemma SerialExecution(limit: nat, threads: nat, queues: nat, acts: seq<Action>, q: nat)
    requires threads > 0
    ensures var s := Exec(Init(limit, threads, queues), acts);
            q < |s.serials| ==>
              var sq := s.serials[q];
              && Live(s, q) <= 1
              && (forall i, k :: ExecutesFor(s, i, q) && ExecutesFor(s, k, q) ==> i == k)
              && sq.finished <= sq.started <= sq.submitted
              && sq.submitted == sq.started + sq.pending
              && (!sq.refused && sq.pending != [] ==> Live(s, q) == 1)
  {
    var s := Exec(Init(limit, threads, queues), acts);
    InitInv(limit, threads, queues);
    ExecInv(Init(limit, threads, queues), acts);
    if q < |s.serials| {
      assert SerialOk(s.serials[q], Live(s, q)) && Executes(s, q);
      forall i, k | ExecutesFor(s, i, q) && ExecutesFor(s, k, q) ensures i == k {
        OnlyOne(s, i, k, q);
      }
      FinishedPrefix(s, q);
    }
  }

  lemma FinishedPrefix(s: Stack, q: nat)
    requires q < |s.serials| && Executes(s, q)
    ensures s.serials[q].finished <= s.serials[q].started
  {
    if i :| 0 <= i < |s.workers| && s.workers[i].Executing? && s.workers[i].q == q {
      assert s.serials[q].started == s.serials[q].finished + [s.workers[i].task];
    }
  }

  /** A queue whose drain flag is set without a live drain is exactly one whose
      drain the pool refused: serial_queue::submit ignores the pool's answer. */
  lemma StuckIffRefused(limit: nat, threads: nat, queues: nat, acts: seq<Action>, q: nat)
    requires threads > 0
    ensures var s := Exec(Init(limit, threads, queues), acts);
            q < |s.serials| ==> (s.serials[q].draining && Live(s, q) == 0 <==> s.serials[q].refused)
  {
    InitInv(limit, threads, queues);
    ExecInv(Init(limit, threads, queues), acts);
  }

  lemma StepRefused(s: Stack, q: nat, a: Action)
    requires Inv(s) && q < |s.serials| && s.serials[q].refused
    ensures q < |Step(s, a).serials|
    ensures Step(s, a).serials[q].refused && Step(s, a).serials[q].started == s.serials[q].started
  {
    assert SerialOk(s.serials[q], Live(s, q));
    forall w | 0 <= w < |s.workers| ensures Holds(s.workers[w], Drain(q)) == 0 {
      HeldUpdate(s.workers, w, Asleep, Drain(q));
    }
  }

  /** After a refusal no continuation ever starts another task of that queue. */
  lemma {:induction false} RefusedIsForever(s: Stack, q: nat, acts: seq<Action>)
    requires Inv(s) && q < |s.serials| && s.serials[q].refused
    ensures var e := Exec(s, acts);
            q < |e.serials| && e.serials[q].refused && e.serials[q].started == s.serials[q].started
  {
    if acts != [] {
      RefusedIsForever(s, q, acts[..|acts| - 1]);
      ExecInv(s, acts[..|acts| - 1]);
      StepRefused(Exec(s, acts[..|acts| - 1]), q, acts[|acts| - 1]);
    }
  }

  /** When a submit leaves its queue stuck: only if the queue was idle and the
      pool was stopped or full at that moment, and then always. */
  lemma SubmitSticksIff(s: Stack, q: nat, t: Work)
    requires Inv(s) && q < |s.serials| && !s.serials[q].refused
    ensures var s' := Step(s, SubmitSerial(q, t));
            Live(s', q) == 0 <==>
            !s.serials[q].draining && (s.pool.stopped || (s.pool.limit > 0 && |s.pool.queue| >= s.pool.limit))
  {
    StepInv(s, SubmitSerial(q, t));
    var s' := Step(s, SubmitSerial(q, t));
    assert SerialOk(s.serials[q], Live(s, q)) && SerialOk(s'.serials[q], Live(s', q));
  }

  /** The state right after a bounded pool of one slot got drains of two queues. */
  lemma RefusalHappens(threads: nat, a: Work, b: Work)
    requires threads > 0
    ensures var s := Exec(Init(1, threads, 2), [SubmitSerial(0, a), SubmitSerial(1, b)]);
            |s.serials| == 2 && s.serials[1].pending == [b] && Live(s, 1) == 0
  {
    var s0: Stack := Init(1, threads, 2);
    var s1 := Step(s0, SubmitSerial(0, a));
    assert [SubmitSerial(0, a), SubmitSerial(1, b)][..1] == [SubmitSerial(0, a)];
    assert [SubmitSerial(0, a)][..0] == [];
    assert Exec(s0, [SubmitSerial(0, a)]) == s1;
    InitInv(1, threads, 2);
    StepInv(s0, SubmitSerial(0, a));
    PoolFull(threads, a);
    SubmitSticksIff(s1, 1, b);
  }

  lemma PoolFull(threads: nat, a: Work)
    ensures var s := Step(Init(1, threads, 2), SubmitSerial(0, a));
            && |s.serials| == 2 && s.serials[1] == Serial([], false, false, [], [], [])
            && s.pool.limit == 1 && |s.pool.queue| == 1
  {
  }

  /** Pool drain on shutdown. Jobs start in acceptance order; when shutdown
      returns, every accepted job has been executed exactly once, and every queue
      whose drains were accepted has finished all tasks submitted to it. */
  lemma DrainedOnShutdown(limit: nat, threads: nat, queues: nat, acts: seq<Action>)
    requires threads > 0
    ensures var s := Exec(Init(limit, threads, queues), acts);
            && s.pool.started <= s.pool.accepted
            && (s.pool.joined ==>
                  && s.pool.started == s.pool.accepted
                  && multiset(s.pool.finished) == multiset(s.pool.accepted)
                  && (forall q :: 0 <= q < |s.serials| && !s.serials[q].refused ==>
                        s.serials[q].finished == s.serials[q].submitted))
  {
    var s := Exec(Init(limit, threads, queues), acts);
    InitInv(limit, threads, queues);
    ExecInv(Init(limit, threads, queues), acts);
    if s.pool.joined { JoinedState(s); }
  }

  lemma JoinedState(s: Stack)
    requires Inv(s) && s.pool.joined
    ensures s.pool.started == s.pool.accepted && multiset(s.pool.finished) == multiset(s.pool.accepted)
    ensures forall q :: 0 <= q < |s.serials| && !s.serials[q].refused ==>
              s.serials[q].finished == s.serials[q].submitted
  {
    assert s.workers[0].Exited?;
    assert s.pool.queue == [];
    assert s.pool.started + [] == s.pool.started;
    forall j ensures Held(s.workers, j) == 0 && Count(s.pool.started, j) == Count(s.pool.finished, j) {
      HeldNone(s.workers, j);
    }
    assert forall j :: multiset(s.pool.finished)[j] == multiset(s.pool.started)[j] by {
      forall j ensures multiset(s.pool.finished)[j] == multiset(s.pool.started)[j] {
        assert Count(s.pool.started, j) == Count(s.pool.finished, j);
      }
    }
    forall q | 0 <= q < |s.serials| && !s.serials[q].refused
      ensures s.serials[q].finished == s.serials[q].submitted
    {
      assert SerialOk(s.serials[q], Live(s, q)) && Executes(s, q);
    }
  }

  /** Nothing is accepted after stop. */
  lemma {:induction false} NothingAcceptedAfterStop(s: Stack, acts: seq<Action>)
    requires s.pool.stopped
    ensures var e := Exec(s, acts); e.pool.stopped && e.pool.accepted == s.pool.accepted
  {
    if acts != [] {
      NothingAcceptedAfterStop(s, acts[..|acts| - 1]);
      StoppedStep(Exec(s, acts[..|acts| - 1]), acts[|acts| - 1]);
    }
  }

  lemma StoppedStep(s: Stack, a: Action)
    requires s.pool.stopped
    ensures Step(s, a).pool.stopped && Step(s, a).pool.accepted == s.pool.accepted
  {
  }

  /** No lost wake-up. Queued jobs never face only sleeping or exited workers
      without a notify_one still to be delivered, and after stop no worker sleeps
      unless the notify_all is still to be delivered. */
  lemma NoLostWakeup(limit: nat, threads: nat, queues: nat, acts: seq<Action>)
    requires threads > 0
    ensures var s := Exec(Init(limit, threads, queues), acts);
            && (s.pool.queue != [] && !SomeAwake(s.workers) ==> s.pool.notifyOne > 0)
            && (s.pool.stopped && AnyAsleep(s.workers) ==> s.pool.notifyAll)
            && (s.pool.stopped && !s.pool.notifyAll ==> AllExited(s.workers) || SomeAwake(s.workers))
  {
    var s := Exec(Init(limit, threads, queues), acts);
    InitInv(limit, threads, queues);
    ExecInv(Init(limit, threads, queues), acts);
    if s.pool.stopped && !s.pool.notifyAll && !AllExited(s.workers) {
      var i :| 0 <= i < |s.workers| && !s.workers[i].Exited?;
      assert !s.workers[i].Asleep?;
      assert Awake(s.workers[i]);
    }
  }
}
