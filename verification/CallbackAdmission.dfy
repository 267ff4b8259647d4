/** Which jobs the pool takes and which tasks the serial queues hold, in every run, in
terms of what was submitted. A pool with limit 0 has no limit. */
module CallbackAdmission {
  import opened CallbackStack
  import opened CallbackInvariant
  import opened CallbackTheorems

  /** The job an action offers to the pool: a task submitted directly, or a drain for a
      serial queue that has none. */
  function OfferedBy(s: Stack, a: Action): seq<Job> {
    match a
    case SubmitPlain(t) => [Plain(t)]
    case SubmitSerial(q, _) => if q < |s.serials| && !s.serials[q].draining then [Drain(q)] else []
    case _ => []
  }

  function Offered(s: Stack, acts: seq<Action>): seq<Job> {
    if acts == [] then []
    else Offered(s, acts[..|acts| - 1]) + OfferedBy(Exec(s, acts[..|acts| - 1]), acts[|acts| - 1])
  }

  /** The jobs offered while the pool was not stopped and below its limit. */
  function Admitted(s: Stack, acts: seq<Action>): seq<Job> {
    if acts == [] then []
    else
      var before := acts[..|acts| - 1];
      var p := Exec(s, before).pool;
      Admitted(s, before) +
      if Shutdown !in before && (s.pool.limit == 0 || |p.queue| < s.pool.limit)
      then OfferedBy(Exec(s, before), acts[|acts| - 1]) else []
  }

  lemma AdmitStep(s: Stack, a: Action)
    ensures Step(s, a).pool.accepted == s.pool.accepted +
              if !s.pool.stopped && (s.pool.limit == 0 || |s.pool.queue| < s.pool.limit) then OfferedBy(s, a) else []
    ensures Step(s, a).pool.limit == s.pool.limit && |Step(s, a).serials| == |s.serials|
    ensures Step(s, a).pool.stopped == (s.pool.stopped || a.Shutdown?)
  {
  }

  lemma InLast(acts: seq<Action>)
    requires acts != []
    ensures Shutdown in acts <==> Shutdown in acts[..|acts| - 1] || acts[|acts| - 1].Shutdown?
  {
    assert acts == acts[..|acts| - 1] + [acts[|acts| - 1]];
  }

  lemma {:induction false} StoppedIff(s: Stack, acts: seq<Action>)
    requires !s.pool.stopped
    ensures var e := Exec(s, acts);
            e.pool.limit == s.pool.limit && |e.serials| == |s.serials| && (e.pool.stopped <==> Shutdown in acts)
  {
    if acts != [] {
      StoppedIff(s, acts[..|acts| - 1]);
      AdmitStep(Exec(s, acts[..|acts| - 1]), acts[|acts| - 1]);
      InLast(acts);
    }
  }

  lemma {:induction false} ExecAdmitted(s: Stack, acts: seq<Action>)
    requires !s.pool.stopped && s.pool.accepted == []
    ensures Exec(s, acts).pool.accepted == Admitted(s, acts)
  {
    if acts != [] {
      ExecAdmitted(s, acts[..|acts| - 1]);
      StoppedIff(s, acts[..|acts| - 1]);
      AdmitStep(Exec(s, acts[..|acts| - 1]), acts[|acts| - 1]);
    }
  }

  /** The pool takes exactly the jobs offered before shutdown while it was below its
      limit, in order. */
  lemma AcceptedIsAdmitted(limit: nat, threads: nat, queues: nat, acts: seq<Action>)
    ensures Exec(Init(limit, threads, queues), acts).pool.accepted == Admitted(Init(limit, threads, queues), acts)
  {
    ExecAdmitted(Init(limit, threads, queues), acts);
  }

  lemma {:induction false} AllAdmitted(s: Stack, acts: seq<Action>)
    requires s.pool.limit == 0 && Shutdown !in acts
    ensures Admitted(s, acts) == Offered(s, acts)
  {
    if acts != [] {
      InLast(acts);
      AllAdmitted(s, acts[..|acts| - 1]);
    }
  }

  /** A submit to queue `q` that asks for a drain and does not get it. */
  predicate TurnsAway(s: Stack, a: Action, q: nat) {
    && a.SubmitSerial? && a.q == q < |s.serials| && !s.serials[q].draining
    && (s.pool.stopped || (s.pool.limit > 0 && |s.pool.queue| >= s.pool.limit))
  }

  predicate EverTurnedAway(s: Stack, acts: seq<Action>, q: nat) {
    acts != [] &&
    (EverTurnedAway(s, acts[..|acts| - 1], q) || TurnsAway(Exec(s, acts[..|acts| - 1]), acts[|acts| - 1], q))
  }

  lemma RefusedStep(s: Stack, a: Action, q: nat)
    requires q < |s.serials| && (s.serials[q].refused ==> s.serials[q].draining)
    ensures q < |Step(s, a).serials|
    ensures Step(s, a).serials[q].refused == (s.serials[q].refused || TurnsAway(s, a, q))
  {
  }

  /** A serial queue counts as refused exactly if one of its submits found it without a
      drain and the pool stopped or full. */
  lemma {:induction false} RefusedIff(limit: nat, threads: nat, queues: nat, acts: seq<Action>, q: nat)
    requires threads > 0 && q < queues
    ensures var s := Exec(Init(limit, threads, queues), acts);
            q < |s.serials| && (s.serials[q].refused <==> EverTurnedAway(Init(limit, threads, queues), acts, q))
  {
    if acts != [] {
      var s := Exec(Init(limit, threads, queues), acts[..|acts| - 1]);
      RefusedIff(limit, threads, queues, acts[..|acts| - 1], q);
      InitInv(limit, threads, queues);
      ExecInv(Init(limit, threads, queues), acts[..|acts| - 1]);
      assert SerialOk(s.serials[q], Live(s, q));
      RefusedStep(s, acts[|acts| - 1], q);
    }
  }

  lemma {:induction false} NoneTurnedAway(s: Stack, acts: seq<Action>, q: nat)
    requires s.pool.limit == 0 && !s.pool.stopped && Shutdown !in acts
    ensures !EverTurnedAway(s, acts, q)
  {
    if acts != [] {
      InLast(acts);
      NoneTurnedAway(s, acts[..|acts| - 1], q);
      StoppedIff(s, acts[..|acts| - 1]);
    }
  }

  /** An unlimited pool, which is the one connections use, takes every job until it is
      shut down, and leaves no serial queue without its drain. */
  lemma UnlimitedTakesAll(threads: nat, queues: nat, acts: seq<Action>)
    requires threads > 0 && Shutdown !in acts
    ensures var s := Exec(Init(0, threads, queues), acts);
            && s.pool.accepted == Offered(Init(0, threads, queues), acts)
            && |s.serials| == queues && (forall q :: 0 <= q < queues ==> !s.serials[q].refused)
  {
    var s := Init(0, threads, queues);
    ExecAdmitted(s, acts);
    AllAdmitted(s, acts);
    StoppedIff(s, acts);
    forall q | 0 <= q < queues ensures !Exec(s, acts).serials[q].refused {
      RefusedIff(0, threads, queues, acts, q);
      NoneTurnedAway(s, acts, q);
    }
  }

  lemma QueueStep(s: Stack, a: Action)
    requires s.pool.limit > 0 && |s.pool.queue| <= s.pool.limit
    ensures |Step(s, a).pool.queue| <= s.pool.limit
  {
  }

  lemma {:induction false} ExecBounded(s: Stack, acts: seq<Action>)
    requires s.pool.limit > 0 && |s.pool.queue| <= s.pool.limit && !s.pool.stopped
    ensures |Exec(s, acts).pool.queue| <= s.pool.limit
  {
    if acts != [] {
      ExecBounded(s, acts[..|acts| - 1]);
      StoppedIff(s, acts[..|acts| - 1]);
      QueueStep(Exec(s, acts[..|acts| - 1]), acts[|acts| - 1]);
    }
  }

  /** A bounded pool never holds more than its limit, and turns a job away exactly if it
      was shut down or holds as many as that. */
  lemma BoundedTurnsAwayIff(limit: nat, threads: nat, queues: nat, acts: seq<Action>, task: Work)
    requires limit > 0
    ensures var s := Exec(Init(limit, threads, queues), acts);
            && |s.pool.queue| <= limit
            && (Step(s, SubmitPlain(task)) == s <==> Shutdown in acts || |s.pool.queue| == limit)
  {
    ExecBounded(Init(limit, threads, queues), acts);
    StoppedIff(Init(limit, threads, queues), acts);
    AdmitStep(Exec(Init(limit, threads, queues), acts), SubmitPlain(task));
  }

  // ---- what the serial queues were given ------------------------------------------

  function TasksFor(acts: seq<Action>, q: nat): seq<Work> {
    if acts == [] then []
    else
      TasksFor(acts[..|acts| - 1], q) +
      var a := acts[|acts| - 1]; if a.SubmitSerial? && a.q == q then [a.task] else []
  }

  lemma SubmittedStep(s: Stack, a: Action, q: nat)
    requires q < |s.serials|
    ensures q < |Step(s, a).serials|
    ensures Step(s, a).serials[q].submitted ==
            s.serials[q].submitted + if a.SubmitSerial? && a.q == q then [a.task] else []
  {
  }

  /** A serial queue holds, has started or has finished exactly the tasks submitted to it,
      in order, whatever the pool said. */
  lemma {:induction false} SerialHoldsAll(limit: nat, threads: nat, queues: nat, acts: seq<Action>, q: nat)
    requires threads > 0 && q < queues
    ensures var s := Exec(Init(limit, threads, queues), acts);
            && q < |s.serials| && s.serials[q].submitted == TasksFor(acts, q)
            && TasksFor(acts, q) == s.serials[q].started + s.serials[q].pending
  {
    SerialExecution(limit, threads, queues, acts, q);
    if acts != [] {
      SerialHoldsAll(limit, threads, queues, acts[..|acts| - 1], q);
      SubmittedStep(Exec(Init(limit, threads, queues), acts[..|acts| - 1]), acts[|acts| - 1], q);
    }
  }

  // ---- notifications --------------------------------------------------------------

  /** The condition variable delivers a notify_one: to a sleeping worker, or to nobody if
      none sleeps. */
  predicate Delivers(s: Stack, a: Action) {
    a.NotifyOne? && s.pool.notifyOne > 0 && ((a.w < |s.workers| && s.workers[a.w].Asleep?) || !AnyAsleep(s.workers))
  }

  function Delivered(s: Stack, acts: seq<Action>): nat {
    if acts == [] then 0
    else Delivered(s, acts[..|acts| - 1]) + if Delivers(Exec(s, acts[..|acts| - 1]), acts[|acts| - 1]) then 1 else 0
  }

  /** Shutdown has notified all, and that has not been delivered. */
  predicate Announced(acts: seq<Action>) {
    acts != [] &&
    var before, last := acts[..|acts| - 1], acts[|acts| - 1];
    if last.Shutdown? && Shutdown !in before then true else Announced(before) && !last.NotifyAll?
  }

  lemma NoticeStep(s: Stack, a: Action)
    ensures Step(s, a).pool.notifyOne ==
            s.pool.notifyOne - (if Delivers(s, a) then 1 else 0) + (|Step(s, a).pool.accepted| - |s.pool.accepted|)
    ensures Step(s, a).pool.notifyAll == ((a.Shutdown? && !s.pool.stopped) || (s.pool.notifyAll && !a.NotifyAll?))
  {
  }

  /** There is one notification for every job taken, and one to all for the shutdown,
      until they are delivered. */
  lemma {:induction false} NotifiedForEach(limit: nat, threads: nat, queues: nat, acts: seq<Action>)
    ensures var s := Exec(Init(limit, threads, queues), acts);
            && s.pool.notifyOne + Delivered(Init(limit, threads, queues), acts) == |s.pool.accepted|
            && (s.pool.notifyAll <==> Announced(acts))
  {
    if acts != [] {
      var s := Exec(Init(limit, threads, queues), acts[..|acts| - 1]);
      NotifiedForEach(limit, threads, queues, acts[..|acts| - 1]);
      StoppedIff(Init(limit, threads, queues), acts[..|acts| - 1]);
      NoticeStep(s, acts[|acts| - 1]);
    }
  }

  /** A delivered notification wakes the worker it reaches, and the one to all wakes every
      sleeping worker and no other. */
  lemma DeliveryWakes(s: Stack, a: Action)
    ensures Delivers(s, a) ==>
              Step(s, a).workers == if AnyAsleep(s.workers) && a.w < |s.workers| then s.workers[a.w := Ready] else s.workers
    ensures a.NotifyAll? && s.pool.notifyAll ==>
              && |Step(s, a).workers| == |s.workers| && !AnyAsleep(Step(s, a).workers)
              && forall i :: 0 <= i < |s.workers| ==> Step(s, a).workers[i] == if s.workers[i].Asleep? then Ready else s.workers[i]
  {
  }

  /** A worker goes to sleep exactly if it finds nothing queued in a pool that is not
      stopped, and leaves exactly if the pool is stopped. */
  lemma SleepsIff(s: Stack, w: nat, a: Action)
    requires w < |s.workers|
    ensures w < |Step(s, a).workers|
    ensures !s.workers[w].Asleep? ==>
              (Step(s, a).workers[w].Asleep? <==>
               a == CheckQueue(w) && s.workers[w].Ready? && s.pool.queue == [] && !s.pool.stopped)
    ensures !s.workers[w].Exited? ==>
              (Step(s, a).workers[w].Exited? <==>
               a == CheckQueue(w) && s.workers[w].Ready? && s.pool.queue == [] && s.pool.stopped)
  {
  }

  /** A sleeping worker wakes exactly by a notification that reaches it, or spuriously. */
  lemma WakesIff(s: Stack, w: nat, a: Action)
    requires w < |s.workers| && s.workers[w].Asleep?
    ensures w < |Step(s, a).workers|
    ensures !Step(s, a).workers[w].Asleep? <==>
            || (a == NotifyOne(w) && s.pool.notifyOne > 0) || (a.NotifyAll? && s.pool.notifyAll) || a == WakeSpuriously(w)
  {
  }

  lemma JoinStep(s: Stack, a: Action)
    requires s.pool.joined ==> s.pool.stopped && !s.pool.notifyAll && AllExited(s.workers)
    ensures var s' := Step(s, a);
            && (s'.pool.joined ==> s'.pool.stopped && !s'.pool.notifyAll && AllExited(s'.workers))
            && (s.pool.joined ==> s'.pool.joined)
            && (a.Join? && s.pool.stopped && !s.pool.notifyAll && AllExited(s.workers) ==> s'.pool.joined)
  {
  }

  /** Shutdown returns only after it was called, has notified all workers and all have
      exited, and then it can. */
  lemma {:induction false} JoinedOnlyAfter(limit: nat, threads: nat, queues: nat, acts: seq<Action>)
    ensures var s := Exec(Init(limit, threads, queues), acts);
            && (s.pool.joined ==> Shutdown in acts && !Announced(acts) && AllExited(s.workers))
            && (Shutdown in acts && !Announced(acts) && AllExited(s.workers) ==> Step(s, Join).pool.joined)
  {
    StoppedIff(Init(limit, threads, queues), acts);
    NotifiedForEach(limit, threads, queues, acts);
    if acts != [] {
      var before := acts[..|acts| - 1];
      JoinedOnlyAfter(limit, threads, queues, before);
      StoppedIff(Init(limit, threads, queues), before);
      NotifiedForEach(limit, threads, queues, before);
      JoinStep(Exec(Init(limit, threads, queues), before), acts[|acts| - 1]);
    }
  }
}
