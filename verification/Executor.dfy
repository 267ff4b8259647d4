/** The pool's queue and the serial queues as updated in place.

`queue` and `stopped` are what the pool's mutex guards; `pending[q]` and
`draining[q]` are what the mutex of serial queue `q` guards; `ran[q]` lists the
tasks of `q` that have been executed. `Valid` ties them to the ghost field
`model`, a state of the callback stack.
*/
module Executor {
  import opened CallbackStack
  import opened CallbackInvariant

  predicate OtherAction(a: Action) {
    a.SubmitPlain? || a.SubmitSerial? || a.Shutdown?
  }

  // ---- which run a method performs ----------------------------------------------

  /** The drain on worker `w` takes the step where it can. */
  predicate DrainStep(s: Stack, a: Action, w: nat) {
    && w < |s.workers|
    && ((a == LockSerial(w) && s.workers[w].AtLock?) || (a == FinishTask(w) && s.workers[w].Executing?))
  }

  /** The actions of the other threads, one list after the other. */
  function Joined(script: seq<seq<Action>>): seq<Action> {
    if script == [] then [] else Joined(script[..|script| - 1]) + script[|script| - 1]
  }

  function OthersIn(acts: seq<Action>): seq<Action> {
    if acts == [] then []
    else OthersIn(acts[..|acts| - 1]) + if OtherAction(acts[|acts| - 1]) then [acts[|acts| - 1]] else []
  }

  /** Apart from other threads' actions, the run consists of steps of the drain on `w`. */
  predicate DrainsOn(start: Stack, acts: seq<Action>, w: nat) {
    acts != [] ==>
      && DrainsOn(start, acts[..|acts| - 1], w)
      && (OtherAction(acts[|acts| - 1]) || DrainStep(Exec(start, acts[..|acts| - 1]), acts[|acts| - 1], w))
  }

  ghost predicate Reached(start: Stack, acts: seq<Action>, s: Stack, w: nat, others: seq<Action>) {
    s == Exec(start, acts) && Inv(s) && DrainsOn(start, acts, w) && OthersIn(acts) == others
  }

  lemma ReachedNext(start: Stack, acts: seq<Action>, s: Stack, w: nat, others: seq<Action>, a: Action)
    requires Reached(start, acts, s, w, others) && (OtherAction(a) || DrainStep(s, a, w))
    ensures Reached(start, acts + [a], Step(s, a), w, others + if OtherAction(a) then [a] else [])
  {
    assert (acts + [a])[..|acts|] == acts;
    StepInv(s, a);
  }

  lemma JoinedNext(script: seq<seq<Action>>, k: nat)
    requires k < |script|
    ensures Joined(script[..k + 1]) == Joined(script[..k]) + script[k]
  {
    assert script[..k + 1][..k] == script[..k];
  }

  lemma FirstOther(before: seq<Action>, others: seq<Action>)
    requires others != []
    ensures before + [others[0]] + others[1..] == before + others
  {
  }

  class CallbackExecutor {
    const limit: nat
    var queue: seq<Job>
    var stopped: bool
    var pending: seq<seq<Work>>
    var draining: seq<bool>
    var ran: seq<seq<Work>>
    ghost var model: Stack

    ghost predicate Valid()
      reads this
    {
      && model.pool.limit == limit && model.pool.queue == queue && model.pool.stopped == stopped
      && |pending| == |draining| == |ran| == |model.serials|
      && (forall q :: 0 <= q < |pending| ==>
            && model.serials[q].pending == pending[q]
            && model.serials[q].draining == draining[q]
            && model.serials[q].finished == ran[q])
    }

    constructor (limit: nat, threads: nat, queues: nat)
      requires threads > 0
      ensures Valid() && Inv(model) && model == Init(limit, threads, queues)
    {
      this.limit := limit;
      queue, stopped := [], false;
      pending, draining, ran := seq(queues, _ => []), seq(queues, _ => false), seq(queues, _ => []);
      model := Init(limit, threads, queues);
      new;
      InitInv(limit, threads, queues);
    }

    /** thread_pool::submit: refused exactly when the pool is stopped or full. */
    method SubmitToPool(job: Job) returns (ok: bool)
      requires Valid()
      modifies `queue, `model
      ensures Valid() && model == old(model).(pool := SubmitJob(old(model).pool, job))
      ensures ok <==> !stopped && (limit == 0 || |old(queue)| < limit)
      ensures queue == old(queue) + if ok then [job] else []
    {
      if stopped {
        return false;
      }
      if limit > 0 && |queue| >= limit {
        return false;
      }
      model := model.(pool := SubmitJob(model.pool, job));
      queue := queue + [job];
      return true;
    }

    /** serial_queue::submit. */
    method SubmitToSerial(q: nat, task: Work)
      requires Valid() && q < |pending|
      modifies this
      ensures Valid() && |pending| == old(|pending|) && model == Step(old(model), SubmitSerial(q, task))
      ensures pending == old(pending)[q := old(pending)[q] + [task]] && draining == old(draining)[q := true]
      ensures queue == old(queue) +
                if !old(draining)[q] && !stopped && (limit == 0 || |old(queue)| < limit) then [Drain(q)] else []
    {
      ghost var before := model;
      pending := pending[q := pending[q] + [task]];
      model := model.(serials := model.serials[q := model.serials[q].(
        pending := model.serials[q].pending + [task], submitted := model.serials[q].submitted + [task])]);
      if !draining[q] {
        draining := draining[q := true];
        model := model.(serials := model.serials[q := model.serials[q].(
          draining := true, refused := Refuses(model.pool))]);
        var _ := SubmitToPool(Drain(q));
        assert model.serials == SerialSubmit(before, q, task).serials;
      }
    }

    /** The locked section of thread_pool::shutdown. */
    method RequestShutdown()
      requires Valid()
      modifies this
      ensures Valid() && |pending| == old(|pending|) && model == Step(old(model), Shutdown) && stopped
      ensures queue == old(queue) && pending == old(pending)
    {
      if stopped {
        return;
      }
      model := Step(model, Shutdown);
      stopped := true;
    }

    /** The locked section of a pool worker's loop: sleep, exit, or start the oldest job. */
    method WorkerLoopSection(w: nat) returns (job: seq<Job>)
      requires Valid() && w < |model.workers| && model.workers[w] == Ready
      modifies `queue, `model
      ensures Valid() && model == Step(old(model), CheckQueue(w))
      ensures job == (if old(queue) == [] then [] else [old(queue)[0]]) && old(queue) == job + queue
    {
      model := Step(model, CheckQueue(w));
      if queue == [] {
        return [];
      }
      job := [queue[0]];
      queue := queue[1..];
    }

    /** The locked section of drain: `more` says there is a task to run. */
    method NextTask(w: nat, q: nat) returns (more: bool, task: Work)
      requires Valid() && q < |pending| && w < |model.workers| && model.workers[w] == AtLock(q)
      modifies this
      ensures Valid() && model == Step(old(model), LockSerial(w)) && |pending| == old(|pending|)
      ensures more ==> model.workers[w] == Executing(q, task) && |pending[q]| < old(|pending[q]|)
      ensures !more ==> model.workers[w] == Ready && old(pending[q]) == [] && !draining[q]
      ensures more ==> old(pending[q]) == [task] + pending[q] && ran == old(ran)
    {
      model := Step(model, LockSerial(w));
      if pending[q] == [] {
        draining := draining[q := false];
        return false, Other(0);
      }
      task := pending[q][0];
      pending := pending[q := pending[q][1..]];
      return true, task;
    }

    method RunTask(w: nat, q: nat, task: Work)
      requires Valid() && q < |pending| && w < |model.workers| && model.workers[w] == Executing(q, task)
      modifies this
      ensures Valid() && model == Step(old(model), FinishTask(w)) && model.workers[w] == AtLock(q)
      ensures pending == old(pending) && ran == old(ran)[q := old(ran)[q] + [task]]
    {
      model := Step(model, FinishTask(w));
      ran := ran[q := ran[q] + [task]];
    }

    /** One action of another thread, or of the task being run. */
    method OtherThread(a: Action)
      requires Valid() && OtherAction(a)
      modifies this
      ensures Valid() && model == Step(old(model), a)
      ensures model.workers == old(model).workers && |pending| == old(|pending|)
    {
      match a
      case SubmitPlain(t) => var _ := SubmitToPool(Plain(t));
      case SubmitSerial(q, t) => if q < |pending| { SubmitToSerial(q, t); }
      case Shutdown => RequestShutdown();
    }

    /** serial_queue::drain on worker `w`: runs tasks of `q` until none is left.
        `script[k]` holds the actions that other threads and the task itself get
        in around the k-th trip through the loop. */
    method DrainSerial(w: nat, q: nat, script: seq<seq<Action>>) returns (ghost used: nat, ghost acts: seq<Action>)
      requires Valid() && Inv(model) && q < |pending| && w < |model.workers| && model.workers[w] == AtLock(q)
      requires forall k, i :: 0 <= k < |script| && 0 <= i < |script[k]| ==> OtherAction(script[k][i])
      modifies this
      ensures Valid() && used <= |script| && Reached(old(model), acts, model, w, Joined(script[..used]))
      ensures w < |model.workers| && model.workers[w] == Ready
    {
      ghost var start := model;
      acts := [];
      var k := 0;
      while true
        invariant 0 <= k <= |script| && q < |pending|
        invariant Valid() && Reached(start, acts, model, w, Joined(script[..k]))
        invariant w < |model.workers| && model.workers[w] == AtLock(q)
        decreases |script| - k, |pending[q]|
      {
        if k < |script| {
          JoinedNext(script, k);
          acts := OtherThreads(script[k], w, start, acts, Joined(script[..k]));
          k := k + 1;
        }
        var more;
        more, acts := DrainOnce(w, q, start, acts, Joined(script[..k]));
        if !more {
          return k, acts;
        }
      }
    }

    /** One trip through the drain loop: take a task and run it, or find none. */
    method DrainOnce(w: nat, q: nat, ghost start: Stack, ghost before: seq<Action>, ghost others: seq<Action>)
      returns (more: bool, ghost acts: seq<Action>)
      requires Valid() && Reached(start, before, model, w, others)
      requires q < |pending| && w < |model.workers| && model.workers[w] == AtLock(q)
      modifies this
      ensures Valid() && Reached(start, acts, model, w, others)
      ensures |pending| == old(|pending|) && w < |model.workers|
      ensures if more then model.workers[w] == AtLock(q) && |pending[q]| < old(|pending[q]|) else model.workers[w] == Ready
    {
      var task;
      more, task := TakeTask(w, q, start, before, others);
      acts := before + [LockSerial(w)];
      if more {
        CompleteTask(w, q, task, start, acts, others);
        acts := acts + [FinishTask(w)];
      }
    }

    method TakeTask(w: nat, q: nat, ghost start: Stack, ghost before: seq<Action>, ghost others: seq<Action>)
      returns (more: bool, task: Work)
      requires Valid() && Reached(start, before, model, w, others)
      requires q < |pending| && w < |model.workers| && model.workers[w] == AtLock(q)
      modifies this
      ensures Valid() && Reached(start, before + [LockSerial(w)], model, w, others)
      ensures |pending| == old(|pending|) && w < |model.workers|
      ensures more ==> model.workers[w] == Executing(q, task) && |pending[q]| < old(|pending[q]|)
      ensures !more ==> model.workers[w] == Ready
    {
      ReachedNext(start, before, model, w, others, LockSerial(w));
      more, task := NextTask(w, q);
    }

    method CompleteTask(w: nat, q: nat, task: Work, ghost start: Stack, ghost before: seq<Action>, ghost others: seq<Action>)
      requires Valid() && Reached(start, before, model, w, others)
      requires q < |pending| && w < |model.workers| && model.workers[w] == Executing(q, task)
      modifies this
      ensures Valid() && Reached(start, before + [FinishTask(w)], model, w, others) && w < |model.workers|
      ensures model.workers[w] == AtLock(q) && pending == old(pending)
    {
      ReachedNext(start, before, model, w, others, FinishTask(w));
      RunTask(w, q, task);
    }

    method NextOther(a: Action, w: nat, ghost start: Stack, ghost before: seq<Action>, ghost done: seq<Action>)
      requires Valid() && Reached(start, before, model, w, done) && OtherAction(a)
      modifies this
      ensures Valid() && Reached(start, before + [a], model, w, done + [a])
      ensures model.workers == old(model).workers && |pending| == old(|pending|)
    {
      ReachedNext(start, before, model, w, done, a);
      OtherThread(a);
    }

    method OtherThreads(others: seq<Action>, w: nat, ghost start: Stack, ghost before: seq<Action>, ghost done: seq<Action>)
      returns (ghost acts: seq<Action>)
      requires Valid() && Reached(start, before, model, w, done)
      requires forall i :: 0 <= i < |others| ==> OtherAction(others[i])
      modifies this
      ensures Valid() && Reached(start, acts, model, w, done + others)
      ensures model.workers == old(model).workers && |pending| == old(|pending|)
      decreases |others|
    {
      acts := before;
      if others == [] {
        assert done + others == done;
      } else {
        NextOther(others[0], w, start, before, done);
        acts := OtherThreads(others[1..], w, start, before + [others[0]], done + [others[0]]);
        FirstOther(done, others);
      }
    }
  }
}
