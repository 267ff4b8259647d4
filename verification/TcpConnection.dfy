/** The connection object itself: fields updated in place by the methods of the
engine, each proved to perform steps of the connection protocol.

The event loop's post queue, the dispatcher's entry for this socket, the bytes
handed to the socket and the callbacks handed to the serial queue are kept as
fields too. The ghost field `model` is the protocol state; `Valid` ties every
real field to it. A method with more than one locked section takes the actions
that other threads get in between its sections as an explicit schedule.
*/
module TcpConnection {
  import opened ConnectionProtocol
  import opened ConnectionTheorems

  /** What happens next outside the loop thread's own code: another thread's
      action on the connection, or the result of the next send. */
  datatype Event = Other(action: Action) | Outcome(result: SendResult)

  predicate UserAction(a: Action) {
    a.StartReading? || a.Enqueue? || a.CloseFromUser? || a.PauseFromUser? || a.ResumeFromUser?
  }

  predicate Schedule(script: seq<Event>) {
    forall i :: 0 <= i < |script| && script[i].Other? ==> UserAction(script[i].action)
  }

  // ---- which run a method performs ----------------------------------------------

  /** The schedule as actions: the others' own, and the sends with their results. */
  function Played(script: seq<Event>): (acts: seq<Action>)
    ensures |acts| == |script|
  {
    seq(|script|, i requires 0 <= i < |script| => var e := script[i];
                                                  if e.Other? then e.action else Send(e.result))
  }

  /** A run without the drain's locked sections. */
  function Visible(acts: seq<Action>): seq<Action> {
    if acts == [] then []
    else Visible(acts[..|acts| - 1]) + if acts[|acts| - 1].TakeChunk? then [] else [acts[|acts| - 1]]
  }

  /** The run `acts` plays the first `k` events of the schedule; if `over`, the schedule
      has run out and one more send would block. */
  ghost predicate Follows(script: seq<Event>, k: nat, acts: seq<Action>, over: bool) {
    && k <= |script| && (over ==> k == |script|)
    && Visible(acts) == Played(script[..k]) + if over then [Send(SendWouldBlock)] else []
  }

  /** `c` is reached by `acts`, in which the loop thread takes no step it cannot take. */
  ghost predicate Reached(start: Conn, acts: seq<Action>, c: Conn) {
    c == Exec(start, acts) && Effective(start, acts) && Inv(c)
  }

  predicate Effective(start: Conn, acts: seq<Action>) {
    acts != [] ==>
      Effective(start, acts[..|acts| - 1]) && Enabled(Exec(start, acts[..|acts| - 1]), acts[|acts| - 1])
  }

  lemma ReachedNext(start: Conn, acts: seq<Action>, c: Conn, a: Action)
    requires Reached(start, acts, c) && Enabled(c, a)
    ensures Reached(start, acts + [a], Step(c, a))
  {
    assert (acts + [a])[..|acts|] == acts;
    StepInv(c, a);
  }

  lemma ReachedFirst(start: Conn, a: Action)
    requires Inv(start) && Enabled(start, a)
    ensures Reached(start, [a], Step(start, a))
  {
    ReachedNext(start, [], start, a);
    assert [] + [a] == [a];
  }

  lemma FollowsTake(script: seq<Event>, k: nat, acts: seq<Action>)
    requires Follows(script, k, acts, false)
    ensures Follows(script, k, acts + [TakeChunk], false)
  {
    assert (acts + [TakeChunk])[..|acts|] == acts;
  }

  lemma FollowsNext(script: seq<Event>, k: nat, acts: seq<Action>)
    requires Follows(script, k, acts, false) && k < |script|
    requires script[k].Other? ==> UserAction(script[k].action)
    ensures Follows(script, k + 1, acts + [if script[k].Other? then script[k].action else Send(script[k].result)], false)
  {
    var a := if script[k].Other? then script[k].action else Send(script[k].result);
    assert (acts + [a])[..|acts|] == acts;
    assert Played(script[..k + 1]) == Played(script[..k]) + [a];
  }

  lemma FollowsOver(script: seq<Event>, acts: seq<Action>)
    requires Follows(script, |script|, acts, false)
    ensures Follows(script, |script|, acts + [Send(SendWouldBlock)], true)
  {
    var a := Send(SendWouldBlock);
    assert (acts + [a])[..|acts|] == acts;
    assert Played(script[..|script|]) + [] == Played(script[..|script|]);
  }

  lemma FirstOther(before: seq<Action>, others: seq<Action>)
    requires others != []
    ensures before + [others[0]] + others[1..] == before + others
  {
  }

  lemma FrontCounted(c: Conn)
    requires Inv(c) && c.pc.Draining? && c.out.queue != []
    ensures |c.out.queue[0]| <= c.out.queueBytes
  {
    PopFrontKeeps(c.out);
  }

  /** The loop thread drains only an open connection. */
  lemma DrainsOpen(c: Conn)
    requires Inv(c) && (c.pc.Draining? || c.pc.Sending?)
    ensures !c.inp.closed
  {
  }

  class Connection {
    const limit: nat
    const hasOnData: bool
    const hasOnClose: bool

    var writeQueue: seq<Bytes>
    var writeQueueBytes: nat
    var writeRegistered: bool
    var closed: bool
    var paused: bool
    var started: bool

    var posts: seq<Task>
    var tracked: bool
    var interest: Interest
    var wire: Bytes
    var submitted: seq<Callback>

    ghost var model: Conn

    ghost predicate Valid()
      reads this
    {
      && model.out.limit == limit && model.inp.hasOnData == hasOnData && model.inp.hasOnClose == hasOnClose
      && model.out.queue == writeQueue && model.out.queueBytes == writeQueueBytes && model.out.wire == wire
      && model.registered == writeRegistered && model.inp.closed == closed && model.inp.submitted == submitted
      && model.paused == paused && model.startPosted == started && model.posts == posts
      && model.tracked == tracked && model.interest == interest
    }

    constructor (limit: nat, hasOnData: bool, hasOnClose: bool)
      ensures Valid() && model == Init(limit, hasOnData, hasOnClose) && Inv(model)
    {
      this.limit, this.hasOnData, this.hasOnClose := limit, hasOnData, hasOnClose;
      writeQueue, writeQueueBytes, writeRegistered := [], 0, false;
      closed, paused, started := false, false, false;
      posts, tracked, interest, wire, submitted := [], false, Interest(false, false), [], [];
      model := Init(limit, hasOnData, hasOnClose);
      new;
      InitInv(limit, hasOnData, hasOnClose);
    }

    /** Accepts the payload exactly when the connection is open, the payload is
        not empty and the queue stays within the limit. */
    method EnqueueSend(data: Bytes) returns (ok: bool)
      requires Valid()
      modifies this
      ensures Valid()
      ensures ok <==> !old(closed) && |data| > 0 && old(writeQueueBytes) + |data| <= limit
      ensures writeQueue == old(writeQueue) + if ok then [data] else []
      ensures writeQueueBytes == old(writeQueueBytes) + if ok then |data| else 0
      ensures writeRegistered == (old(writeRegistered) || ok)
      ensures posts == old(posts) + if ok && !old(writeRegistered) then [RegisterTask] else []
      ensures model == if old(closed) then old(model) else Step(old(model), Enqueue(data))
    {
      if closed || |data| == 0 {
        return false;
      }
      if writeQueueBytes + |data| > limit {
        return false;
      }
      model := Step(model, Enqueue(data));
      writeQueue := writeQueue + [data];
      writeQueueBytes := writeQueueBytes + |data|;
      if !writeRegistered {
        writeRegistered := true;
        posts := posts + [RegisterTask];
      }
      return true;
    }

    method StartReading()
      requires Valid() && !started
      modifies this
      ensures Valid() && model == Step(old(model), Action.StartReading) && posts == old(posts) + [StartTask] && started
    {
      model := Step(model, Action.StartReading);
      started := true;
      posts := posts + [StartTask];
    }

    method CloseFromUser()
      requires Valid()
      modifies this
      ensures Valid() && posts == old(posts) + if old(closed) then [] else [CloseTask]
      ensures model == if old(closed) then old(model) else Step(old(model), Action.CloseFromUser)
    {
      if closed {
        return;
      }
      model := Step(model, Action.CloseFromUser);
      posts := posts + [CloseTask];
    }

    method PauseFromUser()
      requires Valid()
      modifies this
      ensures Valid() && posts == old(posts) + if old(closed) then [] else [PauseTask]
      ensures paused == (old(paused) || !closed)
      ensures model == if old(closed) then old(model) else Step(old(model), Action.PauseFromUser)
    {
      if closed {
        return;
      }
      model := Step(model, Action.PauseFromUser);
      paused := true;
      posts := posts + [PauseTask];
    }

    method ResumeFromUser()
      requires Valid()
      modifies this
      ensures Valid() && posts == old(posts) + if old(closed) then [] else [ResumeTask]
      ensures paused == (old(paused) && closed)
      ensures model == if old(closed) then old(model) else Step(old(model), Action.ResumeFromUser)
    {
      if closed {
        return;
      }
      model := Step(model, Action.ResumeFromUser);
      paused := false;
      posts := posts + [ResumeTask];
    }

    method InitiateClose()
      requires Valid()
      modifies this
      ensures Valid() && model == ConnectionProtocol.InitiateClose(old(model))
      ensures closed && tracked == (old(closed) && old(tracked))
      ensures submitted == old(submitted) + if !old(closed) && hasOnClose then [OnClose] else []
    {
      model := ConnectionProtocol.InitiateClose(model);
      if closed {
        return;
      }
      closed := true;
      tracked := false;
      if hasOnClose {
        submitted := submitted + [OnClose];
      }
    }

    method DispatcherModify(mask: Interest)
      requires Valid()
      modifies `interest, `model
      ensures Valid() && model == Modify(old(model), mask)
    {
      model := Modify(model, mask);
      if tracked {
        interest := mask;
      }
    }

    /** One action of a thread other than the loop thread, on an open connection. */
    method OtherThread(a: Action)
      requires Valid() && UserAction(a) && !closed
      modifies this
      ensures Valid() && model == Step(old(model), a) && !closed
      ensures model.pc == old(model).pc && model.out.flight == old(model).out.flight
    {
      match a
      case StartReading => if !started { StartReading(); }
      case Enqueue(p) => var _ := EnqueueSend(p);
      case CloseFromUser => CloseFromUser();
      case PauseFromUser => PauseFromUser();
      case ResumeFromUser => ResumeFromUser();
    }

    method NextOther(a: Action, ghost start: Conn, ghost before: seq<Action>)
      requires Valid() && Reached(start, before, model) && UserAction(a) && !closed
      modifies this
      ensures Valid() && Reached(start, before + [a], model) && !closed
      ensures model.pc == old(model).pc && model.out.flight == old(model).out.flight
    {
      ReachedNext(start, before, model, a);
      OtherThread(a);
    }

    /** Runs the other threads' actions that come before the loop thread's next move. */
    method Interleave(script: seq<Event>, from: nat, ghost start: Conn, ghost before: seq<Action>)
      returns (next: nat, ghost acts: seq<Action>)
      requires Valid() && Schedule(script) && Reached(start, before, model) && !closed
      requires Follows(script, from, before, false)
      modifies this
      decreases |script| - from
      ensures from <= next <= |script| && (next < |script| ==> script[next].Outcome?)
      ensures Valid() && Reached(start, acts, model) && !closed && Follows(script, next, acts, false)
      ensures model.pc == old(model).pc && model.out.flight == old(model).out.flight
    {
      next, acts := from, before;
      if from < |script| && script[from].Other? {
        FollowsNext(script, from, before);
        NextOther(script[from].action, start, before);
        next, acts := Interleave(script, from + 1, start, before + [script[from].action]);
      }
    }

    /** Runs all of the other threads' actions; on a closed connection they do nothing. */
    method PlayOthers(others: seq<Action>, ghost start: Conn, ghost before: seq<Action>) returns (ghost acts: seq<Action>)
      requires Valid() && Reached(start, before, model) && forall i :: 0 <= i < |others| ==> UserAction(others[i])
      modifies this
      decreases |others|
      ensures Valid() && Reached(start, acts, model) && closed == old(closed)
      ensures acts == before + if closed then [] else others
      ensures model.pc == old(model).pc
    {
      acts := before;
      if !closed && others != [] {
        NextOther(others[0], start, before);
        acts := PlayOthers(others[1..], start, before + [others[0]]);
        FirstOther(before, others);
      }
    }

    /** Nothing is queued: the flag is cleared and the write interest given up. */
    method EndDrain()
      requires Valid() && model.pc.Draining? && writeQueue == []
      modifies this
      ensures Valid() && model == Step(old(model), TakeChunk) && model.pc.Idle?
      ensures !writeRegistered && (tracked ==> interest == Interest(true, false)) && writeQueue == []
    {
      writeRegistered := false;
      model := model.(registered := false, pc := Idle);
      DispatcherModify(Interest(true, false));
    }

    method PopChunk() returns (chunk: Bytes)
      requires Valid() && model.pc.Draining? && writeQueue != [] && |writeQueue[0]| <= writeQueueBytes
      modifies this
      ensures Valid() && model == Step(old(model), TakeChunk) && model.pc.Sending? && model.out.flight == chunk
      ensures old(writeQueue) == [chunk] + writeQueue && writeQueueBytes == old(writeQueueBytes) - |chunk|
    {
      model := Step(model, TakeChunk);
      chunk := writeQueue[0];
      writeQueue := writeQueue[1..];
      writeQueueBytes := writeQueueBytes - |chunk|;
    }

    /** The locked section of drain_write_queue: empty says the drain is over. */
    method TakeFrontChunk() returns (empty: bool, chunk: Bytes)
      requires Valid() && model.pc.Draining? && (writeQueue != [] ==> |writeQueue[0]| <= writeQueueBytes)
      modifies this
      ensures Valid() && model == Step(old(model), TakeChunk)
      ensures if empty then model.pc.Idle? else model.pc.Sending? && model.out.flight == chunk
      ensures empty <==> old(writeQueue) == []
      ensures empty ==> !writeRegistered && (tracked ==> interest == Interest(true, false))
      ensures !empty ==> old(writeQueue) == [chunk] + writeQueue && writeQueueBytes == old(writeQueueBytes) - |chunk|
    {
      empty, chunk := writeQueue == [], [];
      if empty {
        EndDrain();
      } else {
        chunk := PopChunk();
      }
    }

    method NextChunk(ghost start: Conn, ghost before: seq<Action>) returns (empty: bool, chunk: Bytes)
      requires Valid() && Reached(start, before, model) && model.pc.Draining?
      modifies this
      ensures Valid() && Reached(start, before + [TakeChunk], model)
      ensures if empty then model.pc.Idle? else model.pc.Sending? && model.out.flight == chunk
    {
      if writeQueue != [] { FrontCounted(model); }
      ReachedNext(start, before, model, TakeChunk);
      empty, chunk := TakeFrontChunk();
    }

    /** The socket took `n` of the bytes from `sent` on. */
    method AdvanceChunk(chunk: Bytes, sent: nat, n: nat) returns (sent': nat)
      requires Valid() && model.pc.Sending? && sent < |chunk| && model.out.flight == chunk[sent..]
      modifies this
      ensures Valid() && model == Step(old(model), Send(SendOk(n)))
      ensures sent <= sent' <= |chunk| && model.out.flight == chunk[sent'..]
      ensures if sent' < |chunk| then model.pc.Sending? else model.pc.Draining?
      ensures sent' == (if sent + n <= |chunk| then sent + n else |chunk|) && wire == old(wire) + chunk[sent..sent']
    {
      sent' := if n <= |chunk| - sent then sent + n else |chunk|;
      assert chunk[sent..][..sent' - sent] == chunk[sent..sent'];
      assert chunk[sent..][sent' - sent..] == chunk[sent'..];
      model := Step(model, Send(SendOk(n)));
      wire := wire + chunk[sent..sent'];
    }

    /** The socket would block: the unsent remainder goes back to the front. */
    method PushRemainder(chunk: Bytes, sent: nat)
      requires Valid() && model.pc.Sending? && sent < |chunk| && model.out.flight == chunk[sent..]
      modifies this
      ensures Valid() && model == Step(old(model), Send(SendWouldBlock)) && model.pc.Idle?
      ensures writeQueue == [chunk[sent..]] + old(writeQueue) && wire == old(wire)
      ensures writeQueueBytes == old(writeQueueBytes) + |chunk| - sent
    {
      model := Step(model, Send(SendWouldBlock));
      var remaining := chunk[sent..];
      writeQueueBytes := writeQueueBytes + |remaining|;
      writeQueue := [remaining] + writeQueue;
    }

    method FailSend()
      requires Valid() && model.pc.Sending? && !closed
      modifies this
      ensures Valid() && model == Step(old(model), Send(SendFatal)) && model.pc.Idle?
      ensures closed && !tracked && writeQueue == old(writeQueue) && wire == old(wire)
      ensures submitted == old(submitted) + if hasOnClose then [OnClose] else []
    {
      model := model.(out := Drop(model.out), pc := Idle);
      InitiateClose();
    }

    /** One send on chunk[sent..] and the code that handles its result. */
    method SendRest(chunk: Bytes, sent: nat, r: SendResult) returns (sent': nat)
      requires Valid() && model.pc.Sending? && sent < |chunk| && model.out.flight == chunk[sent..] && !closed
      modifies this
      ensures Valid() && model == Step(old(model), Send(r))
      ensures sent <= sent' <= |chunk|
      ensures !r.SendOk? ==> model.pc.Idle?
      ensures r.SendOk? ==>
                model.out.flight == chunk[sent'..] && if sent' < |chunk| then model.pc.Sending? else model.pc.Draining?
    {
      sent' := sent;
      match r
      case SendOk(n) => sent' := AdvanceChunk(chunk, sent, n);
      case SendWouldBlock => PushRemainder(chunk, sent);
      case SendFatal => FailSend();
    }

    /** Sends queued chunks until the queue is empty, the socket would block or
        fails. `script` interleaves the other threads with the socket's answers;
        a script that has run out means the socket would block. */
    method DrainWriteQueue(script: seq<Event>, ghost start: Conn, ghost first: seq<Action>)
      returns (ghost used: nat, ghost over: bool, ghost acts: seq<Action>)
      requires Valid() && Schedule(script) && Reached(start, first, model) && model.pc.Draining?
      requires Follows(script, 0, first, false)
      modifies this
      ensures Valid() && Reached(start, acts, model) && model.pc.Idle? && Follows(script, used, acts, over)
    {
      acts := first;
      var k := 0;
      while true
        invariant 0 <= k <= |script|
        invariant Valid() && Reached(start, acts, model) && model.pc.Draining? && Follows(script, k, acts, false)
        decreases |script| - k
      {
        DrainsOpen(model);
        k, acts := Interleave(script, k, start, acts);
        var empty, chunk := NextChunk(start, acts);
        FollowsTake(script, k, acts);
        acts := acts + [TakeChunk];
        if empty {
          return k, false, acts;
        }
        var done;
        k, done, over, acts := SendChunk(chunk, script, k, start, acts);
        if done {
          return k, over, acts;
        }
      }
    }

    /** One send of the inner loop. */
    method NextSend(chunk: Bytes, sent: nat, r: SendResult, ghost start: Conn, ghost before: seq<Action>) returns (sent': nat)
      requires Valid() && Reached(start, before, model) && !closed
      requires model.pc.Sending? && sent < |chunk| && model.out.flight == chunk[sent..]
      modifies this
      ensures Valid() && Reached(start, before + [Send(r)], model)
      ensures sent <= sent' <= |chunk|
      ensures if !r.SendOk? then model.pc.Idle?
              else model.out.flight == chunk[sent'..] && if sent' < |chunk| then model.pc.Sending? else model.pc.Draining?
    {
      ReachedNext(start, before, model, Send(r));
      sent' := SendRest(chunk, sent, r);
    }

    /** The inner send loop on one chunk. `done` says drain_write_queue returns. */
    method SendChunk(chunk: Bytes, script: seq<Event>, from: nat, ghost start: Conn, ghost before: seq<Action>)
      returns (k: nat, done: bool, ghost over: bool, ghost acts: seq<Action>)
      requires Valid() && Schedule(script) && Reached(start, before, model) && Follows(script, from, before, false)
      requires model.pc.Sending? && model.out.flight == chunk
      modifies this
      ensures from <= k <= |script| && (!done ==> from < k && !over)
      ensures Valid() && Reached(start, acts, model) && Follows(script, k, acts, over)
      ensures if done then model.pc.Idle? else model.pc.Draining?
    {
      k, done, over, acts := from, false, false, before;
      var sent := 0;
      while sent < |chunk|
        invariant from <= k <= |script| && 0 <= sent <= |chunk|
        invariant Valid() && Reached(start, acts, model) && Follows(script, k, acts, false) && !over
        invariant model.out.flight == chunk[sent..]
        invariant if sent < |chunk| then model.pc.Sending? else model.pc.Draining? && from < k
        decreases |script| - k
      {
        sent, k, done, over, acts := SendNext(chunk, sent, script, k, start, acts);
        if done {
          return;
        }
      }
    }

    /** The other threads' turn and then one send; `done` says that it ended the drain. */
    method SendNext(chunk: Bytes, sent: nat, script: seq<Event>, from: nat, ghost start: Conn, ghost before: seq<Action>)
      returns (sent': nat, k: nat, done: bool, ghost over: bool, ghost acts: seq<Action>)
      requires Valid() && Schedule(script) && Reached(start, before, model) && Follows(script, from, before, false)
      requires model.pc.Sending? && sent < |chunk| && model.out.flight == chunk[sent..]
      modifies this
      ensures Valid() && Reached(start, acts, model) && Follows(script, k, acts, over)
      ensures from <= k <= |script| && sent <= sent' <= |chunk| && (!done ==> from < k && !over)
      ensures if done then model.pc.Idle?
              else model.out.flight == chunk[sent'..] && if sent' < |chunk| then model.pc.Sending? else model.pc.Draining?
    {
      DrainsOpen(model);
      k, acts := Interleave(script, from, start, before);
      if k == |script| {
        sent' := NextSend(chunk, sent, SendWouldBlock, start, acts);
        FollowsOver(script, acts);
        return sent', k, true, true, acts + [Send(SendWouldBlock)];
      }
      var r := script[k].result;
      sent' := NextSend(chunk, sent, r, start, acts);
      FollowsNext(script, k, acts);
      return sent', k + 1, !r.SendOk?, false, acts + [Send(r)];
    }

    /** The locked section of a start, pause or resume task: the mask to install. */
    method ChooseMask(task: Task) returns (mask: Interest)
      requires Valid() && (task.StartTask? || task.PauseTask? || task.ResumeTask?)
      modifies `model
      ensures mask == Interest(!task.PauseTask?, if task.StartTask? then writeQueue != [] else writeRegistered)
      ensures Valid() && model == old(model).(pc := if task.StartTask? then Adding(mask) else Modifying(mask))
    {
      if task.StartTask? {
        mask := Interest(true, writeQueue != []);
        model := model.(pc := Adding(mask));
      } else {
        mask := Interest(task.ResumeTask?, writeRegistered);
        model := model.(pc := Modifying(mask));
      }
    }

    method PopTask() returns (task: Task)
      requires Valid() && posts != []
      modifies `posts, `model
      ensures Valid() && task == old(posts[0]) && model == old(model).(posts := old(posts)[1..])
    {
      task := posts[0];
      posts := posts[1..];
      model := model.(posts := posts);
    }

    /** The first half of a posted task. `pending` says a dispatcher call with `mask` is still to come. */
    method BeginTask() returns (task: Task, pending: bool, mask: Interest)
      requires Valid() && model.pc.Idle? && posts != []
      modifies this
      ensures Valid() && model == Step(old(model), RunTask)
      ensures task == old(posts[0]) && posts == old(posts)[1..]
      ensures pending <==> task.StartTask? || ((task.PauseTask? || task.ResumeTask?) && !old(closed))
      ensures closed == (old(closed) || task.CloseTask?)
      ensures if pending then model.pc == (if task.StartTask? then Adding(mask) else Modifying(mask)) else model.pc.Idle?
    {
      pending, mask := false, Interest(true, true);
      task := PopTask();
      if task.StartTask? || ((task.PauseTask? || task.ResumeTask?) && !closed) {
        pending := true;
        mask := ChooseMask(task);
      } else if task.RegisterTask? && !closed {
        DispatcherModify(mask);
      } else if task.CloseTask? {
        InitiateClose();
      }
    }

    method InstallMask(mask: Interest)
      requires Valid() && model.pc == Adding(mask)
      modifies `tracked, `interest, `model
      ensures Valid() && model == FinishTask(old(model)) && (!closed ==> tracked && interest == mask)
    {
      model := FinishTask(model);
      if !closed {
        tracked, interest := true, mask;
      }
    }

    method ReplaceMask(mask: Interest)
      requires Valid() && model.pc == Modifying(mask)
      modifies `interest, `model
      ensures Valid() && model == FinishTask(old(model)) && (tracked ==> interest == mask)
    {
      model := model.(pc := Idle);
      DispatcherModify(mask);
    }

    /** The dispatcher call that ends a start, pause or resume task. */
    method EndTask(task: Task, mask: Interest)
      requires Valid() && model.pc == if task.StartTask? then Adding(mask) else Modifying(mask)
      modifies this
      ensures Valid() && model == Step(old(model), ApplyInterest) && model.pc.Idle? && closed == old(closed)
    {
      if task.StartTask? {
        InstallMask(mask);
      } else {
        ReplaceMask(mask);
      }
    }

    /** Pops and runs the oldest posted task; a start, pause or resume task makes its
        dispatcher call after its locked section, and other threads may act between. */
    method RunPostedTask(others: seq<Action>) returns (task: Task, ghost acts: seq<Action>)
      requires Valid() && Inv(model) && model.pc.Idle? && posts != []
      requires forall i :: 0 <= i < |others| ==> UserAction(others[i])
      modifies this
      ensures Valid() && Reached(old(model), acts, model) && model.pc.Idle? && task == old(posts[0])
      ensures closed == (old(closed) || task.CloseTask?)
      ensures acts == if task.StartTask? || ((task.PauseTask? || task.ResumeTask?) && !old(closed))
                      then [RunTask] + (if old(closed) then [] else others) + [ApplyInterest] else [RunTask]
    {
      ghost var start := model;
      var pending, mask;
      task, pending, mask := FirstHalf(start);
      acts := [RunTask];
      if pending {
        acts := CallDispatcher(task, mask, others, start, acts);
      }
    }

    method FirstHalf(ghost start: Conn) returns (task: Task, pending: bool, mask: Interest)
      requires Valid() && Inv(model) && model.pc.Idle? && posts != [] && start == model
      modifies this
      ensures Valid() && Reached(start, [RunTask], model)
      ensures task == old(posts[0]) && closed == (old(closed) || task.CloseTask?)
      ensures pending <==> task.StartTask? || ((task.PauseTask? || task.ResumeTask?) && !old(closed))
      ensures if pending then model.pc == (if task.StartTask? then Adding(mask) else Modifying(mask)) else model.pc.Idle?
    {
      ReachedFirst(start, RunTask);
      task, pending, mask := BeginTask();
    }

    /** The dispatcher call of a task, after what other threads do first. */
    method CallDispatcher(task: Task, mask: Interest, others: seq<Action>, ghost start: Conn, ghost before: seq<Action>)
      returns (ghost acts: seq<Action>)
      requires Valid() && Reached(start, before, model) && forall i :: 0 <= i < |others| ==> UserAction(others[i])
      requires model.pc == if task.StartTask? then Adding(mask) else Modifying(mask)
      modifies this
      ensures Valid() && Reached(start, acts, model) && model.pc.Idle? && closed == old(closed)
      ensures acts == before + (if closed then [] else others) + [ApplyInterest]
    {
      acts := PlayOthers(others, start, before);
      ReachedNext(start, acts, model, ApplyInterest);
      EndTask(task, mask);
      acts := acts + [ApplyInterest];
    }

    /** The dispatcher's callback for this socket. `recv` is what a read would return.
        The run it performs is the event followed by its drain. */
    method OnIoEvent(error: bool, readable: bool, writable: bool, recv: RecvResult, script: seq<Event>)
      returns (drain: bool, ghost used: nat, ghost over: bool, ghost acts: seq<Action>)
      requires Valid() && Schedule(script) && Inv(model) && model.pc.Idle? && tracked
      modifies this
      ensures Valid() && Reached(Step(old(model), IoEvent(error, readable, writable, recv)), acts, model) && model.pc.Idle?
      ensures drain <==> !error && writable && (readable ==> recv.RecvData? && recv.data != [])
      ensures if drain then Follows(script, used, acts, over) else acts == []
    {
      StepInv(model, IoEvent(error, readable, writable, recv));
      drain := HandleEvent(error, readable, writable, recv);
      used, over, acts := 0, false, [];
      if drain {
        used, over, acts := DrainWriteQueue(script, model, []);
      }
    }

    /** Hands a copy of the received bytes to the serial queue. */
    method DeliverData(data: Bytes)
      requires Valid()
      modifies `submitted, `model
      ensures Valid() && model == old(model).(inp := Receiving(old(model).inp, data))
      ensures submitted == old(submitted) + if hasOnData then [OnData(data)] else []
    {
      model := model.(inp := Receiving(model.inp, data));
      if hasOnData {
        submitted := submitted + [OnData(data)];
      }
    }

    ghost method EnterDrain(writable: bool)
      requires Valid()
      modifies `model
      ensures Valid() && model == if writable then old(model).(pc := Draining) else old(model)
    {
      if writable {
        model := model.(pc := Draining);
      }
    }

    /** The readable part of an event; `done` says that handling ends here. */
    method HandleReadable(recv: RecvResult) returns (done: bool)
      requires Valid() && model.pc.Idle? && tracked && !closed
      modifies this
      ensures Valid() && model.pc.Idle?
      ensures done <==> !recv.RecvData? || recv.data == []
      ensures closed <==> recv.RecvEof? || recv.RecvError? || (recv.RecvData? && recv.data == [])
      ensures model == if recv.RecvWouldBlock? then old(model)
                       else if done then ConnectionProtocol.InitiateClose(old(model))
                       else old(model).(inp := Receiving(old(model).inp, recv.data))
    {
      if recv.RecvWouldBlock? {
        return true;
      }
      if !recv.RecvData? || |recv.data| == 0 {
        InitiateClose();
        return true;
      }
      DeliverData(recv.data);
      return false;
    }

    method HandleEvent(error: bool, readable: bool, writable: bool, recv: RecvResult) returns (drain: bool)
      requires Valid() && Inv(model) && model.pc.Idle? && tracked
      modifies this
      ensures drain <==> !error && writable && (readable ==> recv.RecvData? && recv.data != [])
      ensures closed <==> error || (readable && (recv.RecvEof? || recv.RecvError? || (recv.RecvData? && recv.data == [])))
      ensures Valid() && model == Step(old(model), IoEvent(error, readable, writable, recv))
      ensures if drain then model.pc.Draining? else model.pc.Idle?
    {
      if closed {
        return false;
      }
      if error {
        InitiateClose();
        return false;
      }
      if readable {
        var done := HandleReadable(recv);
        if done {
          return false;
        }
      }
      EnterDrain(writable);
      return writable;
    }
  }
}
