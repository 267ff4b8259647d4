/** The IOCP dispatcher object: its table of per-socket states updated in place by
add, modify, remove, retrieve_dgram and poll.

The kernel's side is kept in two fields, the operations issued and the
completions queued; `entries` and `dgramReady` are the local arrays of poll.
`Tied` relates all of them to the ghost field `model`.
*/
module IocpDispatcher {
  import opened IocpProtocol
  import opened IocpInvariant
  import opened IocpTheorems

  datatype Retrieval = WouldBlock | Datagram(data: Bytes)

  /** What a callback run by poll, or the kernel meanwhile, may do. */
  predicate Outside(a: Action) {
    a.Add? || a.Modify? || a.Remove? || a.Retrieve? || a.Complete?
  }

  predicate AllOutside(ops: seq<Action>) {
    forall i :: 0 <= i < |ops| ==> Outside(ops[i])
  }

  /** The descriptor whose stream callback is running, if one is. */
  function Current(pc: Pc): set<Fd> {
    if pc.InCallback? then {pc.fd} else {}
  }

  lemma OutsideKeepsPc(p: Port, a: Action)
    requires Outside(a)
    ensures Step(p, a).pc == p.pc
  {
    NotifyFrame(p, a);
  }

  // ---- the run that a poll performs ---------------------------------------------

  function ScriptAt(scripts: seq<seq<Action>>, k: nat): seq<Action> {
    if k < |scripts| then scripts[k] else []
  }

  /** One completion and, if it runs a stream callback, that callback and the re-arming. */
  function EntryActs(p: Port, ops: seq<Action>): seq<Action> {
    [ProcessNext] + if Step(p, ProcessNext).pc.InCallback? then ops + [EndCallback] else []
  }

  /** One datagram socket's turn and, if it runs its callback, that callback. */
  function ReadyActs(p: Port, ops: seq<Action>): seq<Action> {
    [NotifyNext] + if Step(p, NotifyNext).pc.InDgramCallback? then ops + [EndDgramCallback] else []
  }

  ghost predicate EntryTrips(states: seq<Port>, scripts: seq<seq<Action>>) {
    forall k :: 0 <= k < |states| - 1 ==> Follows(states[k], EntryActs(states[k], ScriptAt(scripts, k)), states[k + 1])
  }

  ghost predicate ReadyTrips(states: seq<Port>, scripts: seq<seq<Action>>, n: nat) {
    forall k :: 0 <= k < |states| - 1 ==> Follows(states[k], ReadyActs(states[k], ScriptAt(scripts, n + k)), states[k + 1])
  }

  ghost predicate Follows(p: Port, acts: seq<Action>, r: Port) {
    r == Exec(p, acts)
  }

  lemma MoreEntries(states: seq<Port>, scripts: seq<seq<Action>>, next: Port)
    requires states != [] && EntryTrips(states, scripts)
    requires var k := |states| - 1; Follows(states[k], EntryActs(states[k], ScriptAt(scripts, k)), next)
    ensures EntryTrips(states + [next], scripts)
  {
    var more := states + [next];
    forall k | 0 <= k < |states| ensures Follows(more[k], EntryActs(more[k], ScriptAt(scripts, k)), more[k + 1]) {
      if k < |states| - 1 { assert Follows(states[k], EntryActs(states[k], ScriptAt(scripts, k)), states[k + 1]); }
    }
  }

  lemma MoreReady(states: seq<Port>, scripts: seq<seq<Action>>, n: nat, next: Port)
    requires states != [] && ReadyTrips(states, scripts, n)
    requires var k := |states| - 1; Follows(states[k], ReadyActs(states[k], ScriptAt(scripts, n + k)), next)
    ensures ReadyTrips(states + [next], scripts, n)
  {
    var more := states + [next];
    forall k | 0 <= k < |states| ensures Follows(more[k], ReadyActs(more[k], ScriptAt(scripts, n + k)), more[k + 1]) {
      if k < |states| - 1 { assert Follows(states[k], ReadyActs(states[k], ScriptAt(scripts, n + k)), states[k + 1]); }
    }
  }

  ghost predicate At(start: Port, acts: seq<Action>, p: Port) {
    p == Exec(start, acts) && Inv(p)
  }

  lemma AtNext(start: Port, acts: seq<Action>, p: Port, a: Action)
    requires At(start, acts, p)
    ensures At(start, acts + [a], Step(p, a))
  {
    assert (acts + [a])[..|acts|] == acts;
    StepInv(p, a);
  }

  lemma AtFirst(p: Port, a: Action)
    requires Inv(p)
    ensures At(p, [a], Step(p, a))
  {
    AtNext(p, [], p, a);
    assert [] + [a] == [a];
  }

  lemma FirstOp(before: seq<Action>, ops: seq<Action>)
    requires ops != []
    ensures before + [ops[0]] + ops[1..] == before + ops
  {
  }

  lemma Assemble(a: Action, ops: seq<Action>, z: Action)
    ensures [a] + ops + [z] == [a] + (ops + [z])
  {
  }

  class Dispatcher {
    var states: map<Fd, Sock>
    var issued: seq<Ticket>
    var completions: seq<Completion>
    var entries: seq<Completion>
    var dgramReady: seq<Fd>
    var called: seq<Notice>
    ghost var model: Port

    ghost predicate Tied()
      reads this
    {
      && model.socks == states && model.issued == issued && model.done == completions
      && model.batch == entries && model.notify == dgramReady && model.calls == called
    }

    constructor ()
      ensures Tied() && Inv(model) && model == Init()
    {
      states, issued, completions, entries, dgramReady, called := map[], [], [], [], [], [];
      model := Init();
    }

    /** arm_read, arm_write and arm_recv_from: issue the operation unless it is pending. */
    method ArmOperation(fd: Fd, op: Op)
      requires Tied() && fd in states && Settable(states[fd], op)
      modifies `states, `issued, `model
      ensures Tied() && model == Arm(old(model), fd, op) && states.Keys == old(states).Keys
    {
      model := Arm(model, fd, op);
      if IsPending(states[fd], op) {
        return;
      }
      states := states[fd := SetPending(states[fd], op, true)];
      issued := issued + [Ticket(fd, op)];
    }

    method ArmRecvSlots(fd: Fd)
      requires Tied() && fd in states && |states[fd].slots| == DGRAM_RECV_SLOTS
      modifies `states, `issued, `model
      ensures Tied() && model == ArmSlots(old(model), fd, 0) && fd in states
    {
      for i := 0 to DGRAM_RECV_SLOTS
        invariant Tied() && fd in states && |states[fd].slots| == DGRAM_RECV_SLOTS
        invariant ArmSlots(model, fd, i) == ArmSlots(old(model), fd, 0)
      {
        ArmOperation(fd, SlotOp(i));
      }
    }

    method ArmStream(fd: Fd, read: bool, write: bool)
      requires Tied() && fd in states
      modifies `states, `issued, `model
      ensures Tied() && model == ArmIf(ArmIf(old(model), fd, ReadOp, read), fd, WriteOp, write)
    {
      if read { ArmOperation(fd, ReadOp); }
      if write { ArmOperation(fd, WriteOp); }
    }

    method AddSocket(fd: Fd, kind: Kind, interest: Interest)
      requires Tied() && Addable(model, fd)
      modifies `states, `issued, `model
      ensures Tied() && model == Step(old(model), Add(fd, kind, interest))
    {
      var slots := if kind.Dgram? && interest.read then Unarmed else [];
      states := states[fd := Sock(kind, interest, false, false, slots, [], false, [], [])];
      model := model.(socks := states);
      if kind.Dgram? {
        if interest.read { ArmRecvSlots(fd); }
      } else {
        ArmStream(fd, interest.read, interest.write);
      }
    }

    /** The mask is replaced; operations are issued for newly added directions only. */
    method ModifyInterest(fd: Fd, interest: Interest) returns (ok: bool)
      requires Tied() && Inv(model)
      modifies `states, `issued, `model
      ensures Tied() && model == Step(old(model), Modify(fd, interest)) && (ok <==> fd in old(states))
    {
      if fd !in states {
        return false;
      }
      var state := states[fd];
      assert SockOk(state);
      var allocate := state.kind.Dgram? && interest.read && !state.interest.read && state.slots == [];
      states := states[fd := state.(interest := interest, slots := if allocate then Unarmed else state.slots)];
      model := model.(socks := states);
      if state.kind.Dgram? {
        if interest.read && !state.interest.read { ArmRecvSlots(fd); }
      } else {
        ArmStream(fd, interest.read && !state.interest.read, interest.write && !state.interest.write);
      }
      return true;
    }

    method RemoveSocket(fd: Fd)
      requires Tied()
      modifies `states, `model
      ensures Tied() && model == Step(old(model), Remove(fd)) && fd !in states
    {
      model := Step(model, Remove(fd));
      states := states - {fd};
    }

    /** Hands out the oldest buffered datagram, cut to the caller's buffer. */
    method RetrieveDgram(fd: Fd, len: nat) returns (r: Retrieval)
      requires Tied() && Inv(model)
      modifies `states, `model
      ensures Tied() && model == Step(old(model), Retrieve(fd))
      ensures r.WouldBlock? <==> fd !in old(states) || old(states)[fd].queue == []
      ensures r.Datagram? ==>
                var front := old(states)[fd].queue[0];
                r.data == if len < |front| then front[..len] else front
    {
      if fd !in states || states[fd].queue == [] {
        return WouldBlock;
      }
      model := Step(model, Retrieve(fd));
      var state := states[fd];
      var front := state.queue[0];
      states := states[fd := state.(queue := state.queue[1..], taken := state.taken + [front])];
      return Datagram(if len < |front| then front[..len] else front);
    }

    /** The kernel finishes the i-th operation it holds. */
    method KernelCompletes(i: nat, data: Bytes)
      requires Tied() && i < |issued|
      modifies `issued, `completions, `model
      ensures Tied() && model == Step(old(model), Complete(i, data))
    {
      model := Step(model, Complete(i, data));
      completions := completions + [Completion(issued[i], data)];
      issued := issued[..i] + issued[i + 1..];
    }

    /** Adds a descriptor that has nothing left of an earlier registration; `current`
        holds the one whose callback is running. */
    method TryAdd(fd: Fd, kind: Kind, interest: Interest, current: set<Fd>)
      requires Tied() && Inv(model) && current == Current(model.pc)
      modifies `states, `issued, `model
      ensures Tied() && model == Step(old(model), Add(fd, kind, interest))
    {
      if fd !in states && fd !in dgramReady && fd !in current && Untouched(issued, completions, entries, fd) {
        AddSocket(fd, kind, interest);
      }
    }

    method DoOutside(a: Action, current: set<Fd>)
      requires Tied() && Inv(model) && Outside(a) && current == Current(model.pc)
      modifies `states, `issued, `completions, `model
      ensures Tied() && model == Step(old(model), a) && model.pc == old(model).pc
    {
      OutsideKeepsPc(model, a);
      match a
      case Add(fd, kind, interest) => TryAdd(fd, kind, interest, current);
      case Modify(fd, interest) => var _ := ModifyInterest(fd, interest);
      case Remove(fd) => RemoveSocket(fd);
      case Retrieve(fd) => var _ := RetrieveDgram(fd, 0);
      case Complete(i, data) => if i < |issued| { KernelCompletes(i, data); }
    }

    // ---- poll ------------------------------------------------------------------

    /** GetQueuedCompletionStatusEx. */
    method Dequeue(n: nat)
      requires Tied() && model.pc.Idle? && n <= |completions| && n <= MAX_ENTRIES
      modifies `completions, `entries, `model
      ensures Tied() && model == Step(old(model), BeginPoll(n)) && model.pc.Processing?
      ensures |entries| == n && old(completions) == entries + completions
    {
      model := Step(model, BeginPoll(n));
      entries, completions := completions[..n], completions[n..];
    }

    /** A completed receive slot. */
    method SlotCompleted(fd: Fd, slot: nat, data: Bytes)
      requires Tied() && fd in states && slot < |states[fd].slots|
      modifies `states, `issued, `dgramReady, `model
      ensures Tied() && model == SlotDone(old(model), fd, SlotOp(slot), data)
    {
      var state := states[fd].(slots := states[fd].slots[slot := false]);
      if data != [] {
        state := state.(queue := state.queue + [data], got := state.got + [data]);
      }
      states := states[fd := state];
      model := model.(socks := states);
      if state.interest.read {
        ArmOperation(fd, SlotOp(slot));
      }
      if !states[fd].notified {
        states := states[fd := states[fd].(notified := true)];
        dgramReady := dgramReady + [fd];
        model := model.(socks := states, notify := dgramReady);
      }
    }

    method PopEntry() returns (c: Completion)
      requires Tied() && entries != []
      modifies `entries, `model
      ensures Tied() && c == old(entries)[0] && model == old(model).(batch := old(entries)[1..])
    {
      c := entries[0];
      entries := entries[1..];
      model := model.(batch := entries);
    }

    /** One trip of poll's first loop, up to a stream callback; `runs` says one runs now. */
    method ProcessEntry() returns (runs: bool, fd: Fd)
      requires Tied() && Inv(model) && model.pc.Processing? && entries != []
      modifies `states, `issued, `entries, `dgramReady, `called, `model
      ensures Tied() && model == Step(old(model), ProcessNext)
      ensures if runs then model.pc == InCallback(fd) else model.pc.Processing?
      ensures entries == old(entries)[1..]
    {
      HeadPending(model);
      var c := PopEntry();
      fd := c.ticket.fd;
      if fd !in states {
        return false, fd;
      }
      assert SockOk(states[fd]);
      if states[fd].kind.Dgram? {
        SlotCompleted(fd, c.ticket.op.slot, c.data);
        return false, fd;
      }
      states := states[fd := SetPending(states[fd], c.ticket.op, false)];
      if c.ticket.op.ReadOp? {
        called := called + [Notice(fd, true, false, c.data == [])];
      } else {
        called := called + [Notice(fd, false, true, false)];
      }
      model := model.(socks := states, pc := InCallback(fd), calls := called);
      return true, fd;
    }

    /** The re-lookup and re-arming after a stream callback. */
    method AfterCallback(fd: Fd)
      requires Tied() && model.pc == InCallback(fd)
      modifies `states, `issued, `model
      ensures Tied() && model == Step(old(model), EndCallback) && model.pc.Processing?
    {
      model := model.(pc := Processing);
      if fd in states {
        ArmStream(fd, states[fd].interest.read, states[fd].interest.write);
      }
    }

    /** The operations a callback and the kernel perform while it runs. */
    method RunCallback(ops: seq<Action>, current: set<Fd>, ghost start: Port, ghost before: seq<Action>)
      requires Tied() && At(start, before, model) && AllOutside(ops) && current == Current(model.pc)
      modifies `states, `issued, `completions, `model
      ensures Tied() && At(start, before + ops, model) && model.pc == old(model).pc
      decreases |ops|
    {
      if ops == [] {
        assert before + ops == before;
      } else {
        NextOp(ops[0], current, start, before);
        RunCallback(ops[1..], current, start, before + [ops[0]]);
        FirstOp(before, ops);
      }
    }

    method NextOp(a: Action, current: set<Fd>, ghost start: Port, ghost before: seq<Action>)
      requires Tied() && At(start, before, model) && Outside(a) && current == Current(model.pc)
      modifies `states, `issued, `completions, `model
      ensures Tied() && At(start, before + [a], model) && model.pc == old(model).pc
    {
      AtNext(start, before, model, a);
      DoOutside(a, current);
    }

    /** A completion and, for a stream socket, its callback and re-arming. */
    method HandleEntry(ops: seq<Action>)
      requires Tied() && Inv(model) && AllOutside(ops) && model.pc.Processing? && entries != []
      modifies this
      ensures Tied() && At(old(model), EntryActs(old(model), ops), model) && model.pc.Processing?
      ensures entries == old(entries)[1..]
    {
      ghost var start := model;
      AtFirst(start, ProcessNext);
      var runs, fd := ProcessEntry();
      if runs {
        RunCallback(ops, {fd}, start, [ProcessNext]);
        AtNext(start, [ProcessNext] + ops, model, EndCallback);
        Assemble(ProcessNext, ops, EndCallback);
        AfterCallback(fd);
      }
    }

    /** The head of the second loop of poll; `runs` says the socket's callback runs now. */
    method NotifyHead() returns (runs: bool)
      requires Tied() && Inv(model) && model.pc.Notifying? && dgramReady != []
      modifies `states, `dgramReady, `called, `model
      ensures Tied() && model == Step(old(model), NotifyNext) && dgramReady == old(dgramReady)[1..]
      ensures if runs then model.pc.InDgramCallback? else model.pc.Notifying?
    {
      model := Step(model, NotifyNext);
      var fd := dgramReady[0];
      dgramReady := dgramReady[1..];
      if fd !in states {
        return false;
      }
      var state := states[fd];
      states := states[fd := state.(notified := false)];
      if state.queue == [] || !state.interest.read {
        return false;
      }
      called := called + [Notice(fd, true, false, false)];
      return true;
    }

    /** One noted socket's turn and its callback. */
    method HandleReady(ops: seq<Action>)
      requires Tied() && Inv(model) && AllOutside(ops) && model.pc.Notifying? && dgramReady != []
      modifies this
      ensures Tied() && At(old(model), ReadyActs(old(model), ops), model) && model.pc.Notifying?
      ensures dgramReady == old(dgramReady)[1..]
    {
      ghost var start := model;
      AtFirst(start, NotifyNext);
      var runs := NotifyHead();
      if runs {
        DgramCallback(ops, start, [NotifyNext]);
        Assemble(NotifyNext, ops, EndDgramCallback);
      }
    }

    method DgramCallback(ops: seq<Action>, ghost start: Port, ghost before: seq<Action>)
      requires Tied() && At(start, before, model) && AllOutside(ops) && model.pc.InDgramCallback?
      modifies `states, `issued, `completions, `model
      ensures Tied() && At(start, before + ops + [EndDgramCallback], model) && model.pc.Notifying?
    {
      RunCallback(ops, {}, start, before);
      AtNext(start, before + ops, model, EndDgramCallback);
      model := model.(pc := Notifying);
    }

    /** The first loop of poll: goes through the dequeued completions. */
    method HandleEntries(scripts: seq<seq<Action>>) returns (k: nat, ghost seen: seq<Port>)
      requires Tied() && Inv(model) && model.pc.Processing? && forall i :: 0 <= i < |scripts| ==> AllOutside(scripts[i])
      modifies this
      ensures Tied() && Inv(model) && model.pc.Processing? && entries == [] && k == |old(entries)|
      ensures |seen| == k + 1 && seen[0] == old(model) && seen[k] == model && EntryTrips(seen, scripts)
    {
      k, seen := 0, [model];
      while entries != []
        invariant Tied() && Inv(model) && model.pc.Processing? && k + |entries| == |old(entries)|
        invariant |seen| == k + 1 && seen[0] == old(model) && seen[k] == model && EntryTrips(seen, scripts)
        decreases |entries|
      {
        HandleEntry(if k < |scripts| then scripts[k] else []);
        MoreEntries(seen, scripts, model);
        k, seen := k + 1, seen + [model];
      }
    }

    /** The second loop of poll: notifies each noted datagram socket. */
    method NotifyAll(scripts: seq<seq<Action>>, n: nat) returns (ghost seen: seq<Port>)
      requires Tied() && Inv(model) && model.pc.Notifying? && forall i :: 0 <= i < |scripts| ==> AllOutside(scripts[i])
      modifies this
      ensures Tied() && Inv(model) && model.pc.Notifying? && dgramReady == []
      ensures |seen| == |old(dgramReady)| + 1 && seen[0] == old(model) && seen[|seen| - 1] == model && ReadyTrips(seen, scripts, n)
    {
      var k := 0;
      seen := [model];
      while dgramReady != []
        invariant Tied() && Inv(model) && model.pc.Notifying? && k + |dgramReady| == |old(dgramReady)|
        invariant |seen| == k + 1 && seen[0] == old(model) && seen[k] == model && ReadyTrips(seen, scripts, n)
        decreases |dgramReady|
      {
        HandleReady(if n + k < |scripts| then scripts[n + k] else []);
        MoreReady(seen, scripts, n, model);
        k, seen := k + 1, seen + [model];
      }
    }

    /** poll goes on to its next part; nothing but its position changes. */
    ghost method MoveOn(a: Action, pc: Pc)
      requires Tied() && Inv(model) && Step(model, a) == model.(pc := pc)
      modifies `model
      ensures Tied() && Inv(model) && model == Step(old(model), a) && model.pc == pc
    {
      StepInv(model, a);
      model := model.(pc := pc);
    }

    /** poll() on n dequeued completions: first go through them, running stream
        callbacks at once, then notify each noted datagram socket. `scripts[k]` is
        what happens during the k-th trip; `first` and `second` are the states at the
        heads of the two loops. */
    method Poll(n: nat, scripts: seq<seq<Action>>) returns (ghost first: seq<Port>, ghost second: seq<Port>)
      requires Tied() && Inv(model) && model.pc.Idle? && n <= |completions| && n <= MAX_ENTRIES
      requires forall k :: 0 <= k < |scripts| ==> AllOutside(scripts[k])
      modifies this
      ensures Tied() && Inv(model) && model.pc.Idle?
      ensures |first| == n + 1 && first[0] == Step(old(model), BeginPoll(n)) && EntryTrips(first, scripts)
      ensures second != [] && second[0] == Step(first[n], ProcessNext) && ReadyTrips(second, scripts, n)
      ensures |second| == |second[0].notify| + 1 && model == Step(second[|second| - 1], NotifyNext)
    {
      StepInv(model, BeginPoll(n));
      Dequeue(n);
      var k;
      k, first := HandleEntries(scripts);
      MoveOn(ProcessNext, Notifying);
      second := NotifyAll(scripts, n);
      MoveOn(NotifyNext, Idle);
    }
  }
}
