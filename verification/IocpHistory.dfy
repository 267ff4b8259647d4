/** Which sockets the IOCP dispatcher has, with which interest, and which callbacks its
polls run, in every run, in terms of the calls and completions in it. */
module IocpHistory {
  import opened IocpProtocol
  import opened IocpInvariant
  import opened IocpTheorems

  // ---- sockets and interests ------------------------------------------------------

  datatype Record = Absent | Present(kind: Kind, interest: Interest)

  /** What the calls in a run leave of socket `fd`: the kind it was added with, and the
      interest of the last add or modify. */
  function Asked(acts: seq<Action>, fd: Fd): Record {
    if acts == [] then Absent
    else
      var before, last := acts[..|acts| - 1], acts[|acts| - 1];
      match last
      case Add(g, kind, interest) =>
        if g == fd && Addable(Exec(Init(), before), fd) then Present(kind, interest) else Asked(before, fd)
      case Modify(g, interest) =>
        if g == fd && Asked(before, fd).Present? then Present(Asked(before, fd).kind, interest) else Asked(before, fd)
      case Remove(g) => if g == fd then Absent else Asked(before, fd)
      case _ => Asked(before, fd)
  }

  function RecordOf(p: Port, fd: Fd): Record {
    if fd in p.socks then Present(p.socks[fd].kind, p.socks[fd].interest) else Absent
  }

  /** The same sockets, of the same kinds and interests. */
  ghost predicate SameSockets(p: Port, r: Port) {
    r.socks.Keys == p.socks.Keys && forall g :: g in p.socks ==> RecordOf(r, g) == RecordOf(p, g)
  }

  lemma ArmSockets(p: Port, fd: Fd, op: Op)
    requires fd in p.socks
    ensures SameSockets(p, Arm(p, fd, op))
  {
  }

  lemma {:induction false} ArmSlotsSockets(p: Port, fd: Fd, i: nat)
    requires fd in p.socks && i <= DGRAM_RECV_SLOTS
    ensures SameSockets(p, ArmSlots(p, fd, i))
    decreases DGRAM_RECV_SLOTS - i
  {
    if i < DGRAM_RECV_SLOTS {
      ArmSockets(p, fd, SlotOp(i));
      ArmSlotsSockets(Arm(p, fd, SlotOp(i)), fd, i + 1);
    }
  }

  lemma ArmBothSockets(p: Port, fd: Fd, r: bool, w: bool)
    requires fd in p.socks
    ensures SameSockets(p, ArmIf(ArmIf(p, fd, ReadOp, r), fd, WriteOp, w))
  {
    ArmSockets(p, fd, ReadOp);
    ArmSockets(ArmIf(p, fd, ReadOp, r), fd, WriteOp);
  }

  lemma AddSockets(p: Port, g: Fd, kind: Kind, interest: Interest, fd: Fd)
    ensures RecordOf(AddSocket(p, g, kind, interest), fd) == if g == fd then Present(kind, interest) else RecordOf(p, fd)
  {
    var slots := if kind.Dgram? && interest.read then Unarmed else [];
    var p1 := p.(socks := p.socks[g := Sock(kind, interest, false, false, slots, [], false, [], [])]);
    ArmSlotsSockets(p1, g, 0);
    ArmBothSockets(p1, g, interest.read, interest.write);
  }

  lemma ModifySockets(p: Port, g: Fd, interest: Interest, fd: Fd)
    requires g in p.socks
    ensures RecordOf(ModifySocket(p, g, interest), fd) ==
            if g == fd then Present(p.socks[g].kind, interest) else RecordOf(p, fd)
  {
    var s := p.socks[g];
    var slots := if s.kind.Dgram? && interest.read && !s.interest.read && s.slots == [] then Unarmed else s.slots;
    var p1 := p.(socks := p.socks[g := s.(interest := interest, slots := slots)]);
    var r := ModifySocket(p, g, interest);
    assert SameSockets(p1, r) by {
      if s.kind.Dgram? {
        ArmSlotsSockets(p1, g, 0);
      } else {
        ArmBothSockets(p1, g, interest.read && !s.interest.read, interest.write && !s.interest.write);
      }
    }
    SameRecordOf(p1, r, fd);
  }

  lemma SameRecordOf(p: Port, r: Port, fd: Fd)
    requires SameSockets(p, r)
    ensures RecordOf(r, fd) == RecordOf(p, fd)
  {
    assert fd in r.socks <==> fd in r.socks.Keys;
  }

  lemma SlotSockets(p: Port, g: Fd, op: Op, data: Bytes, fd: Fd)
    requires g in p.socks && op.SlotOp?
    ensures RecordOf(SlotDone(p, g, op, data), fd) == RecordOf(p, fd)
  {
    var q := p.(socks := p.socks[g := AfterSlot(p.socks[g], op, data)]);
    ArmSockets(q, g, op);
    var r := ArmIf(q, g, op, q.socks[g].interest.read);
    assert SlotDone(p, g, op, data) == Noted(r, g);
  }

  lemma ProcessSockets(p: Port, fd: Fd)
    requires HeadFits(p)
    ensures RecordOf(Step(p, ProcessNext), fd) == RecordOf(p, fd)
  {
    if p.pc.Processing? && p.batch != [] {
      var c, q := p.batch[0], p.(batch := p.batch[1..]);
      if c.ticket.fd in p.socks && p.socks[c.ticket.fd].kind.Dgram? {
        SlotSockets(q, c.ticket.fd, c.ticket.op, c.data, fd);
      }
    }
  }

  lemma RearmSockets(p: Port, fd: Fd)
    ensures RecordOf(Step(p, EndCallback), fd) == RecordOf(p, fd)
  {
    if p.pc.InCallback? && p.pc.fd in p.socks {
      ArmBothSockets(p.(pc := Processing), p.pc.fd, p.socks[p.pc.fd].interest.read, p.socks[p.pc.fd].interest.write);
    }
  }

  lemma RecordStep(p: Port, a: Action, fd: Fd)
    requires HeadFits(p)
    ensures RecordOf(Step(p, a), fd) ==
            match a
            case Add(g, kind, interest) => if g == fd && Addable(p, fd) then Present(kind, interest) else RecordOf(p, fd)
            case Modify(g, interest) =>
              if g == fd && fd in p.socks then Present(p.socks[fd].kind, interest) else RecordOf(p, fd)
            case Remove(g) => if g == fd then Absent else RecordOf(p, fd)
            case _ => RecordOf(p, fd)
  {
    match a
    case Add(g, kind, interest) => if Addable(p, g) { AddSockets(p, g, kind, interest, fd); }
    case Modify(g, interest) => if g in p.socks { ModifySockets(p, g, interest, fd); }
    case ProcessNext => ProcessSockets(p, fd);
    case EndCallback => RearmSockets(p, fd);
    case _ =>
  }

  /** The dispatcher tracks exactly the sockets added and not removed since, each with the
      interest last asked for; neither completions nor callbacks change that. */
  lemma {:induction false} SocketIsAsked(acts: seq<Action>, fd: Fd)
    ensures RecordOf(Exec(Init(), acts), fd) == Asked(acts, fd)
  {
    if acts != [] {
      SocketIsAsked(acts[..|acts| - 1], fd);
      InitInv();
      ExecInv(Init(), acts[..|acts| - 1]);
      InvHeadFits(Exec(Init(), acts[..|acts| - 1]));
      RecordStep(Exec(Init(), acts[..|acts| - 1]), acts[|acts| - 1], fd);
    }
  }

  // ---- completions -----------------------------------------------------------------

  /** The completions the kernel has queued, in order. */
  function Queued(acts: seq<Action>): seq<Completion> {
    if acts == [] then []
    else
      var p, last := Exec(Init(), acts[..|acts| - 1]), acts[|acts| - 1];
      Queued(acts[..|acts| - 1]) +
      if last.Complete? && last.i < |p.issued| then [Completion(p.issued[last.i], last.data)] else []
  }

  /** Those that polls have handled. */
  function Handled(acts: seq<Action>): seq<Completion> {
    if acts == [] then []
    else
      var p := Exec(Init(), acts[..|acts| - 1]);
      Handled(acts[..|acts| - 1]) +
      if acts[|acts| - 1].ProcessNext? && p.pc.Processing? && p.batch != [] then [p.batch[0]] else []
  }

  lemma QueuesStep(p: Port, a: Action)
    requires HeadFits(p)
    ensures var p' := Step(p, a);
            match a
            case Complete(i, data) =>
              p'.batch == p.batch && p'.done == p.done + if i < |p.issued| then [Completion(p.issued[i], data)] else []
            case BeginPoll(n) =>
              if p.pc.Idle? && n <= |p.done| && n <= MAX_ENTRIES
              then p'.batch == p.done[..n] && p'.done == p.done[n..] else p'.batch == p.batch && p'.done == p.done
            case ProcessNext =>
              p'.done == p.done && p'.batch == if p.pc.Processing? && p.batch != [] then p.batch[1..] else p.batch
            case _ => p'.batch == p.batch && p'.done == p.done
  {
    match a
    case Add(g, kind, interest) => if Addable(p, g) { AddRecord(p, g, kind, interest); }
    case Modify(g, interest) => if g in p.socks { ModifyRecord(p, g, interest); }
    case ProcessNext => if p.pc.Processing? && p.batch != [] { ProcessQueues(p); }
    case EndCallback =>
      if p.pc.InCallback? && p.pc.fd in p.socks {
        ArmBothSame(p.(pc := Processing), p.pc.fd, p.socks[p.pc.fd].interest.read, p.socks[p.pc.fd].interest.write);
      }
    case _ =>
  }

  lemma ProcessQueues(p: Port)
    requires HeadFits(p) && p.pc.Processing? && p.batch != []
    ensures Step(p, ProcessNext).batch == p.batch[1..] && Step(p, ProcessNext).done == p.done
  {
    var c, q := p.batch[0], p.(batch := p.batch[1..]);
    if c.ticket.fd in p.socks && p.socks[c.ticket.fd].kind.Dgram? {
      SlotRecord(q, c.ticket.fd, c.ticket.op, c.data, c.ticket.fd);
    }
  }

  lemma Requeue(all: seq<Completion>, seen: seq<Completion>, batch: seq<Completion>, done: seq<Completion>, n: nat)
    requires all == seen + batch + done
    ensures forall more: seq<Completion> :: all + more == seen + batch + (done + more)
    ensures batch != [] ==> all == seen + [batch[0]] + batch[1..] + done
    ensures batch == [] && n <= |done| ==> all == seen + done[..n] + done[n..]
  {
    forall more: seq<Completion> ensures all + more == seen + batch + (done + more) {}
    if batch == [] && n <= |done| { assert done == done[..n] + done[n..]; }
  }

  /** Polls handle every completion once and in the order in which the kernel queued them. */
  lemma {:induction false} CompletionsInOrder(acts: seq<Action>)
    ensures var p := Exec(Init(), acts); Queued(acts) == Handled(acts) + p.batch + p.done
  {
    if acts != [] {
      var before, last := acts[..|acts| - 1], acts[|acts| - 1];
      var p := Exec(Init(), before);
      CompletionsInOrder(before);
      InitInv();
      ExecInv(Init(), before);
      InvHeadFits(p);
      QueuesStep(p, last);
      var n := if last.BeginPoll? then last.n else 0;
      Requeue(Queued(before), Handled(before), p.batch, p.done, n);
      assert Queued(before) + [] == Queued(before) && Handled(before) + [] == Handled(before);
    }
  }

  // ---- callbacks -----------------------------------------------------------------------

  /** A handled completion runs the callback of its socket exactly if that is a tracked
      stream socket. */
  lemma StreamCalledIff(acts: seq<Action>, fd: Fd)
    ensures var p := Exec(Init(), acts);
            p.pc.Processing? && p.batch != [] ==>
              (Step(p, ProcessNext).pc == InCallback(fd) <==>
               p.batch[0].ticket.fd == fd && Asked(acts, fd).Present? && Asked(acts, fd).kind.Stream?)
  {
    var p := Exec(Init(), acts);
    SocketIsAsked(acts, fd);
    InitInv();
    ExecInv(Init(), acts);
    InvHeadFits(p);
    if p.pc.Processing? && p.batch != [] { ProcessPc(p); }
  }

  lemma ProcessPc(p: Port)
    requires HeadFits(p) && p.pc.Processing? && p.batch != []
    ensures Step(p, ProcessNext).pc ==
            var g := p.batch[0].ticket.fd; if g in p.socks && p.socks[g].kind.Stream? then InCallback(g) else Processing
  {
    var c, q := p.batch[0], p.(batch := p.batch[1..]);
    if c.ticket.fd in p.socks && p.socks[c.ticket.fd].kind.Dgram? {
      var r := q.(socks := q.socks[c.ticket.fd := AfterSlot(q.socks[c.ticket.fd], c.ticket.op, c.data)]);
      var u := ArmIf(r, c.ticket.fd, c.ticket.op, r.socks[c.ticket.fd].interest.read);
      assert SlotDone(q, c.ticket.fd, c.ticket.op, c.data) == Noted(u, c.ticket.fd);
    }
  }

  /** The step handles a receive slot of the tracked datagram socket `fd`. */
  predicate SlotFor(p: Port, a: Action, fd: Fd) {
    && a.ProcessNext? && p.pc.Processing? && p.batch != [] && p.batch[0].ticket.fd == fd
    && fd in p.socks && p.socks[fd].kind.Dgram?
  }

  predicate BeginsPoll(p: Port, a: Action) {
    a.BeginPoll? && p.pc.Idle? && a.n <= |p.done| && a.n <= MAX_ENTRIES
  }

  /** The receive slots of `fd` handled since the last poll began. */
  function SlotsInPoll(acts: seq<Action>, fd: Fd): nat {
    if acts == [] then 0
    else
      var p, last := Exec(Init(), acts[..|acts| - 1]), acts[|acts| - 1];
      if BeginsPoll(p, last) then 0 else SlotsInPoll(acts[..|acts| - 1], fd) + if SlotFor(p, last, fd) then 1 else 0
  }

  /** The turn of `fd` among the sockets to notify. */
  predicate TurnOf(p: Port, a: Action, fd: Fd) {
    a.NotifyNext? && p.pc.Notifying? && p.notify != [] && p.notify[0] == fd
  }

  function TurnsInPoll(acts: seq<Action>, fd: Fd): nat {
    if acts == [] then 0
    else
      var p, last := Exec(Init(), acts[..|acts| - 1]), acts[|acts| - 1];
      if BeginsPoll(p, last) then 0 else TurnsInPoll(acts[..|acts| - 1], fd) + if TurnOf(p, last, fd) then 1 else 0
  }

  lemma ProcessNotes(p: Port, fd: Fd)
    requires HeadFits(p) && NotedOnce(p) && p.pc.Processing? && p.batch != []
    ensures fd in Step(p, ProcessNext).notify <==> fd in p.notify || SlotFor(p, ProcessNext, fd)
  {
    var c, q := p.batch[0], p.(batch := p.batch[1..]);
    var g := c.ticket.fd;
    if g in p.socks && p.socks[g].kind.Dgram? {
      var r := q.(socks := q.socks[g := AfterSlot(q.socks[g], c.ticket.op, c.data)]);
      var u := ArmIf(r, g, c.ticket.op, r.socks[g].interest.read);
      assert SlotDone(q, g, c.ticket.op, c.data) == Noted(u, g);
      assert u.socks[g].notified == p.socks[g].notified && u.notify == p.notify;
    }
  }

  lemma TurnNotes(p: Port, fd: Fd)
    requires NotedOnce(p) && p.pc.Notifying? && p.notify != []
    ensures fd in Step(p, NotifyNext).notify <==> fd in p.notify && p.notify[0] != fd
  {
    assert p.notify == [p.notify[0]] + p.notify[1..];
    assert forall i :: 0 <= i < |p.notify| - 1 ==> p.notify[1..][i] == p.notify[i + 1];
    assert Step(p, NotifyNext).notify == p.notify[1..];
  }

  predicate BeforeNotifying(pc: Pc) {
    pc.Processing? || pc.InCallback?
  }

  lemma NoteStep(p: Port, a: Action, fd: Fd)
    requires HeadFits(p) && NotedOnce(p) && !BeginsPoll(p, a)
    ensures fd in Step(p, a).notify <==> (fd in p.notify && !TurnOf(p, a, fd)) || SlotFor(p, a, fd)
    ensures BeforeNotifying(Step(p, a).pc) ==> BeforeNotifying(p.pc) && !TurnOf(p, a, fd)
    ensures SlotFor(p, a, fd) ==> BeforeNotifying(p.pc)
  {
    match a
    case ProcessNext =>
      if p.pc.Processing? && p.batch != [] {
        ProcessNotes(p, fd);
        ProcessPc(p);
      }
    case NotifyNext => if p.pc.Notifying? && p.notify != [] { TurnNotes(p, fd); }
    case _ => NotifyFrame(p, a);
  }

  /** A datagram socket gets a turn in a poll exactly if one of its receive slots is
      handled in it, and then one turn: it has had it or is still noted. */
  lemma {:induction false} OneTurnEach(acts: seq<Action>, fd: Fd)
    ensures var p := Exec(Init(), acts);
            && TurnsInPoll(acts, fd) + (if fd in p.notify then 1 else 0) == (if SlotsInPoll(acts, fd) > 0 then 1 else 0)
            && (BeforeNotifying(p.pc) ==> TurnsInPoll(acts, fd) == 0)
            && (p.pc.Idle? ==> p.notify == [])
  {
    InitInv();
    ExecInv(Init(), acts);
    if acts != [] {
      var p, last := Exec(Init(), acts[..|acts| - 1]), acts[|acts| - 1];
      OneTurnEach(acts[..|acts| - 1], fd);
      ExecInv(Init(), acts[..|acts| - 1]);
      InvHeadFits(p);
      if BeginsPoll(p, last) { NotifyFrame(p, last); } else { NoteStep(p, last, fd); }
    }
  }

  /** Its turn runs the callback exactly if the socket is still tracked, has a datagram
      buffered and is interested in reading. */
  lemma TurnCallsIff(acts: seq<Action>)
    ensures var p := Exec(Init(), acts);
            p.pc.Notifying? && p.notify != [] ==>
              var fd := p.notify[0];
              (Step(p, NotifyNext).pc.InDgramCallback? <==>
               Asked(acts, fd).Present? && Asked(acts, fd).interest.read && fd in p.socks && p.socks[fd].queue != [])
  {
    var p := Exec(Init(), acts);
    if p.pc.Notifying? && p.notify != [] { SocketIsAsked(acts, p.notify[0]); }
  }

  /** The callback a step runs, and what it is called with: readable for a finished read
      operation or a buffered datagram, writable for a finished write operation. */
  function CallBy(acts: seq<Action>, p: Port, a: Action): seq<Notice> {
    if a.ProcessNext? && p.pc.Processing? && p.batch != [] then
      var c := p.batch[0];
      if Asked(acts, c.ticket.fd).Present? && Asked(acts, c.ticket.fd).kind.Stream?
      then [if c.ticket.op.ReadOp? then Notice(c.ticket.fd, true, false, c.data == []) else Notice(c.ticket.fd, false, true, false)]
      else []
    else if a.NotifyNext? && p.pc.Notifying? && p.notify != [] then
      var fd := p.notify[0];
      if Asked(acts, fd).Present? && Asked(acts, fd).interest.read && fd in p.socks && p.socks[fd].queue != []
      then [Notice(fd, true, false, false)] else []
    else []
  }

  function CallsBy(acts: seq<Action>): seq<Notice> {
    if acts == [] then []
    else CallsBy(acts[..|acts| - 1]) + CallBy(acts[..|acts| - 1], Exec(Init(), acts[..|acts| - 1]), acts[|acts| - 1])
  }

  lemma {:induction false} ArmSlotsCalls(p: Port, fd: Fd, i: nat)
    requires fd in p.socks && i <= DGRAM_RECV_SLOTS
    ensures ArmSlots(p, fd, i).calls == p.calls
    decreases DGRAM_RECV_SLOTS - i
  {
    if i < DGRAM_RECV_SLOTS { ArmSlotsCalls(Arm(p, fd, SlotOp(i)), fd, i + 1); }
  }

  lemma CallsFrame(p: Port, a: Action)
    requires !a.NotifyNext? && !a.ProcessNext?
    ensures Step(p, a).calls == p.calls
  {
    match a
    case Add(fd, kind, interest) =>
      if Addable(p, fd) {
        var slots := if kind.Dgram? && interest.read then Unarmed else [];
        ArmSlotsCalls(p.(socks := p.socks[fd := Sock(kind, interest, false, false, slots, [], false, [], [])]), fd, 0);
      }
    case Modify(fd, interest) =>
      if fd in p.socks {
        var s := p.socks[fd];
        var slots := if s.kind.Dgram? && interest.read && !s.interest.read && s.slots == [] then Unarmed else s.slots;
        ArmSlotsCalls(p.(socks := p.socks[fd := s.(interest := interest, slots := slots)]), fd, 0);
      }
    case _ =>
  }

  lemma ProcessCalls(p: Port)
    requires HeadFits(p) && p.pc.Processing? && p.batch != []
    ensures Step(p, ProcessNext).calls == p.calls +
              var c := p.batch[0];
              if c.ticket.fd in p.socks && p.socks[c.ticket.fd].kind.Stream?
              then [if c.ticket.op.ReadOp? then Notice(c.ticket.fd, true, false, c.data == [])
                    else Notice(c.ticket.fd, false, true, false)]
              else []
  {
    var c, q := p.batch[0], p.(batch := p.batch[1..]);
    if c.ticket.fd in p.socks && p.socks[c.ticket.fd].kind.Dgram? {
      var r := q.(socks := q.socks[c.ticket.fd := AfterSlot(q.socks[c.ticket.fd], c.ticket.op, c.data)]);
      var u := ArmIf(r, c.ticket.fd, c.ticket.op, r.socks[c.ticket.fd].interest.read);
      assert SlotDone(q, c.ticket.fd, c.ticket.op, c.data) == Noted(u, c.ticket.fd);
    }
  }

  /** The same by the sockets' states. */
  function CallOf(p: Port, a: Action): seq<Notice> {
    if a.ProcessNext? && p.pc.Processing? && p.batch != [] then
      var c := p.batch[0];
      if c.ticket.fd in p.socks && p.socks[c.ticket.fd].kind.Stream?
      then [if c.ticket.op.ReadOp? then Notice(c.ticket.fd, true, false, c.data == []) else Notice(c.ticket.fd, false, true, false)]
      else []
    else if a.NotifyNext? && p.pc.Notifying? && p.notify != [] then
      var fd := p.notify[0];
      if fd in p.socks && p.socks[fd].interest.read && p.socks[fd].queue != [] then [Notice(fd, true, false, false)] else []
    else []
  }

  lemma CallStep(p: Port, a: Action)
    requires HeadFits(p)
    ensures Step(p, a).calls == p.calls + CallOf(p, a)
  {
    if a.ProcessNext? {
      if p.pc.Processing? && p.batch != [] { ProcessCalls(p); }
    } else if !a.NotifyNext? {
      CallsFrame(p, a);
    }
  }

  lemma SameCall(acts: seq<Action>, a: Action)
    ensures CallBy(acts, Exec(Init(), acts), a) == CallOf(Exec(Init(), acts), a)
  {
    var p := Exec(Init(), acts);
    if a.ProcessNext? && p.batch != [] { SocketIsAsked(acts, p.batch[0].ticket.fd); }
    if a.NotifyNext? && p.notify != [] { SocketIsAsked(acts, p.notify[0]); }
  }

  /** The callbacks run are exactly those, in order, and each is told of the operation
      that finished. */
  lemma {:induction false} CallbacksExact(acts: seq<Action>)
    ensures Exec(Init(), acts).calls == CallsBy(acts)
  {
    if acts != [] {
      var before, last := acts[..|acts| - 1], acts[|acts| - 1];
      CallbacksExact(before);
      InitInv();
      ExecInv(Init(), before);
      InvHeadFits(Exec(Init(), before));
      SameCall(before, last);
      CallStep(Exec(Init(), before), last);
    }
  }

  // ---- a poll ends ------------------------------------------------------------------------

  /** The next step of a poll. */
  function PollAction(pc: Pc): Action
    requires !pc.Idle?
  {
    match pc
    case Processing => ProcessNext
    case InCallback(_) => EndCallback
    case Notifying => NotifyNext
    case InDgramCallback => EndDgramCallback
  }

  /** How far a poll is from its end. */
  function Rank(p: Port): nat {
    match p.pc
    case Idle => 0
    case Notifying => 2 * |p.notify| + 1
    case InDgramCallback => 2 * |p.notify| + 2
    case Processing => 4 * |p.batch| + 2 * |p.notify| + 2
    case InCallback(_) => 4 * |p.batch| + 2 * |p.notify| + 3
  }

  predicate PollStep(p: Port, a: Action) {
    !p.pc.Idle? && a == PollAction(p.pc)
  }

  function PollSteps(p: Port, acts: seq<Action>): nat {
    if acts == [] then 0
    else PollSteps(p, acts[..|acts| - 1]) + if PollStep(Exec(p, acts[..|acts| - 1]), acts[|acts| - 1]) then 1 else 0
  }

  lemma ProcessRank(p: Port)
    requires HeadFits(p) && NotedOnce(p) && p.pc.Processing?
    ensures Rank(Step(p, ProcessNext)) < Rank(p)
  {
    if p.batch != [] {
      ProcessPc(p);
      ProcessQueues(p);
      NotedGrows(p);
    }
  }

  lemma NotedGrows(p: Port)
    requires HeadFits(p) && p.pc.Processing? && p.batch != []
    ensures |Step(p, ProcessNext).notify| <= |p.notify| + 1
    ensures Step(p, ProcessNext).pc.InCallback? ==> Step(p, ProcessNext).notify == p.notify
  {
    var c, q := p.batch[0], p.(batch := p.batch[1..]);
    var g := c.ticket.fd;
    if g in p.socks && p.socks[g].kind.Dgram? {
      var r := q.(socks := q.socks[g := AfterSlot(q.socks[g], c.ticket.op, c.data)]);
      var u := ArmIf(r, g, c.ticket.op, r.socks[g].interest.read);
      assert SlotDone(q, g, c.ticket.op, c.data) == Noted(u, g);
      assert u.notify == p.notify && u.pc == p.pc;
    }
  }

  lemma CallbackRank(p: Port)
    requires HeadFits(p) && p.pc.InCallback?
    ensures Rank(Step(p, EndCallback)) < Rank(p)
  {
    QueuesStep(p, EndCallback);
    NotifyFrame(p, EndCallback);
    EndCallbackPc(p);
  }

  lemma EndCallbackPc(p: Port)
    requires p.pc.InCallback?
    ensures Step(p, EndCallback).pc.Processing?
  {
  }

  /** Every step of a poll brings it nearer to its end, and nothing else takes it away. */
  lemma PollAdvances(p: Port, a: Action)
    requires HeadFits(p) && NotedOnce(p) && !BeginsPoll(p, a)
    ensures if PollStep(p, a) then Rank(Step(p, a)) < Rank(p) else Rank(Step(p, a)) == Rank(p)
  {
    match a
    case ProcessNext => if p.pc.Processing? { ProcessRank(p); }
    case EndCallback => if p.pc.InCallback? { CallbackRank(p); }
    case NotifyNext =>
    case EndDgramCallback =>
    case _ =>
      NotifyFrame(p, a);
      QueuesStep(p, a);
  }

  predicate NoPollBegins(p: Port, acts: seq<Action>) {
    acts != [] ==>
      NoPollBegins(p, acts[..|acts| - 1]) && !BeginsPoll(Exec(p, acts[..|acts| - 1]), acts[|acts| - 1])
  }

  /** A poll has at most `Rank` steps left, whatever its callbacks and the kernel do, and
      one more to take until it is over. */
  lemma {:induction false} PollEnds(p: Port, acts: seq<Action>)
    requires Inv(p) && NoPollBegins(p, acts)
    ensures PollSteps(p, acts) + Rank(Exec(p, acts)) <= Rank(p)
    ensures var e := Exec(p, acts); !e.pc.Idle? ==> Rank(Step(e, PollAction(e.pc))) < Rank(e)
    decreases |acts|
  {
    ExecInv(p, acts);
    InvHeadFits(Exec(p, acts));
    if !Exec(p, acts).pc.Idle? { PollAdvances(Exec(p, acts), PollAction(Exec(p, acts).pc)); }
    if acts != [] {
      PollEnds(p, acts[..|acts| - 1]);
      ExecInv(p, acts[..|acts| - 1]);
      InvHeadFits(Exec(p, acts[..|acts| - 1]));
      PollAdvances(Exec(p, acts[..|acts| - 1]), acts[|acts| - 1]);
    }
  }
}
