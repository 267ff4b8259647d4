/** What the IOCP dispatcher guarantees on every run. */
module IocpTheorems {
  import opened IocpProtocol
  import opened IocpInvariant

  lemma InitInv()
    ensures Inv(Init())
  {
  }

  /** A pending flag is set exactly while its operation is in flight, and no
      operation is ever in flight twice. */
  lemma PendingIffInFlight(acts: seq<Action>, t: Ticket)
    ensures var p := Exec(Init(), acts);
            && Flight(p, t) <= 1
            && (t.fd in p.socks ==> (IsPending(p.socks[t.fd], t.op) <==> Flight(p, t) == 1))
  {
    InitInv();
    ExecInv(Init(), acts);
    assert FlightOk(Exec(Init(), acts), t);
  }

  /** What the interest of socket `fd` needs is in flight: all four receive slots for a
      datagram socket. */
  ghost predicate WatchedBy(p: Port, fd: Fd)
    requires fd in p.socks
  {
    var s := p.socks[fd];
    if s.kind.Dgram? then
      s.interest.read ==> forall k :: 0 <= k < DGRAM_RECV_SLOTS ==> Flight(p, Ticket(fd, SlotOp(k))) == 1
    else
      (s.interest.read ==> Flight(p, Ticket(fd, ReadOp)) == 1)
      && (s.interest.write ==> Flight(p, Ticket(fd, WriteOp)) == 1)
  }

  lemma BackedIsWatched(p: Port, fd: Fd)
    requires InFlightOnce(p) && fd in p.socks && Backed(p.socks[fd])
    ensures WatchedBy(p, fd)
  {
    assert FlightOk(p, Ticket(fd, ReadOp)) && FlightOk(p, Ticket(fd, WriteOp));
    forall k | 0 <= k < DGRAM_RECV_SLOTS && p.socks[fd].kind.Dgram? && p.socks[fd].interest.read
      ensures Flight(p, Ticket(fd, SlotOp(k))) == 1
    {
      assert FlightOk(p, Ticket(fd, SlotOp(k)));
    }
  }

  lemma IdleIsWatched(p: Port, fd: Fd)
    requires Inv(p) && p.pc.Idle? && fd in p.socks
    ensures WatchedBy(p, fd)
  {
    BackedIsWatched(p, fd);
  }

  /** Readiness emulation: between polls every interest is backed by operations in
      flight. */
  lemma InterestIsWatched(acts: seq<Action>, fd: Fd)
    ensures var p := Exec(Init(), acts); p.pc.Idle? && fd in p.socks ==> WatchedBy(p, fd)
  {
    InitInv();
    ExecInv(Init(), acts);
    if Exec(Init(), acts).pc.Idle? && fd in Exec(Init(), acts).socks { IdleIsWatched(Exec(Init(), acts), fd); }
  }

  // ---- completion order --------------------------------------------------------

  /** The datagram a completion carries for socket `fd`, if any. */
  function DataOf(c: Completion, fd: Fd): seq<Bytes> {
    if c.ticket.fd == fd && c.ticket.op.SlotOp? && c.data != [] then [c.data] else []
  }

  function DataIn(cs: seq<Completion>, fd: Fd): seq<Bytes> {
    if cs == [] then [] else DataIn(cs[..|cs| - 1], fd) + DataOf(cs[|cs| - 1], fd)
  }

  /** What one action adds to the datagrams the kernel has completed. */
  function CompletedBy(p: Port, a: Action, fd: Fd): seq<Bytes> {
    if a.Complete? && a.i < |p.issued| then DataOf(Completion(p.issued[a.i], a.data), fd) else []
  }

  function RetrievedBy(p: Port, a: Action, fd: Fd): seq<Bytes> {
    if a == Retrieve(fd) && fd in p.socks && p.socks[fd].queue != [] then [p.socks[fd].queue[0]] else []
  }

  predicate Registers(p: Port, a: Action, fd: Fd) {
    a.Add? && a.fd == fd && Addable(p, fd)
  }

  /** The datagrams the kernel has completed on socket `fd` since it was added, in
      completion order. */
  function Completed(acts: seq<Action>, fd: Fd): seq<Bytes> {
    if acts == [] then []
    else
      var p, last := Exec(Init(), acts[..|acts| - 1]), acts[|acts| - 1];
      if Registers(p, last, fd) then [] else Completed(acts[..|acts| - 1], fd) + CompletedBy(p, last, fd)
  }

  /** The datagrams retrieve_dgram has handed out for it. */
  function Retrieved(acts: seq<Action>, fd: Fd): seq<Bytes> {
    if acts == [] then []
    else
      var p, last := Exec(Init(), acts[..|acts| - 1]), acts[|acts| - 1];
      if Registers(p, last, fd) then [] else Retrieved(acts[..|acts| - 1], fd) + RetrievedBy(p, last, fd)
  }

  /** The datagrams on their way from the kernel to retrieve_dgram and beyond. */
  function Flow(p: Port, fd: Fd): seq<Bytes>
    requires fd in p.socks
  {
    p.socks[fd].got + DataIn(p.batch, fd) + DataIn(p.done, fd)
  }

  lemma DataInAppend(cs: seq<Completion>, c: Completion, fd: Fd)
    ensures DataIn(cs + [c], fd) == DataIn(cs, fd) + DataOf(c, fd)
  {
    assert (cs + [c])[..|cs|] == cs;
  }

  lemma {:induction false} DataInConcat(a: seq<Completion>, b: seq<Completion>, fd: Fd)
    ensures DataIn(a + b, fd) == DataIn(a, fd) + DataIn(b, fd)
  {
    if b == [] {
      assert a + b == a;
    } else {
      assert (a + b)[..|a + b| - 1] == a + b[..|b| - 1];
      DataInConcat(a, b[..|b| - 1], fd);
    }
  }

  lemma DataInOne(c: Completion, fd: Fd)
    ensures DataIn([c], fd) == DataOf(c, fd)
  {
    assert [c][..0] == [];
    assert [] + DataOf(c, fd) == DataOf(c, fd);
  }

  lemma DataInPop(cs: seq<Completion>, fd: Fd)
    requires cs != []
    ensures DataIn(cs, fd) == DataOf(cs[0], fd) + DataIn(cs[1..], fd)
  {
    assert [cs[0]] + cs[1..] == cs;
    DataInConcat([cs[0]], cs[1..], fd);
    DataInOne(cs[0], fd);
  }

  lemma {:induction false} DataInNone(cs: seq<Completion>, fd: Fd)
    requires forall i :: 0 <= i < |cs| ==> cs[i].ticket.fd != fd
    ensures DataIn(cs, fd) == []
  {
    if cs != [] { DataInNone(cs[..|cs| - 1], fd); }
  }

  ghost predicate Recorded(p: Port, acts: seq<Action>, fd: Fd) {
    fd in p.socks ==> Completed(acts, fd) == Flow(p, fd) && p.socks[fd].taken == Retrieved(acts, fd)
  }

  /** The datagram records of all sockets, and the completions, are the same. */
  ghost predicate SameRecords(p: Port, r: Port) {
    && r.socks.Keys == p.socks.Keys && r.batch == p.batch && r.done == p.done
    && forall g :: g in p.socks ==> r.socks[g].got == p.socks[g].got && r.socks[g].taken == p.socks[g].taken
  }

  lemma ArmSame(p: Port, fd: Fd, op: Op)
    requires fd in p.socks
    ensures SameRecords(p, Arm(p, fd, op))
  {
  }

  lemma {:induction false} ArmSlotsSame(p: Port, fd: Fd, i: nat)
    requires fd in p.socks && i <= DGRAM_RECV_SLOTS
    ensures SameRecords(p, ArmSlots(p, fd, i))
    decreases DGRAM_RECV_SLOTS - i
  {
    if i < DGRAM_RECV_SLOTS {
      ArmSame(p, fd, SlotOp(i));
      ArmSlotsSame(Arm(p, fd, SlotOp(i)), fd, i + 1);
    }
  }

  lemma ArmBothSame(p: Port, fd: Fd, r: bool, w: bool)
    requires fd in p.socks
    ensures SameRecords(p, ArmIf(ArmIf(p, fd, ReadOp, r), fd, WriteOp, w))
  {
    ArmSame(p, fd, ReadOp);
    ArmSame(ArmIf(p, fd, ReadOp, r), fd, WriteOp);
  }

  lemma AddRecord(p: Port, g: Fd, kind: Kind, interest: Interest)
    ensures var slots := if kind.Dgram? && interest.read then Unarmed else [];
            var s := Sock(kind, interest, false, false, slots, [], false, [], []);
            SameRecords(p.(socks := p.socks[g := s]), AddSocket(p, g, kind, interest))
  {
    var slots := if kind.Dgram? && interest.read then Unarmed else [];
    var p1 := p.(socks := p.socks[g := Sock(kind, interest, false, false, slots, [], false, [], [])]);
    ArmSlotsSame(p1, g, 0);
    ArmBothSame(p1, g, interest.read, interest.write);
  }

  lemma ModifyRecord(p: Port, g: Fd, interest: Interest)
    requires g in p.socks
    ensures SameRecords(p, ModifySocket(p, g, interest))
  {
    var s := p.socks[g];
    var slots := if s.kind.Dgram? && interest.read && !s.interest.read && s.slots == [] then Unarmed else s.slots;
    var p1 := p.(socks := p.socks[g := s.(interest := interest, slots := slots)]);
    if s.kind.Stream? {
      ArmBothSame(p1, g, interest.read && !s.interest.read, interest.write && !s.interest.write);
    } else {
      ArmSlotsSame(p1, g, 0);
    }
    SameTrans(p, p1, ModifySocket(p, g, interest));
  }

  lemma SameTrans(p: Port, q: Port, r: Port)
    requires SameRecords(p, q) && SameRecords(q, r)
    ensures SameRecords(p, r)
  {
  }

  lemma SlotRecord(p: Port, g: Fd, op: Op, data: Bytes, fd: Fd)
    requires g in p.socks && op.SlotOp?
    ensures var p' := SlotDone(p, g, op, data);
            && p'.socks.Keys == p.socks.Keys && p'.batch == p.batch && p'.done == p.done
            && (fd in p.socks ==>
                  && p'.socks[fd].taken == p.socks[fd].taken
                  && p'.socks[fd].got == p.socks[fd].got + if fd == g && data != [] then [data] else [])
  {
    var q := p.(socks := p.socks[g := AfterSlot(p.socks[g], op, data)]);
    ArmSame(q, g, op);
    var r := ArmIf(q, g, op, q.socks[g].interest.read);
    assert SlotDone(p, g, op, data) == Noted(r, g);
  }

  /** The head of the batch is an operation its socket can have. */
  predicate HeadFits(p: Port) {
    p.batch != [] && p.batch[0].ticket.fd in p.socks ==>
      var s, op := p.socks[p.batch[0].ticket.fd], p.batch[0].ticket.op;
      if s.kind.Dgram? then op.SlotOp? && op.slot < |s.slots| else !op.SlotOp?
  }

  lemma InvHeadFits(p: Port)
    requires Inv(p)
    ensures HeadFits(p)
  {
    if p.batch != [] && p.batch[0].ticket.fd in p.socks {
      HeadPending(p);
      assert SockOk(p.socks[p.batch[0].ticket.fd]);
    }
  }

  lemma Shift(got: seq<Bytes>, x: seq<Bytes>, rest: seq<Bytes>)
    ensures got + x + rest == got + (x + rest)
  {
  }

  lemma ProcessGot(p: Port, fd: Fd)
    requires HeadFits(p) && p.pc.Processing? && p.batch != [] && fd in Step(p, ProcessNext).socks
    ensures var p' := Step(p, ProcessNext);
            && fd in p.socks && p'.batch == p.batch[1..] && p'.done == p.done
            && p'.socks[fd].taken == p.socks[fd].taken
            && p'.socks[fd].got == p.socks[fd].got + DataOf(p.batch[0], fd)
  {
    var c, q := p.batch[0], p.(batch := p.batch[1..]);
    if c.ticket.fd in p.socks && p.socks[c.ticket.fd].kind.Dgram? {
      SlotRecord(q, c.ticket.fd, c.ticket.op, c.data, fd);
    }
  }

  /** A processed completion moves from the batch into its socket's records. */
  lemma ProcessRecord(p: Port, fd: Fd)
    requires HeadFits(p) && fd in Step(p, ProcessNext).socks
    ensures var p' := Step(p, ProcessNext);
            fd in p.socks && p'.socks[fd].taken == p.socks[fd].taken && Flow(p', fd) == Flow(p, fd)
  {
    if p.pc.Processing? && p.batch != [] {
      ProcessGot(p, fd);
      DataInPop(p.batch, fd);
      Shift(p.socks[fd].got, DataOf(p.batch[0], fd), DataIn(p.batch[1..], fd));
    }
  }

  lemma AddedRecord(p: Port, fd: Fd, kind: Kind, interest: Interest)
    requires Addable(p, fd)
    ensures var p' := AddSocket(p, fd, kind, interest);
            fd in p'.socks && Flow(p', fd) == [] && p'.socks[fd].taken == []
  {
    AddRecord(p, fd, kind, interest);
    DataInNone(p.done, fd);
    DataInNone(p.batch, fd);
  }

  lemma SameFlow(p: Port, r: Port, fd: Fd)
    requires SameRecords(p, r) && fd in p.socks
    ensures fd in r.socks && Flow(r, fd) == Flow(p, fd) && r.socks[fd].taken == p.socks[fd].taken
  {
  }

  lemma CompleteRecord(p: Port, i: nat, data: Bytes, fd: Fd)
    requires fd in p.socks
    ensures Flow(Step(p, Complete(i, data)), fd) == Flow(p, fd) + CompletedBy(p, Complete(i, data), fd)
  {
    if i < |p.issued| { DataInAppend(p.done, Completion(p.issued[i], data), fd); }
  }

  lemma DequeueRecord(p: Port, n: nat, fd: Fd)
    requires fd in p.socks && (p.pc.Idle? ==> p.batch == [])
    ensures Flow(Step(p, BeginPoll(n)), fd) == Flow(p, fd)
  {
    if p.pc.Idle? && n <= |p.done| && n <= MAX_ENTRIES {
      DataInConcat(p.done[..n], p.done[n..], fd);
      assert p.done == p.done[..n] + p.done[n..];
      Shift(p.socks[fd].got, DataIn(p.done[..n], fd), DataIn(p.done[n..], fd));
      assert p.socks[fd].got + [] == p.socks[fd].got;
    }
  }

  /** Steps that add, modify or re-arm sockets move no datagram. */
  lemma ArmingFlow(p: Port, a: Action, fd: Fd)
    requires (a.Add? || a.Modify? || a.EndCallback?) && fd in Step(p, a).socks && !Registers(p, a, fd)
    ensures fd in p.socks && Flow(Step(p, a), fd) == Flow(p, fd)
    ensures Step(p, a).socks[fd].taken == p.socks[fd].taken
  {
    match a
    case Add(g, kind, interest) => if Addable(p, g) { AddRecord(p, g, kind, interest); }
    case Modify(g, interest) =>
      if g in p.socks {
        ModifyRecord(p, g, interest);
        SameFlow(p, Step(p, a), fd);
      }
    case EndCallback =>
      if p.pc.InCallback? && p.pc.fd in p.socks {
        ArmBothSame(p.(pc := Processing), p.pc.fd, p.socks[p.pc.fd].interest.read, p.socks[p.pc.fd].interest.write);
        SameFlow(p, Step(p, a), fd);
      }
  }

  /** What a step adds to the datagrams of a socket it does not add. */
  lemma FlowStep(p: Port, a: Action, fd: Fd)
    requires HeadFits(p) && (p.pc.Idle? ==> p.batch == []) && fd in Step(p, a).socks && !Registers(p, a, fd)
    ensures fd in p.socks && Flow(Step(p, a), fd) == Flow(p, fd) + CompletedBy(p, a, fd)
    ensures Step(p, a).socks[fd].taken == p.socks[fd].taken + RetrievedBy(p, a, fd)
  {
    if a.Add? || a.Modify? || a.EndCallback? {
      ArmingFlow(p, a, fd);
    } else {
      match a
      case Complete(i, data) => CompleteRecord(p, i, data, fd);
      case BeginPoll(n) => DequeueRecord(p, n, fd);
      case ProcessNext => ProcessRecord(p, fd);
      case _ =>
    }
  }

  lemma StepRecorded(acts: seq<Action>, fd: Fd)
    requires acts != []
    requires var before := acts[..|acts| - 1];
             Inv(Exec(Init(), before)) && Recorded(Exec(Init(), before), before, fd)
    ensures Recorded(Exec(Init(), acts), acts, fd)
  {
    var p, last := Exec(Init(), acts[..|acts| - 1]), acts[|acts| - 1];
    if Registers(p, last, fd) {
      AddedRecord(p, fd, last.kind, last.interest);
    } else if fd in Step(p, last).socks {
      InvHeadFits(p);
      FlowStep(p, last, fd);
    }
  }

  lemma {:induction false} RunRecorded(acts: seq<Action>, fd: Fd)
    ensures Recorded(Exec(Init(), acts), acts, fd) && Inv(Exec(Init(), acts))
  {
    InitInv();
    ExecInv(Init(), acts);
    if acts != [] {
      RunRecorded(acts[..|acts| - 1], fd);
      StepRecorded(acts, fd);
    }
  }

  /** Datagrams leave retrieve_dgram once each and in completion order: those the
      kernel completed on a socket are those retrieved, then those buffered, then
      those poll has dequeued, then those still queued in the port. */
  lemma DatagramsInOrder(acts: seq<Action>, fd: Fd)
    ensures var p := Exec(Init(), acts);
            fd in p.socks ==>
              Completed(acts, fd) == Retrieved(acts, fd) + p.socks[fd].queue + DataIn(p.batch, fd) + DataIn(p.done, fd)
  {
    RunRecorded(acts, fd);
    if fd in Exec(Init(), acts).socks { assert SockOk(Exec(Init(), acts).socks[fd]); }
  }

  // ---- one notification a poll --------------------------------------------------

  /** Whether the step runs the callback of datagram socket `fd`. */
  predicate Calls(p: Port, a: Action, fd: Fd) {
    a.NotifyNext? && p.pc.Notifying? && p.notify != [] && p.notify[0] == fd && Step(p, a).pc.InDgramCallback?
  }

  /** The callbacks of datagram socket `fd` since the last poll began. */
  function CallsInPoll(acts: seq<Action>, fd: Fd): nat {
    if acts == [] then 0
    else
      var p, last := Exec(Init(), acts[..|acts| - 1]), acts[|acts| - 1];
      if last.BeginPoll? && Step(p, last) != p then 0
      else CallsInPoll(acts[..|acts| - 1], fd) + if Calls(p, last, fd) then 1 else 0
  }

  /** Whether a callback of the socket is still possible in this poll. */
  predicate MayCall(p: Port, fd: Fd) {
    p.pc.Processing? || p.pc.InCallback? || fd in p.notify
  }

  lemma NotifyStep(p: Port, a: Action, fd: Fd)
    requires NotedOnce(p) && !(a.BeginPoll? && Step(p, a) != p)
    ensures MayCall(Step(p, a), fd) ==> MayCall(p, fd) && !Calls(p, a, fd)
    ensures Calls(p, a, fd) ==> MayCall(p, fd)
  {
    if a.NotifyNext? && p.pc.Notifying? && p.notify != [] {
      assert forall i :: 0 <= i < |p.notify| - 1 ==> p.notify[1..][i] == p.notify[i + 1];
    } else if !a.ProcessNext? && !a.NotifyNext? {
      NotifyFrame(p, a);
    }
  }

  lemma NotifyFrame(p: Port, a: Action)
    requires !a.NotifyNext? && !a.ProcessNext?
    ensures Step(p, a).notify == p.notify
    ensures Step(p, a).pc == p.pc || a.BeginPoll? || a.EndCallback? || a.EndDgramCallback?
  {
    match a
    case Add(fd, kind, interest) =>
      if Addable(p, fd) {
        var slots := if kind.Dgram? && interest.read then Unarmed else [];
        ArmSlotsQuiet(p.(socks := p.socks[fd := Sock(kind, interest, false, false, slots, [], false, [], [])]), fd, 0);
      }
    case Modify(fd, interest) =>
      if fd in p.socks {
        var s := p.socks[fd];
        var slots := if s.kind.Dgram? && interest.read && !s.interest.read && s.slots == [] then Unarmed else s.slots;
        ArmSlotsQuiet(p.(socks := p.socks[fd := s.(interest := interest, slots := slots)]), fd, 0);
      }
    case _ =>
  }

  lemma {:induction false} ArmSlotsQuiet(p: Port, fd: Fd, i: nat)
    requires fd in p.socks && i <= DGRAM_RECV_SLOTS
    ensures ArmSlots(p, fd, i).notify == p.notify && ArmSlots(p, fd, i).pc == p.pc
    decreases DGRAM_RECV_SLOTS - i
  {
    if i < DGRAM_RECV_SLOTS { ArmSlotsQuiet(Arm(p, fd, SlotOp(i)), fd, i + 1); }
  }

  lemma {:induction false} CallsBounded(acts: seq<Action>, fd: Fd)
    ensures CallsInPoll(acts, fd) + (if MayCall(Exec(Init(), acts), fd) then 1 else 0) <= 1
  {
    if acts != [] {
      var p, last := Exec(Init(), acts[..|acts| - 1]), acts[|acts| - 1];
      CallsBounded(acts[..|acts| - 1], fd);
      InitInv();
      ExecInv(Init(), acts[..|acts| - 1]);
      if !(last.BeginPoll? && Step(p, last) != p) { NotifyStep(p, last, fd); }
    }
  }

  /** One poll runs the callback of a datagram socket at most once, however many of
      its datagrams completed. */
  lemma NotifiedOnce(acts: seq<Action>, fd: Fd)
    ensures CallsInPoll(acts, fd) <= 1
  {
    CallsBounded(acts, fd);
  }
}
