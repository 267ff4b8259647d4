/** Every step of the IOCP dispatcher keeps its invariant. */
module IocpInvariant {
  import opened IocpProtocol

  // ---- counting ----------------------------------------------------------------

  lemma CountAppend(ts: seq<Ticket>, x: Ticket, t: Ticket)
    ensures Count(ts + [x], t) == Count(ts, t) + if x == t then 1 else 0
  {
    assert (ts + [x])[..|ts|] == ts;
  }

  lemma {:induction false} CountConcat(a: seq<Ticket>, b: seq<Ticket>, t: Ticket)
    ensures Count(a + b, t) == Count(a, t) + Count(b, t)
  {
    if b == [] {
      assert a + b == a;
    } else {
      CountConcat(a, b[..|b| - 1], t);
      assert (a + b)[..|a + b| - 1] == a + b[..|b| - 1];
    }
  }

  lemma CountRemove(ts: seq<Ticket>, i: nat, t: Ticket)
    requires i < |ts|
    ensures Count(ts, t) == Count(ts[..i] + ts[i + 1..], t) + if ts[i] == t then 1 else 0
  {
    var a, b := ts[..i], ts[i + 1..];
    CountConcat(a, b, t);
    CountAppend(a, ts[i], t);
    CountConcat(a + [ts[i]], b, t);
    Reassemble(ts, i);
  }

  lemma Reassemble(ts: seq<Ticket>, i: nat)
    requires i < |ts|
    ensures ts[..i] + [ts[i]] + ts[i + 1..] == ts
  {
  }

  lemma CountDoneAppend(cs: seq<Completion>, x: Completion, t: Ticket)
    ensures CountDone(cs + [x], t) == CountDone(cs, t) + if x.ticket == t then 1 else 0
  {
    assert (cs + [x])[..|cs|] == cs;
  }

  lemma {:induction false} CountDoneConcat(a: seq<Completion>, b: seq<Completion>, t: Ticket)
    ensures CountDone(a + b, t) == CountDone(a, t) + CountDone(b, t)
  {
    if b == [] {
      assert a + b == a;
    } else {
      CountDoneConcat(a, b[..|b| - 1], t);
      assert (a + b)[..|a + b| - 1] == a + b[..|b| - 1];
    }
  }

  lemma CountDonePop(cs: seq<Completion>, t: Ticket)
    requires cs != []
    ensures CountDone(cs, t) == CountDone(cs[1..], t) + if cs[0].ticket == t then 1 else 0
  {
    CountDoneConcat([cs[0]], cs[1..], t);
    assert cs == [cs[0]] + cs[1..];
    assert [cs[0]][..0] == [];
  }

  // ---- arming ------------------------------------------------------------------

  /** What arming operations of `fd` may change: its pending flags, upwards. */
  ghost predicate Armed(p: Port, p': Port, fd: Fd) {
    && p' == p.(socks := p'.socks, issued := p'.issued)
    && p'.socks.Keys == p.socks.Keys && fd in p.socks
    && (forall g :: g in p.socks && g != fd ==> p'.socks[g] == p.socks[g])
    && p'.socks[fd] == p.socks[fd].(readPending := p'.socks[fd].readPending, writePending := p'.socks[fd].writePending,
                                    slots := p'.socks[fd].slots)
    && |p'.socks[fd].slots| == |p.socks[fd].slots|
    && (forall op :: IsPending(p.socks[fd], op) ==> IsPending(p'.socks[fd], op))
  }

  /** Only receive slots were armed. */
  predicate OnlySlots(p: Port, p': Port, fd: Fd) {
    && fd in p.socks && fd in p'.socks
    && p'.socks[fd].readPending == p.socks[fd].readPending && p'.socks[fd].writePending == p.socks[fd].writePending
  }

  /** Whether the operation exists for the socket. */
  predicate Settable(s: Sock, op: Op) {
    op.SlotOp? ==> op.slot < |s.slots|
  }

  lemma ArmFlags(p: Port, fd: Fd, op: Op)
    requires fd in p.socks
    ensures Armed(p, Arm(p, fd, op), fd)
    ensures Settable(p.socks[fd], op) ==> IsPending(Arm(p, fd, op).socks[fd], op)
    ensures op.SlotOp? ==> OnlySlots(p, Arm(p, fd, op), fd)
  {
  }

  lemma ArmFlight(p: Port, fd: Fd, op: Op)
    requires InFlightOnce(p) && fd in p.socks
    ensures InFlightOnce(Arm(p, fd, op))
  {
    var p' := Arm(p, fd, op);
    forall t: Ticket ensures FlightOk(p', t) {
      assert FlightOk(p, t);
      CountAppend(p.issued, Ticket(fd, op), t);
    }
  }

  lemma ArmEffect(p: Port, fd: Fd, op: Op)
    requires InFlightOnce(p) && fd in p.socks
    ensures InFlightOnce(Arm(p, fd, op)) && Armed(p, Arm(p, fd, op), fd)
    ensures Settable(p.socks[fd], op) ==> IsPending(Arm(p, fd, op).socks[fd], op)
    ensures op.SlotOp? ==> OnlySlots(p, Arm(p, fd, op), fd)
  {
    ArmFlight(p, fd, op);
    ArmFlags(p, fd, op);
  }

  lemma ArmedTrans(p: Port, q: Port, r: Port, fd: Fd)
    requires Armed(p, q, fd) && Armed(q, r, fd)
    ensures Armed(p, r, fd)
  {
  }

  lemma ArmIfEffect(p: Port, fd: Fd, op: Op, b: bool)
    requires InFlightOnce(p) && fd in p.socks
    ensures var p' := ArmIf(p, fd, op, b);
            InFlightOnce(p') && Armed(p, p', fd) && (b && Settable(p.socks[fd], op) ==> IsPending(p'.socks[fd], op))
  {
    if b { ArmEffect(p, fd, op); }
  }

  lemma ArmBoth(p: Port, fd: Fd, r: bool, w: bool)
    requires InFlightOnce(p) && fd in p.socks
    ensures var p' := ArmIf(ArmIf(p, fd, ReadOp, r), fd, WriteOp, w);
            && InFlightOnce(p') && Armed(p, p', fd)
            && (r ==> p'.socks[fd].readPending) && (w ==> p'.socks[fd].writePending)
  {
    var q := ArmIf(p, fd, ReadOp, r);
    ArmIfEffect(p, fd, ReadOp, r);
    ArmIfEffect(q, fd, WriteOp, w);
    ArmedTrans(p, q, ArmIf(q, fd, WriteOp, w), fd);
    assert r ==> IsPending(q.socks[fd], ReadOp);
    assert r ==> IsPending(ArmIf(q, fd, WriteOp, w).socks[fd], ReadOp);
    assert w ==> IsPending(ArmIf(q, fd, WriteOp, w).socks[fd], WriteOp);
  }

  lemma {:induction false} ArmSlotsEffect(p: Port, fd: Fd, i: nat)
    requires InFlightOnce(p) && fd in p.socks && i <= DGRAM_RECV_SLOTS == |p.socks[fd].slots|
    ensures var p' := ArmSlots(p, fd, i);
            && InFlightOnce(p') && Armed(p, p', fd) && OnlySlots(p, p', fd)
            && (forall k :: i <= k < DGRAM_RECV_SLOTS ==> IsPending(p'.socks[fd], SlotOp(k)))
    decreases DGRAM_RECV_SLOTS - i
  {
    if i < DGRAM_RECV_SLOTS {
      var q := Arm(p, fd, SlotOp(i));
      ArmEffect(p, fd, SlotOp(i));
      ArmSlotsEffect(q, fd, i + 1);
      ArmedTrans(p, q, ArmSlots(p, fd, i), fd);
      assert IsPending(q.socks[fd], SlotOp(i));
    }
  }

  lemma SlotsFull(s: Sock)
    requires |s.slots| == DGRAM_RECV_SLOTS && forall k :: 0 <= k < DGRAM_RECV_SLOTS ==> IsPending(s, SlotOp(k))
    ensures AllSlots(s)
  {
    assert IsPending(s, SlotOp(0)) && IsPending(s, SlotOp(1)) && IsPending(s, SlotOp(2)) && IsPending(s, SlotOp(3));
  }

  /** Arming keeps everything that is not about flags. */
  lemma ArmedKeeps(p: Port, p': Port, fd: Fd)
    requires Armed(p, p', fd)
    ensures Buffered(p) && (p.socks[fd].kind.Dgram? ==> !p'.socks[fd].readPending && !p'.socks[fd].writePending) ==>
              Buffered(p')
    ensures NotedOnce(p) ==> NotedOnce(p')
    ensures forall g :: g in p.socks && g != fd ==> Backed(p'.socks[g]) == Backed(p.socks[g])
  {
  }

  // ---- add, modify, retrieve -----------------------------------------------------

  lemma {:induction false} CountNone(ts: seq<Ticket>, t: Ticket)
    requires forall i :: 0 <= i < |ts| ==> ts[i].fd != t.fd
    ensures Count(ts, t) == 0
  {
    if ts != [] { CountNone(ts[..|ts| - 1], t); }
  }

  lemma {:induction false} CountDoneNone(cs: seq<Completion>, t: Ticket)
    requires forall i :: 0 <= i < |cs| ==> cs[i].ticket.fd != t.fd
    ensures CountDone(cs, t) == 0
  {
    if cs != [] { CountDoneNone(cs[..|cs| - 1], t); }
  }

  lemma AddFlight(p: Port, fd: Fd, s: Sock)
    requires InFlightOnce(p) && Addable(p, fd) && forall op :: !IsPending(s, op)
    ensures InFlightOnce(p.(socks := p.socks[fd := s]))
  {
    var p' := p.(socks := p.socks[fd := s]);
    forall t: Ticket ensures FlightOk(p', t) {
      assert FlightOk(p, t);
      if t.fd == fd {
        CountNone(p.issued, t);
        CountDoneNone(p.done, t);
        CountDoneNone(p.batch, t);
      }
    }
  }

  lemma AddFrame(p: Port, fd: Fd, s: Sock)
    requires Buffered(p) && NotedOnce(p) && Addable(p, fd) && SockOk(s) && !s.notified
    ensures Buffered(p.(socks := p.socks[fd := s])) && NotedOnce(p.(socks := p.socks[fd := s]))
  {
  }

  lemma AddStreamKeeps(p: Port, fd: Fd, interest: Interest)
    requires Inv(p) && Addable(p, fd)
    ensures Inv(AddSocket(p, fd, Stream, interest))
  {
    var s := Sock(Stream, interest, false, false, [], [], false, [], []);
    var p1 := p.(socks := p.socks[fd := s]);
    AddFlight(p, fd, s);
    AddFrame(p, fd, s);
    var p' := AddSocket(p, fd, Stream, interest);
    ArmBoth(p1, fd, interest.read, interest.write);
    ArmedKeeps(p1, p', fd);
    AllBacked(p, p', fd);
  }

  lemma AddDgramKeeps(p: Port, fd: Fd, interest: Interest)
    requires Inv(p) && Addable(p, fd)
    ensures Inv(AddSocket(p, fd, Dgram, interest))
  {
    var s := Sock(Dgram, interest, false, false, if interest.read then Unarmed else [], [], false, [], []);
    var p1 := p.(socks := p.socks[fd := s]);
    AddFlight(p, fd, s);
    AddFrame(p, fd, s);
    var p' := AddSocket(p, fd, Dgram, interest);
    if interest.read {
      ArmSlotsEffect(p1, fd, 0);
      SlotsFull(p'.socks[fd]);
      ArmedKeeps(p1, p', fd);
    }
    AllBacked(p, p', fd);
  }

  lemma AddKeeps(p: Port, fd: Fd, kind: Kind, interest: Interest)
    requires Inv(p) && Addable(p, fd)
    ensures Inv(AddSocket(p, fd, kind, interest))
  {
    match kind
    case Stream => AddStreamKeeps(p, fd, interest);
    case Dgram => AddDgramKeeps(p, fd, interest);
  }

  /** If a step leaves the other sockets' interest backed and backs `fd`, all are. */
  lemma AllBacked(p: Port, p': Port, fd: Fd)
    requires Watching(p) && p'.pc == p.pc
    requires forall g :: g in p'.socks && g != fd ==> g in p.socks && Backed(p'.socks[g]) == Backed(p.socks[g])
    requires fd in p'.socks && p.pc != InCallback(fd) ==> Backed(p'.socks[fd])
    ensures Watching(p')
  {
  }

  lemma ModifyFlight(p: Port, fd: Fd, s: Sock)
    requires InFlightOnce(p) && fd in p.socks && forall op :: IsPending(s, op) == IsPending(p.socks[fd], op)
    ensures InFlightOnce(p.(socks := p.socks[fd := s]))
  {
    var p' := p.(socks := p.socks[fd := s]);
    forall t: Ticket ensures FlightOk(p', t) {
      assert FlightOk(p, t);
    }
  }

  lemma ModifyKeeps(p: Port, fd: Fd, interest: Interest)
    requires Inv(p) && fd in p.socks
    ensures Inv(ModifySocket(p, fd, interest))
  {
    var s := p.socks[fd];
    var slots := if s.kind.Dgram? && interest.read && !s.interest.read && s.slots == [] then Unarmed else s.slots;
    var s1 := s.(interest := interest, slots := slots);
    var p1 := p.(socks := p.socks[fd := s1]);
    ModifyFlight(p, fd, s1);
    assert Buffered(p1) && NotedOnce(p1);
    var p' := ModifySocket(p, fd, interest);
    if s.kind.Stream? {
      ArmBoth(p1, fd, interest.read && !s.interest.read, interest.write && !s.interest.write);
      ArmedKeeps(p1, p', fd);
      StreamBacked(p1, p', fd);
    } else if interest.read && !s.interest.read {
      ArmSlotsEffect(p1, fd, 0);
      SlotsFull(p'.socks[fd]);
      ArmedKeeps(p1, p', fd);
    }
    AllBacked(p, p', fd);
  }

  lemma StreamBacked(p: Port, p': Port, fd: Fd)
    requires Armed(p, p', fd)
    ensures p.socks[fd].readPending ==> p'.socks[fd].readPending
    ensures p.socks[fd].writePending ==> p'.socks[fd].writePending
  {
    assert IsPending(p.socks[fd], ReadOp) ==> IsPending(p'.socks[fd], ReadOp);
    assert IsPending(p.socks[fd], WriteOp) ==> IsPending(p'.socks[fd], WriteOp);
  }

  /** Flags and tickets unchanged. */
  lemma FlightFrame(p: Port, p': Port)
    requires InFlightOnce(p) && p'.socks == p.socks
    requires p'.issued == p.issued && p'.done == p.done && p'.batch == p.batch
    ensures InFlightOnce(p')
  {
    forall t: Ticket ensures FlightOk(p', t) {
      assert FlightOk(p, t);
    }
  }

  lemma RetrieveKeeps(p: Port, fd: Fd)
    requires Inv(p) && fd in p.socks && p.socks[fd].queue != []
    ensures Inv(Step(p, Retrieve(fd)))
  {
    var s := p.socks[fd];
    var s1 := s.(queue := s.queue[1..], taken := s.taken + [s.queue[0]]);
    ModifyFlight(p, fd, s1);
    assert s.taken + s.queue == (s.taken + [s.queue[0]]) + s.queue[1..];
    assert Backed(s1) == Backed(s);
    AllBacked(p, Step(p, Retrieve(fd)), fd);
  }

  lemma RemoveKeeps(p: Port, fd: Fd)
    requires Inv(p)
    ensures Inv(Step(p, Remove(fd)))
  {
    var p' := Step(p, Remove(fd));
    forall t: Ticket ensures FlightOk(p', t) {
      assert FlightOk(p, t);
    }
  }

  // ---- the kernel and poll ---------------------------------------------------------

  lemma CompleteKeeps(p: Port, i: nat, data: Bytes)
    requires Inv(p) && i < |p.issued|
    ensures Inv(Step(p, Complete(i, data)))
  {
    var p' := Step(p, Complete(i, data));
    forall t: Ticket ensures FlightOk(p', t) {
      assert FlightOk(p, t);
      CountRemove(p.issued, i, t);
      CountDoneAppend(p.done, Completion(p.issued[i], data), t);
    }
  }

  lemma BeginPollKeeps(p: Port, n: nat)
    requires Inv(p) && p.pc.Idle? && n <= |p.done| && n <= MAX_ENTRIES
    ensures Inv(Step(p, BeginPoll(n)))
  {
    var p' := Step(p, BeginPoll(n));
    forall t: Ticket ensures FlightOk(p', t) {
      assert FlightOk(p, t);
      CountDoneConcat(p.done[..n], p.done[n..], t);
      assert p.done == p.done[..n] + p.done[n..];
    }
  }

  /** A completion at the head of the batch belongs to a pending operation. */
  lemma HeadPending(p: Port)
    requires InFlightOnce(p) && p.batch != []
    ensures var t := p.batch[0].ticket; t.fd in p.socks ==> IsPending(p.socks[t.fd], t.op)
  {
    CountDonePop(p.batch, p.batch[0].ticket);
    assert FlightOk(p, p.batch[0].ticket);
  }

  /** Dropping the head of the batch and clearing its flag. */
  lemma PopFlight(p: Port, s: Sock)
    requires InFlightOnce(p) && p.batch != []
    requires var t := p.batch[0].ticket;
             t.fd in p.socks ==> forall op :: IsPending(s, op) == (IsPending(p.socks[t.fd], op) && op != t.op)
    ensures var fd := p.batch[0].ticket.fd; var q := p.(batch := p.batch[1..]);
            InFlightOnce(if fd in p.socks then q.(socks := p.socks[fd := s]) else q)
  {
    var fd := p.batch[0].ticket.fd;
    var q := p.(batch := p.batch[1..]);
    var p' := if fd in p.socks then q.(socks := p.socks[fd := s]) else q;
    HeadPending(p);
    forall t: Ticket ensures FlightOk(p', t) {
      assert FlightOk(p, t);
      CountDonePop(p.batch, t);
    }
  }

  lemma ClearPending(s: Sock, op: Op)
    ensures forall x :: IsPending(SetPending(s, op, false), x) == (IsPending(s, x) && x != op)
  {
  }

  lemma FlightIgnoresPc(p: Port, pc: Pc)
    requires InFlightOnce(p)
    ensures InFlightOnce(p.(pc := pc))
  {
    forall t: Ticket ensures FlightOk(p.(pc := pc), t) {
      assert FlightOk(p, t);
    }
  }

  lemma ClearedSockOk(s: Sock, op: Op)
    requires SockOk(s) && s.kind.Stream?
    ensures var s' := SetPending(s, op, false);
            SockOk(s') && s'.kind == s.kind && s'.notified == s.notified
  {
  }

  lemma StreamDone(p: Port)
    requires Inv(p) && p.pc.Processing? && p.batch != []
    requires p.batch[0].ticket.fd in p.socks && p.socks[p.batch[0].ticket.fd].kind.Stream?
    ensures Inv(Step(p, ProcessNext))
  {
    var t := p.batch[0].ticket;
    var s := SetPending(p.socks[t.fd], t.op, false);
    ClearPending(p.socks[t.fd], t.op);
    ClearedSockOk(p.socks[t.fd], t.op);
    PopFlight(p, s);
    var q := p.(batch := p.batch[1..], socks := p.socks[t.fd := s]);
    FlightIgnoresPc(q, InCallback(t.fd));
    var e := q.(pc := InCallback(t.fd));
    FlightFrame(e, Step(p, ProcessNext));
    assert Step(p, ProcessNext) == e.(calls := Step(p, ProcessNext).calls);
  }

  lemma SlotBuffered(s: Sock, data: Bytes)
    requires SockOk(s)
    ensures SockOk(s.(queue := s.queue + [data], got := s.got + [data]))
  {
    assert s.taken + s.queue + [data] == s.taken + (s.queue + [data]);
  }

  /** The socket after a slot completed, before re-arming. */
  function AfterSlot(s: Sock, op: Op, data: Bytes): Sock {
    var s1 := SetPending(s, op, false);
    if data == [] then s1 else s1.(queue := s1.queue + [data], got := s1.got + [data])
  }

  lemma AfterSlotOk(s: Sock, op: Op, data: Bytes)
    requires SockOk(s) && op.SlotOp? && op.slot < |s.slots|
    ensures var s' := AfterSlot(s, op, data);
            && SockOk(s') && s'.kind == s.kind && s'.interest == s.interest && s'.notified == s.notified
            && |s'.slots| == |s.slots| && s'.slots == s.slots[op.slot := false]
            && forall x :: IsPending(s', x) == (IsPending(s, x) && x != op)
  {
    ClearPending(s, op);
    if data != [] { SlotBuffered(SetPending(s, op, false), data); }
  }

  /** A receive slot's completion is off the batch and its flag cleared. */
  lemma DgramPopped(p: Port)
    requires InFlightOnce(p) && Buffered(p) && NotedOnce(p) && p.pc.Processing? && p.batch != []
    requires p.batch[0].ticket.fd in p.socks && p.socks[p.batch[0].ticket.fd].kind.Dgram?
    ensures var t := p.batch[0].ticket;
            && t.op.SlotOp? && t.op.slot < |p.socks[t.fd].slots|
            && var s := AfterSlot(p.socks[t.fd], t.op, p.batch[0].data);
               var q := p.(batch := p.batch[1..], socks := p.socks[t.fd := s]);
               && InFlightOnce(q) && Buffered(q) && NotedOnce(q)
               && s.kind.Dgram? && s.interest == p.socks[t.fd].interest
               && s.slots == p.socks[t.fd].slots[t.op.slot := false]
  {
    HeadPending(p);
    var fd, op, data := p.batch[0].ticket.fd, p.batch[0].ticket.op, p.batch[0].data;
    assert SockOk(p.socks[fd]);
    AfterSlotOk(p.socks[fd], op, data);
    PopFlight(p, AfterSlot(p.socks[fd], op, data));
    SlotFrame(p, fd, AfterSlot(p.socks[fd], op, data));
  }

  lemma DgramDone(p: Port)
    requires Inv(p) && p.pc.Processing? && p.batch != []
    requires p.batch[0].ticket.fd in p.socks && p.socks[p.batch[0].ticket.fd].kind.Dgram?
    ensures Inv(Step(p, ProcessNext))
  {
    DgramPopped(p);
    var fd, op, data := p.batch[0].ticket.fd, p.batch[0].ticket.op, p.batch[0].data;
    var s1 := AfterSlot(p.socks[fd], op, data);
    var q := p.(batch := p.batch[1..], socks := p.socks[fd := s1]);
    var r := ArmIf(q, fd, op, s1.interest.read);
    SlotRearmed(q, p.socks[fd], fd, op);
    NoteSocket(p, r, fd);
    SlotIsNoted(p, fd, op, data);
  }

  lemma SlotIsNoted(p: Port, fd: Fd, op: Op, data: Bytes)
    requires p.pc.Processing? && p.batch != [] && p.batch[0] == Completion(Ticket(fd, op), data)
    requires fd in p.socks && p.socks[fd].kind.Dgram? && op.SlotOp? && op.slot < |p.socks[fd].slots|
    ensures var q := p.(batch := p.batch[1..], socks := p.socks[fd := AfterSlot(p.socks[fd], op, data)]);
            Step(p, ProcessNext) == Noted(ArmIf(q, fd, op, q.socks[fd].interest.read), fd)
  {
  }

  lemma SlotFrame(p: Port, fd: Fd, s: Sock)
    requires Buffered(p) && NotedOnce(p) && p.pc.Processing? && p.batch != [] && fd in p.socks
    requires SockOk(s) && s.notified == p.socks[fd].notified
    ensures var q := p.(batch := p.batch[1..], socks := p.socks[fd := s]); Buffered(q) && NotedOnce(q)
  {
  }

  lemma SlotRearmed(q: Port, s: Sock, fd: Fd, op: Op)
    requires InFlightOnce(q) && Buffered(q) && NotedOnce(q) && fd in q.socks && op.SlotOp? && op.slot < |s.slots|
    requires q.socks[fd].kind.Dgram? && q.socks[fd].interest == s.interest && s.kind.Dgram?
    requires q.socks[fd].slots == s.slots[op.slot := false]
    ensures var r := ArmIf(q, fd, op, q.socks[fd].interest.read);
            && InFlightOnce(r) && Buffered(r) && NotedOnce(r) && Armed(q, r, fd)
            && (Backed(s) ==> Backed(r.socks[fd]))
  {
    var b := q.socks[fd].interest.read;
    ArmIfEffect(q, fd, op, b);
    if b { ArmEffect(q, fd, op); }
    ArmedKeeps(q, ArmIf(q, fd, op, b), fd);
    if b && Backed(s) {
      var s' := ArmIf(q, fd, op, b).socks[fd];
      forall k | 0 <= k < DGRAM_RECV_SLOTS ensures IsPending(s', SlotOp(k)) {
        assert k != op.slot ==> IsPending(q.socks[fd], SlotOp(k));
      }
      SlotsFull(s');
    }
  }

  /** Notes a datagram socket for the second phase, once. */
  function Noted(r: Port, fd: Fd): Port
    requires fd in r.socks
  {
    if r.socks[fd].notified then r
    else r.(socks := r.socks[fd := r.socks[fd].(notified := true)], notify := r.notify + [fd])
  }

  lemma NoteSocket(p: Port, r: Port, fd: Fd)
    requires InFlightOnce(r) && Buffered(r) && NotedOnce(r) && fd in r.socks && fd in p.socks
    requires Watching(p) && p.pc.Processing? && r.pc == p.pc && r.socks.Keys == p.socks.Keys
    requires forall g :: g in p.socks && g != fd ==> r.socks[g] == p.socks[g]
    requires Backed(p.socks[fd]) ==> Backed(r.socks[fd])
    ensures Inv(Noted(r, fd))
  {
    var r' := Noted(r, fd);
    if !r.socks[fd].notified {
      ModifyFlight(r, fd, r'.socks[fd]);
      FlightFrame(r.(socks := r'.socks), r');
      NoteOnce(r, fd);
      assert Backed(r'.socks[fd]) == Backed(r.socks[fd]);
    }
  }

  lemma NoteOnce(r: Port, fd: Fd)
    requires Buffered(r) && NotedOnce(r) && fd in r.socks && !r.socks[fd].notified && r.pc.Processing?
    ensures Buffered(Noted(r, fd)) && NotedOnce(Noted(r, fd))
  {
  }

  lemma ProcessKeeps(p: Port)
    requires Inv(p)
    ensures Inv(Step(p, ProcessNext))
  {
    if p.pc.Processing? && p.batch == [] {
      FlightFrame(p, Step(p, ProcessNext));
    } else if p.pc.Processing? {
      var fd := p.batch[0].ticket.fd;
      if fd !in p.socks {
        PopFlight(p, Sock(Stream, Interest(false, false), false, false, [], [], false, [], []));
      } else if p.socks[fd].kind.Dgram? {
        DgramDone(p);
      } else {
        StreamDone(p);
      }
    }
  }

  lemma EndCallbackKeeps(p: Port)
    requires Inv(p) && p.pc.InCallback?
    ensures Inv(Step(p, EndCallback))
  {
    var fd := p.pc.fd;
    var q := p.(pc := Processing);
    FlightFrame(p, q);
    if fd in p.socks {
      ArmBoth(q, fd, q.socks[fd].interest.read, q.socks[fd].interest.write);
      ArmedKeeps(q, Rearm(q, fd), fd);
    }
  }

  lemma NotifyKeeps(p: Port)
    requires Inv(p)
    ensures Inv(Step(p, NotifyNext))
  {
    if p.pc.Notifying? {
      if p.notify == [] {
        FlightFrame(p, Step(p, NotifyNext));
      } else {
        NotifyOneKeeps(p);
      }
    }
  }

  /** The next datagram socket is taken off the list, before its callback. */
  function TurnTaken(p: Port): Port
    requires p.notify != []
  {
    var fd, p1 := p.notify[0], p.(notify := p.notify[1..]);
    if fd in p.socks then p1.(socks := p.socks[fd := p.socks[fd].(notified := false)]) else p1
  }

  lemma TurnKeeps(p: Port)
    requires Inv(p) && p.pc.Notifying? && p.notify != []
    ensures Inv(TurnTaken(p)) && TurnTaken(p).pc.Notifying?
  {
    var fd, p' := p.notify[0], TurnTaken(p);
    assert p.notify == [fd] + p.notify[1..];
    assert forall i :: 0 <= i < |p.notify| - 1 ==> p.notify[1..][i] == p.notify[i + 1];
    if fd in p.socks {
      ModifyFlight(p, fd, p'.socks[fd]);
      assert Backed(p'.socks[fd]) == Backed(p.socks[fd]);
    }
    FlightFrame(p.(socks := p'.socks), p');
  }

  lemma CallKeeps(p: Port, calls: seq<Notice>)
    requires Inv(p) && p.pc.Notifying?
    ensures Inv(p.(pc := InDgramCallback, calls := calls))
  {
    FlightFrame(p, p.(pc := InDgramCallback, calls := calls));
  }

  lemma NotifyOneKeeps(p: Port)
    requires Inv(p) && p.pc.Notifying? && p.notify != []
    ensures Inv(NotifyOne(p))
  {
    TurnKeeps(p);
    var p', q := NotifyOne(p), TurnTaken(p);
    if p'.pc.InDgramCallback? {
      CallKeeps(q, p'.calls);
      assert p' == q.(pc := InDgramCallback, calls := p'.calls);
    } else {
      assert p' == q;
    }
  }

  lemma StepInv(p: Port, a: Action)
    requires Inv(p)
    ensures Inv(Step(p, a))
  {
    match a
    case Add(fd, kind, interest) => if Addable(p, fd) { AddKeeps(p, fd, kind, interest); }
    case Modify(fd, interest) => if fd in p.socks { ModifyKeeps(p, fd, interest); }
    case Remove(fd) => RemoveKeeps(p, fd);
    case Retrieve(fd) => if fd in p.socks && p.socks[fd].queue != [] { RetrieveKeeps(p, fd); }
    case Complete(i, data) => if i < |p.issued| { CompleteKeeps(p, i, data); }
    case BeginPoll(n) => if p.pc.Idle? && n <= |p.done| && n <= MAX_ENTRIES { BeginPollKeeps(p, n); }
    case ProcessNext => ProcessKeeps(p);
    case EndCallback => if p.pc.InCallback? { EndCallbackKeeps(p); }
    case NotifyNext => NotifyKeeps(p);
    case EndDgramCallback => FlightFrame(p, Step(p, a));
  }

  lemma {:induction false} ExecInv(p: Port, acts: seq<Action>)
    requires Inv(p)
    ensures Inv(Exec(p, acts))
  {
    if acts != [] {
      ExecInv(p, acts[..|acts| - 1]);
      StepInv(Exec(p, acts[..|acts| - 1]), acts[|acts| - 1]);
    }
  }
}
