/** The IOCP dispatcher's emulation of readiness, as steps of the loop thread and
of the kernel.

Every overlapped operation is a ticket: it is issued to the kernel, completes at
some time, is dequeued by poll in a batch, and is processed. Callbacks may call
add, modify, remove and retrieve_dgram at any point. Issuing an operation always
succeeds, and listening sockets are not modelled. A descriptor that was removed may
be added again once nothing of its earlier registration is left.
*/
module IocpProtocol {

  type Fd = nat
  type Bytes = seq<char>

  datatype Interest = Interest(read: bool, write: bool)
  datatype Kind = Stream | Dgram
  datatype Op = ReadOp | WriteOp | SlotOp(slot: nat)
  datatype Ticket = Ticket(fd: Fd, op: Op)

  /** A finished operation; `data` is the datagram of a receive slot, empty on error, or
      what a stream operation transferred. */
  datatype Completion = Completion(ticket: Ticket, data: Bytes)

  /** per_socket_state. `slots` holds the pending flags of the receive slots and is
      empty until they are allocated; `got` and `taken` record the datagrams that
      completed and those that retrieve_dgram has removed. */
  datatype Sock = Sock(
    kind: Kind, interest: Interest, readPending: bool, writePending: bool, slots: seq<bool>,
    queue: seq<Bytes>, notified: bool, got: seq<Bytes>, taken: seq<Bytes>)

  datatype Pc =
    | Idle                      // between polls
    | Processing                // going through the dequeued completions
    | InCallback(fd: Fd)        // running a stream callback, before re-arming
    | Notifying                 // going through the datagram sockets to notify
    | InDgramCallback           // running a datagram callback

  /** What a callback is called with. */
  datatype Notice = Notice(fd: Fd, readable: bool, writable: bool, peerShutdown: bool)

  /** `calls` records the callbacks run so far. */
  datatype Port = Port(
    socks: map<Fd, Sock>, issued: seq<Ticket>, done: seq<Completion>, batch: seq<Completion>, notify: seq<Fd>, pc: Pc,
    calls: seq<Notice>)

  datatype Action =
    | Add(fd: Fd, kind: Kind, interest: Interest)
    | Modify(fd: Fd, interest: Interest)
    | Remove(fd: Fd)
    | Retrieve(fd: Fd)
    | Complete(i: nat, data: Bytes)    // the kernel finishes the i-th issued operation
    | BeginPoll(n: nat)                // dequeue n completions
    | ProcessNext
    | EndCallback
    | NotifyNext
    | EndDgramCallback

  const DGRAM_RECV_SLOTS := 4
  const MAX_ENTRIES := 256

  function Init(): Port {
    Port(map[], [], [], [], [], Idle, [])
  }

  // ---- arming --------------------------------------------------------------

  predicate IsPending(s: Sock, op: Op) {
    match op
    case ReadOp => s.readPending
    case WriteOp => s.writePending
    case SlotOp(i) => i < |s.slots| && s.slots[i]
  }

  function SetPending(s: Sock, op: Op, b: bool): Sock {
    match op
    case ReadOp => s.(readPending := b)
    case WriteOp => s.(writePending := b)
    case SlotOp(i) => if i < |s.slots| then s.(slots := s.slots[i := b]) else s
  }

  /** Issues the operation unless it is pending already. */
  function Arm(p: Port, fd: Fd, op: Op): Port
    requires fd in p.socks
  {
    if IsPending(p.socks[fd], op) || !IsPending(SetPending(p.socks[fd], op, true), op) then p
    else p.(socks := p.socks[fd := SetPending(p.socks[fd], op, true)], issued := p.issued + [Ticket(fd, op)])
  }

  function ArmIf(p: Port, fd: Fd, op: Op, b: bool): Port
    requires fd in p.socks
  {
    if b then Arm(p, fd, op) else p
  }

  /** Arms the receive slots from `i` on. */
  function ArmSlots(p: Port, fd: Fd, i: nat): (r: Port)
    requires fd in p.socks && i <= DGRAM_RECV_SLOTS
    ensures fd in r.socks
    decreases DGRAM_RECV_SLOTS - i
  {
    if i == DGRAM_RECV_SLOTS then p else ArmSlots(Arm(p, fd, SlotOp(i)), fd, i + 1)
  }

  const Unarmed: seq<bool> := [false, false, false, false]

  // ---- the steps -----------------------------------------------------------

  predicate Untouched(issued: seq<Ticket>, done: seq<Completion>, batch: seq<Completion>, fd: Fd) {
    && (forall i :: 0 <= i < |issued| ==> issued[i].fd != fd)
    && (forall i :: 0 <= i < |done| ==> done[i].ticket.fd != fd)
    && (forall i :: 0 <= i < |batch| ==> batch[i].ticket.fd != fd)
  }

  /** Not tracked, and no operation, completion or notification of it is left. */
  predicate Addable(p: Port, fd: Fd) {
    fd !in p.socks && fd !in p.notify && p.pc != InCallback(fd) && Untouched(p.issued, p.done, p.batch, fd)
  }

  function AddSocket(p: Port, fd: Fd, kind: Kind, interest: Interest): Port {
    var slots := if kind.Dgram? && interest.read then Unarmed else [];
    var p1 := p.(socks := p.socks[fd := Sock(kind, interest, false, false, slots, [], false, [], [])]);
    if kind.Dgram? then if interest.read then ArmSlots(p1, fd, 0) else p1
    else ArmIf(ArmIf(p1, fd, ReadOp, interest.read), fd, WriteOp, interest.write)
  }

  function ModifySocket(p: Port, fd: Fd, interest: Interest): Port
    requires fd in p.socks
  {
    var s := p.socks[fd];
    var slots := if s.kind.Dgram? && interest.read && !s.interest.read && s.slots == [] then Unarmed else s.slots;
    var p1 := p.(socks := p.socks[fd := s.(interest := interest, slots := slots)]);
    if s.kind.Dgram? then if interest.read && !s.interest.read then ArmSlots(p1, fd, 0) else p1
    else ArmIf(ArmIf(p1, fd, ReadOp, interest.read && !s.interest.read),
               fd, WriteOp, interest.write && !s.interest.write)
  }

  /** A completed receive slot: buffer the datagram, re-arm, note the socket. */
  function SlotDone(p: Port, fd: Fd, op: Op, data: Bytes): Port
    requires fd in p.socks
  {
    var s := SetPending(p.socks[fd], op, false);
    var s1 := if data == [] then s else s.(queue := s.queue + [data], got := s.got + [data]);
    var p1 := ArmIf(p.(socks := p.socks[fd := s1]), fd, op, s1.interest.read);
    if s1.notified then p1
    else p1.(socks := p1.socks[fd := p1.socks[fd].(notified := true)], notify := p1.notify + [fd])
  }

  function ProcessCompletion(p: Port, c: Completion): Port {
    var fd := c.ticket.fd;
    if fd !in p.socks then p
    else if p.socks[fd].kind.Dgram? then
      if c.ticket.op.SlotOp? && c.ticket.op.slot < |p.socks[fd].slots| then SlotDone(p, fd, c.ticket.op, c.data) else p
    else
      p.(socks := p.socks[fd := SetPending(p.socks[fd], c.ticket.op, false)], pc := InCallback(fd),
         calls := p.calls + [StreamNotice(c)])
  }

  /** A read that transferred nothing says that the peer has shut down. */
  function StreamNotice(c: Completion): Notice {
    Notice(c.ticket.fd, c.ticket.op.ReadOp?, c.ticket.op.WriteOp?, c.ticket.op.ReadOp? && c.data == [])
  }

  function Rearm(p: Port, fd: Fd): Port {
    if fd !in p.socks then p
    else ArmIf(ArmIf(p, fd, ReadOp, p.socks[fd].interest.read), fd, WriteOp, p.socks[fd].interest.write)
  }

  function NotifyOne(p: Port): Port
    requires p.notify != []
  {
    var fd := p.notify[0];
    var p1 := p.(notify := p.notify[1..]);
    if fd !in p.socks then p1
    else
      var s, p2 := p.socks[fd], p1.(socks := p.socks[fd := p.socks[fd].(notified := false)]);
      if s.queue != [] && s.interest.read
      then p2.(pc := InDgramCallback, calls := p.calls + [Notice(fd, true, false, false)]) else p2
  }

  /** An action that is not enabled leaves the port unchanged. */
  function Step(p: Port, a: Action): Port {
    match a
    case Add(fd, kind, interest) => if Addable(p, fd) then AddSocket(p, fd, kind, interest) else p
    case Modify(fd, interest) => if fd in p.socks then ModifySocket(p, fd, interest) else p
    case Remove(fd) => p.(socks := p.socks - {fd})
    case Retrieve(fd) =>
      if fd in p.socks && p.socks[fd].queue != [] then
        var s := p.socks[fd];
        p.(socks := p.socks[fd := s.(queue := s.queue[1..], taken := s.taken + [s.queue[0]])])
      else p
    case Complete(i, data) =>
      if i < |p.issued| then
        p.(issued := p.issued[..i] + p.issued[i + 1..], done := p.done + [Completion(p.issued[i], data)])
      else p
    case BeginPoll(n) =>
      if p.pc.Idle? && n <= |p.done| && n <= MAX_ENTRIES then
        p.(batch := p.done[..n], done := p.done[n..], pc := Processing)
      else p
    case ProcessNext =>
      if !p.pc.Processing? then p
      else if p.batch == [] then p.(pc := Notifying)
      else ProcessCompletion(p.(batch := p.batch[1..]), p.batch[0])
    case EndCallback => if p.pc.InCallback? then Rearm(p.(pc := Processing), p.pc.fd) else p
    case NotifyNext =>
      if !p.pc.Notifying? then p
      else if p.notify == [] then p.(pc := Idle)
      else NotifyOne(p)
    case EndDgramCallback => if p.pc.InDgramCallback? then p.(pc := Notifying) else p
  }

  function Exec(p: Port, acts: seq<Action>): Port {
    if acts == [] then p else Step(Exec(p, acts[..|acts| - 1]), acts[|acts| - 1])
  }

  // ---- the invariant -------------------------------------------------------

  function Count(ts: seq<Ticket>, t: Ticket): nat {
    if ts == [] then 0 else Count(ts[..|ts| - 1], t) + if ts[|ts| - 1] == t then 1 else 0
  }

  function CountDone(cs: seq<Completion>, t: Ticket): nat {
    if cs == [] then 0 else CountDone(cs[..|cs| - 1], t) + if cs[|cs| - 1].ticket == t then 1 else 0
  }

  /** How often the operation is in flight: issued, or completed and not yet processed. */
  function Flight(p: Port, t: Ticket): nat {
    Count(p.issued, t) + CountDone(p.done, t) + CountDone(p.batch, t)
  }

  predicate FlightOk(p: Port, t: Ticket) {
    && (t.fd in p.socks ==> Flight(p, t) == if IsPending(p.socks[t.fd], t.op) then 1 else 0)
    && Flight(p, t) <= 1
  }

  /** A pending flag is set exactly while its operation is in flight, once. */
  ghost predicate InFlightOnce(p: Port) {
    forall t: Ticket :: FlightOk(p, t)
  }

  predicate AllSlots(s: Sock) {
    |s.slots| == DGRAM_RECV_SLOTS && s.slots[0] && s.slots[1] && s.slots[2] && s.slots[3]
  }

  /** Interest is backed by operations in flight. */
  predicate Backed(s: Sock) {
    if s.kind.Dgram? then s.interest.read ==> AllSlots(s)
    else (s.interest.read ==> s.readPending) && (s.interest.write ==> s.writePending)
  }

  ghost predicate Watching(p: Port) {
    forall fd :: fd in p.socks && p.pc != InCallback(fd) ==> Backed(p.socks[fd])
  }

  predicate SockOk(s: Sock) {
    && s.got == s.taken + s.queue && (s.slots == [] || |s.slots| == DGRAM_RECV_SLOTS)
    && (if s.kind.Stream? then s.slots == [] else !s.readPending && !s.writePending)
  }

  ghost predicate Buffered(p: Port) {
    && (forall fd :: fd in p.socks ==> SockOk(p.socks[fd]))
    && (p.pc.InCallback? && p.pc.fd in p.socks ==> p.socks[p.pc.fd].kind.Stream?)
  }

  /** Sockets to notify are noted once. */
  ghost predicate NotedOnce(p: Port) {
    && (forall fd :: fd in p.socks ==> (p.socks[fd].notified <==> fd in p.notify))
    && (forall i, j :: 0 <= i < j < |p.notify| ==> p.notify[i] != p.notify[j])
    && (p.pc.Idle? ==> p.notify == [])
    && (p.pc.Idle? || p.pc.Notifying? || p.pc.InDgramCallback? ==> p.batch == [])
  }

  ghost predicate Inv(p: Port) {
    InFlightOnce(p) && Watching(p) && Buffered(p) && NotedOnce(p)
  }
}
