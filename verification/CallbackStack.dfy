/** The thread pool and any number of serial queues on top of it, as atomic steps.

A step is one section under the pool's mutex, one section under a serial queue's
mutex (which contains the pool's section when it submits a drain), one delivery
of a notification, or the end of one task. Tasks are opaque; a task that submits
to its own queue while it runs is simply a submit step taken while its worker is
executing.
*/
module CallbackStack {
  import ConnectionProtocol

  /** A callback of a connection, or any other piece of user work. */
  datatype Work = ForConnection(callback: ConnectionProtocol.Callback) | Other(id: nat)

  /** What the pool queues: a drain of serial queue `q`, or a task submitted directly. */
  datatype Job = Drain(q: nat) | Plain(task: Work)

  datatype Worker =
    | Asleep                        // waiting on the condition variable
    | Ready                         // about to evaluate the wait predicate under the lock
    | Running(task: Work)              // running a plain task
    | AtLock(q: nat)                // in drain(q), about to take the serial queue's lock
    | Executing(q: nat, task: Work)    // in drain(q), running a task
    | Exited

  /** `accepted`, `started` and `finished` record the history of jobs. */
  datatype Pool = Pool(
    limit: nat, queue: seq<Job>, stopped: bool, notifyOne: nat, notifyAll: bool,
    accepted: seq<Job>, started: seq<Job>, finished: seq<Job>, joined: bool)

  /** `refused` records that the pool turned down a drain; `submitted`, `started`
      and `finished` record the history of tasks. */
  datatype Serial = Serial(
    pending: seq<Work>, draining: bool, refused: bool,
    submitted: seq<Work>, started: seq<Work>, finished: seq<Work>)

  datatype Stack = Stack(pool: Pool, workers: seq<Worker>, serials: seq<Serial>)

  datatype Action =
    | SubmitPlain(task: Work)
    | SubmitSerial(q: nat, task: Work)
    | NotifyOne(w: nat)
    | NotifyAll
    | WakeSpuriously(w: nat)
    | CheckQueue(w: nat)
    | LockSerial(w: nat)
    | FinishTask(w: nat)
    | Shutdown
    | Join

  function Init(limit: nat, threads: nat, queues: nat): Stack {
    Stack(Pool(limit, [], false, 0, false, [], [], [], false),
          seq(threads, _ => Ready),
          seq(queues, _ => Serial([], false, false, [], [], [])))
  }

  // ---- the steps -----------------------------------------------------------

  predicate Refuses(p: Pool) {
    p.stopped || (p.limit > 0 && |p.queue| >= p.limit)
  }

  function SubmitJob(p: Pool, j: Job): Pool {
    if Refuses(p) then p
    else p.(queue := p.queue + [j], accepted := p.accepted + [j], notifyOne := p.notifyOne + 1)
  }

  function PopJob(p: Pool): Pool
    requires p.queue != []
  {
    p.(queue := p.queue[1..], started := p.started + [p.queue[0]])
  }

  /** serial_queue::submit. The pool's answer is not looked at. */
  function SerialSubmit(s: Stack, q: nat, task: Work): Stack
    requires q < |s.serials|
  {
    var sq := s.serials[q].(pending := s.serials[q].pending + [task], submitted := s.serials[q].submitted + [task]);
    if sq.draining then s.(serials := s.serials[q := sq])
    else s.(serials := s.serials[q := sq.(draining := true, refused := Refuses(s.pool))],
            pool := SubmitJob(s.pool, Drain(q)))
  }

  function Begin(j: Job): Worker {
    match j
    case Drain(q) => AtLock(q)
    case Plain(t) => Running(t)
  }

  /** A worker holding the pool's lock: go back to sleep, exit, or take the oldest job. */
  function WorkerChecks(s: Stack, w: nat): Stack
    requires w < |s.workers|
  {
    if s.pool.queue == [] then
      s.(workers := s.workers[w := if s.pool.stopped then Exited else Asleep])
    else
      s.(workers := s.workers[w := Begin(s.pool.queue[0])], pool := PopJob(s.pool))
  }

  function FinishJob(p: Pool, j: Job): Pool {
    p.(finished := p.finished + [j])
  }

  /** The locked section at the top of the drain loop. */
  function DrainLocks(s: Stack, w: nat, q: nat): Stack
    requires w < |s.workers| && q < |s.serials|
  {
    var sq := s.serials[q];
    if sq.pending == [] then
      s.(serials := s.serials[q := sq.(draining := false)], workers := s.workers[w := Ready],
         pool := FinishJob(s.pool, Drain(q)))
    else
      s.(serials := s.serials[q := sq.(pending := sq.pending[1..], started := sq.started + [sq.pending[0]])],
         workers := s.workers[w := Executing(q, sq.pending[0])])
  }

  function TaskEnds(s: Stack, w: nat): Stack
    requires w < |s.workers| && (s.workers[w].Running? || s.workers[w].Executing?)
  {
    match s.workers[w]
    case Running(t) =>
      s.(workers := s.workers[w := Ready], pool := FinishJob(s.pool, Plain(t)))
    case Executing(q, t) =>
      if q < |s.serials| then
        s.(workers := s.workers[w := AtLock(q)],
           serials := s.serials[q := s.serials[q].(finished := s.serials[q].finished + [t])])
      else s
  }

  function WakeAll(ws: seq<Worker>): (r: seq<Worker>)
    ensures |r| == |ws|
    ensures forall i :: 0 <= i < |ws| ==> r[i] == if ws[i].Asleep? then Ready else ws[i]
  {
    seq(|ws|, i requires 0 <= i < |ws| => if ws[i].Asleep? then Ready else ws[i])
  }

  predicate AnyAsleep(ws: seq<Worker>) {
    exists i :: 0 <= i < |ws| && ws[i].Asleep?
  }

  predicate AllExited(ws: seq<Worker>) {
    forall i :: 0 <= i < |ws| ==> ws[i].Exited?
  }

  /** An action that is not enabled leaves the stack unchanged. A notify_one wakes
      some sleeping worker if there is one and is lost otherwise. */
  function Step(s: Stack, a: Action): Stack {
    match a
    case SubmitPlain(t) => s.(pool := SubmitJob(s.pool, Plain(t)))
    case SubmitSerial(q, t) => if q < |s.serials| then SerialSubmit(s, q, t) else s
    case NotifyOne(w) =>
      if s.pool.notifyOne == 0 then s
      else if w < |s.workers| && s.workers[w].Asleep? then
        s.(workers := s.workers[w := Ready], pool := s.pool.(notifyOne := s.pool.notifyOne - 1))
      else if AnyAsleep(s.workers) then s
      else s.(pool := s.pool.(notifyOne := s.pool.notifyOne - 1))
    case NotifyAll =>
      if s.pool.notifyAll then s.(workers := WakeAll(s.workers), pool := s.pool.(notifyAll := false)) else s
    case WakeSpuriously(w) =>
      if w < |s.workers| && s.workers[w].Asleep? then s.(workers := s.workers[w := Ready]) else s
    case CheckQueue(w) =>
      if w < |s.workers| && s.workers[w].Ready? then WorkerChecks(s, w) else s
    case LockSerial(w) =>
      if w < |s.workers| && s.workers[w].AtLock? && s.workers[w].q < |s.serials|
      then DrainLocks(s, w, s.workers[w].q) else s
    case FinishTask(w) =>
      if w < |s.workers| && (s.workers[w].Running? || s.workers[w].Executing?) then TaskEnds(s, w) else s
    case Shutdown =>
      if s.pool.stopped then s else s.(pool := s.pool.(stopped := true, notifyAll := true))
    case Join =>
      if s.pool.stopped && !s.pool.notifyAll && AllExited(s.workers) then s.(pool := s.pool.(joined := true)) else s
  }

  function Exec(s: Stack, acts: seq<Action>): Stack {
    if acts == [] then s else Step(Exec(s, acts[..|acts| - 1]), acts[|acts| - 1])
  }

  // ---- the invariant -------------------------------------------------------

  /** How often worker `w` holds job `j`: once or not at all. */
  function Holds(w: Worker, j: Job): nat {
    match w
    case Running(t) => if j == Plain(t) then 1 else 0
    case AtLock(q) => if j == Drain(q) then 1 else 0
    case Executing(q, _) => if j == Drain(q) then 1 else 0
    case _ => 0
  }

  function Held(ws: seq<Worker>, j: Job): nat {
    if ws == [] then 0 else Held(ws[..|ws| - 1], j) + Holds(ws[|ws| - 1], j)
  }

  function Count(js: seq<Job>, j: Job): nat {
    multiset(js)[j]
  }

  /** The drains of queue `q` that are queued in the pool or running. */
  function Live(s: Stack, q: nat): nat {
    Count(s.pool.queue, Drain(q)) + Held(s.workers, Drain(q))
  }

  predicate Awake(w: Worker) {
    !w.Asleep? && !w.Exited?
  }

  predicate SomeAwake(ws: seq<Worker>) {
    exists i :: 0 <= i < |ws| && Awake(ws[i])
  }

  /** Jobs start in acceptance order, and a started job is either finished or held. */
  ghost predicate JobsKept(s: Stack) {
    && s.pool.accepted == s.pool.started + s.pool.queue
    && (forall j :: Count(s.pool.started, j) == Count(s.pool.finished, j) + Held(s.workers, j))
  }

  /** No notification is lost: work is never left to sleeping workers alone. */
  ghost predicate Roused(s: Stack) {
    && s.workers != []
    && (s.pool.queue != [] ==> s.pool.notifyOne > 0 || SomeAwake(s.workers))
    && (s.pool.stopped && AnyAsleep(s.workers) ==> s.pool.notifyAll)
    && (forall i :: 0 <= i < |s.workers| && s.workers[i].Exited? ==> s.pool.stopped && s.pool.queue == [])
    && (s.pool.joined ==> s.pool.stopped && AllExited(s.workers))
  }

  ghost predicate SerialOk(sq: Serial, live: nat) {
    && live == (if sq.draining && !sq.refused then 1 else 0)
    && (sq.refused ==> sq.draining)
    && (!sq.draining ==> sq.pending == [])
    && sq.submitted == sq.started + sq.pending
  }

  /** The task a worker executes is the one its queue started last; a queue
      without an executing worker has finished all it started. */
  ghost predicate Executes(s: Stack, q: nat)
    requires q < |s.serials|
  {
    && (forall i :: 0 <= i < |s.workers| && s.workers[i].Executing? && s.workers[i].q == q ==>
          s.serials[q].started == s.serials[q].finished + [s.workers[i].task])
    && ((forall i :: 0 <= i < |s.workers| && s.workers[i].Executing? ==> s.workers[i].q != q) ==>
          s.serials[q].started == s.serials[q].finished)
  }

  ghost predicate Serialized(s: Stack) {
    forall q :: 0 <= q < |s.serials| ==> SerialOk(s.serials[q], Live(s, q)) && Executes(s, q)
  }

  ghost predicate Inv(s: Stack) {
    JobsKept(s) && Roused(s) && Serialized(s)
  }

  // ---- facts about held jobs -------------------------------------------------

  /** Replacing worker `i` exchanges the job it holds. */
  lemma {:induction false} HeldUpdate(ws: seq<Worker>, i: nat, w: Worker, j: Job)
    requires i < |ws|
    ensures Held(ws[i := w], j) + Holds(ws[i], j) == Held(ws, j) + Holds(w, j)
  {
    var n := |ws| - 1;
    if i == n {
      assert ws[i := w][..n] == ws[..n];
    } else {
      HeldUpdate(ws[..n], i, w, j);
      assert ws[i := w][..n] == ws[..n][i := w];
    }
  }

  lemma {:induction false} HeldTwice(ws: seq<Worker>, i: nat, k: nat, j: Job)
    requires i < k < |ws| && Holds(ws[i], j) == Holds(ws[k], j) == 1
    ensures Held(ws, j) >= 2
  {
    var n := |ws| - 1;
    if k == n {
      HeldUpdate(ws[..n], i, Asleep, j);
    } else {
      HeldTwice(ws[..n], i, k, j);
    }
  }

  lemma {:induction false} HeldSame(ws: seq<Worker>, vs: seq<Worker>, j: Job)
    requires |ws| == |vs| && forall i :: 0 <= i < |ws| ==> Holds(ws[i], j) == Holds(vs[i], j)
    ensures Held(ws, j) == Held(vs, j)
  {
    if ws != [] {
      HeldSame(ws[..|ws| - 1], vs[..|vs| - 1], j);
    }
  }

  lemma {:induction false} HeldNone(ws: seq<Worker>, j: Job)
    requires forall i :: 0 <= i < |ws| ==> Holds(ws[i], j) == 0
    ensures Held(ws, j) == 0
  {
    if ws != [] {
      HeldNone(ws[..|ws| - 1], j);
    }
  }

  lemma CountAppend(js: seq<Job>, x: Job, j: Job)
    ensures Count(js + [x], j) == Count(js, j) + if j == x then 1 else 0
  {
  }

  lemma CountPop(js: seq<Job>, j: Job)
    requires js != []
    ensures Count(js, j) == Count(js[1..], j) + if j == js[0] then 1 else 0
  {
    assert js == [js[0]] + js[1..];
  }
}
