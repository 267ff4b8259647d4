/** Timers of the kqueue and IOCP dispatchers, the handles that own them, and the
kernel or thread pool that fires them.

Identifiers come from a counter that starts at 1. A timer that expires posts its
identifier; the loop thread looks it up when it gets there. The IOCP dispatcher
takes a one-shot out of its table before it runs the callback, the kqueue
dispatcher afterwards; with kqueue a callback does not cancel its own timer.
*/
module TimerProtocol {

  type Id = nat
  type HandleName = nat

  datatype Platform = Iocp | Kqueue

  /** The callback being run, if any. */
  datatype Current = NoTimer | InTimer(id: Id, repeating: bool)

  /** `table` maps an identifier to whether it repeats; `armed` holds the timers
      that may still expire; `posted` the expirations not yet looked at. `handles`
      maps a handle with a cancel function to the identifier it holds (0 if the
      timer could not be made). `oneShots`, `fired` and `released` record the
      one-shots made, the callbacks run, and the timers given back, each in order. */
  datatype Timers = Timers(
    platform: Platform, next: Id, table: map<Id, bool>, armed: set<Id>, posted: seq<Id>, current: Current,
    handles: map<HandleName, Id>, made: set<Id>, oneShots: set<Id>, fired: seq<Id>, released: seq<Id>)

  datatype Action =
    | Schedule(h: HandleName, repeat: bool, created: bool)
    | Expire(id: Id)
    | Dispatch
    | EndCallback
    | CancelHandle(h: HandleName)                     // cancel() or the destructor
    | Release(h: HandleName)
    | MoveAssign(to: HandleName, from: HandleName)
    | CloseDispatcher(order: seq<Id>)                 // the table's keys, as the loop meets them

  function Init(platform: Platform): Timers {
    Timers(platform, 1, map[], {}, [], NoTimer, map[], {}, {}, [], [])
  }

  // ---- the steps -----------------------------------------------------------

  function ScheduleTimer(t: Timers, h: HandleName, repeat: bool, created: bool): Timers {
    var id := t.next;
    if !created then t.(next := id + 1, handles := t.handles[h := 0])
    else
      t.(next := id + 1, table := t.table[id := repeat], armed := t.armed + {id}, handles := t.handles[h := id],
         made := t.made + {id}, oneShots := if repeat then t.oneShots else t.oneShots + {id})
  }

  /** cancel_timer: an identifier that is not in the table is ignored. */
  function CancelTimer(t: Timers, id: Id): Timers {
    if id in t.table then
      t.(table := t.table - {id}, armed := t.armed - {id}, released := t.released + [id])
    else t
  }

  predicate MayCancel(t: Timers, id: Id) {
    t.platform.Kqueue? && t.current.InTimer? ==> t.current.id != id
  }

  function Empty(t: Timers, h: HandleName): Timers {
    t.(handles := t.handles - {h})
  }

  function RunNext(t: Timers): Timers
    requires t.posted != []
  {
    var id, t1 := t.posted[0], t.(posted := t.posted[1..]);
    if id !in t.table then t1
    else
      t1.(fired := t.fired + [id], current := InTimer(id, t.table[id]),
          table := if t.platform.Iocp? && !t.table[id] then t.table - {id} else t.table)
  }

  /** After the callback: a one-shot is given back. */
  function FinishTimer(t: Timers): Timers
    requires t.current.InTimer?
  {
    var t1 := t.(current := NoTimer);
    if t.current.repeating then t1
    else t1.(table := t.table - {t.current.id}, armed := t.armed - {t.current.id},
             released := t.released + [t.current.id])
  }

  /** An action that is not enabled leaves everything unchanged. */
  function Step(t: Timers, a: Action): Timers {
    match a
    case Schedule(h, repeat, created) => if h in t.handles then t else ScheduleTimer(t, h, repeat, created)
    case Expire(id) =>
      if id in t.armed then
        t.(posted := t.posted + [id], armed := if id in t.oneShots then t.armed - {id} else t.armed)
      else t
    case Dispatch => if t.current.NoTimer? && t.posted != [] then RunNext(t) else t
    case EndCallback => if t.current.InTimer? then FinishTimer(t) else t
    case CancelHandle(h) =>
      if h in t.handles && MayCancel(t, t.handles[h]) then Empty(CancelTimer(t, t.handles[h]), h) else t
    case Release(h) => Empty(t, h)
    case MoveAssign(to, from) => MoveHandle(t, to, from)
    case CloseDispatcher(order) =>
      if t.current.NoTimer? && (forall id :: id in t.table ==> id in order) then ReleaseAll(t, order) else t
  }

  /** Move assignment: what `to` held is cancelled, `from` is left empty. */
  function MoveHandle(t: Timers, to: HandleName, from: HandleName): Timers {
    if to == from || (to in t.handles && !MayCancel(t, t.handles[to])) then t
    else
      var t1 := if to in t.handles then Empty(CancelTimer(t, t.handles[to]), to) else t;
      if from in t.handles then Empty(t1.(handles := t1.handles[to := t.handles[from]]), from) else t1
  }

  /** The dispatcher's destructor gives back every timer left in the table. */
  function ReleaseAll(t: Timers, order: seq<Id>): Timers
    decreases |order|
  {
    if order == [] then t else ReleaseAll(CancelTimer(t, order[0]), order[1..])
  }

  /** The state after a run, last action outermost. */
  function Exec(t: Timers, acts: seq<Action>): Timers {
    if acts == [] then t else Step(Exec(t, acts[..|acts| - 1]), acts[|acts| - 1])
  }

  // ---- what holds of one timer in every reachable state ---------------------

  function Count(s: seq<Id>, id: Id): nat {
    multiset(s)[id]
  }

  predicate Running(t: Timers, id: Id) {
    t.current.InTimer? && t.current.id == id
  }

  /** Somebody still has to give the timer back: the table, or the loop thread
      that is running a one-shot. */
  predicate Held(t: Timers, id: Id) {
    id in t.table || (Running(t, id) && !t.current.repeating)
  }

  function One(b: bool): nat {
    if b then 1 else 0
  }

  /** An identifier is new until it is handed out. */
  predicate Unused(t: Timers, id: Id) {
    id !in t.table && id !in t.armed && id !in t.posted && !Running(t, id)
    && id !in t.fired && id !in t.released && id !in t.oneShots
  }

  /** A timer that was made is held, or was given back, once. */
  predicate Accounted(t: Timers, id: Id) {
    0 < t.next
    && (id in t.made ==> 0 < id < t.next && Count(t.released, id) + One(Held(t, id)) == 1)
    && (id !in t.made ==> Unused(t, id))
    && (id in t.armed ==> id in t.table)
  }

  predicate KindKept(t: Timers, id: Id) {
    (id in t.table ==> t.table[id] == (id !in t.oneShots))
    && (Running(t, id) ==> t.current.repeating == (id !in t.oneShots))
    && (Running(t, id) && !t.current.repeating ==> (id in t.table <==> t.platform.Kqueue?))
  }

  /** A one-shot's single expiration is ahead, posted, or has been run; while it is
      in the table it is not lost, and it has been run only if it is running. */
  predicate OneShotOk(t: Timers, id: Id) {
    id in t.oneShots ==>
      (var n := One(id in t.armed) + Count(t.posted, id) + Count(t.fired, id);
       n <= 1
       && (id in t.table ==> n == 1 && (Count(t.fired, id) == 1 <==> Running(t, id)))
       && (Running(t, id) ==> Count(t.fired, id) == 1))
  }

  predicate TimerOk(t: Timers, id: Id) {
    Accounted(t, id) && KindKept(t, id) && OneShotOk(t, id)
  }

  /** No two handles hold the same timer. */
  predicate HandlesOk(t: Timers) {
    (forall h :: h in t.handles ==> t.handles[h] == 0 || t.handles[h] in t.made)
    && (forall h, g :: h in t.handles && g in t.handles && h != g && t.handles[h] == t.handles[g] ==> t.handles[h] == 0)
  }

  ghost predicate Inv(t: Timers) {
    (forall id: Id :: TimerOk(t, id)) && HandlesOk(t)
  }

  // ---- preservation -----------------------------------------------------------

  lemma CountPush(s: seq<Id>, x: Id, id: Id)
    ensures Count(s + [x], id) == Count(s, id) + One(x == id)
    ensures id in s <==> Count(s, id) > 0
  {
  }

  lemma CountPop(s: seq<Id>, id: Id)
    requires s != []
    ensures Count(s, id) == Count(s[1..], id) + One(s[0] == id)
    ensures id in s[1..] ==> id in s
  {
    assert s == [s[0]] + s[1..];
  }

  lemma ScheduleKeeps(t: Timers, h: HandleName, repeat: bool, created: bool, id: Id)
    requires TimerOk(t, id) && TimerOk(t, t.next)
    ensures TimerOk(ScheduleTimer(t, h, repeat, created), id)
  {
  }

  lemma CancelKeeps(t: Timers, x: Id, id: Id)
    requires TimerOk(t, id) && MayCancel(t, x)
    ensures TimerOk(CancelTimer(t, x), id)
  {
    CountPush(t.released, x, id);
  }

  lemma ExpireKeeps(t: Timers, x: Id, id: Id)
    requires TimerOk(t, id)
    ensures TimerOk(Step(t, Expire(x)), id)
  {
    CountPush(t.posted, x, id);
  }

  lemma RunNextKeeps(t: Timers, id: Id)
    requires TimerOk(t, id) && t.current.NoTimer? && t.posted != []
    ensures TimerOk(RunNext(t), id)
  {
    CountPop(t.posted, id);
    CountPush(t.fired, t.posted[0], id);
  }

  lemma FinishKeeps(t: Timers, id: Id)
    requires TimerOk(t, id) && t.current.InTimer?
    ensures TimerOk(FinishTimer(t), id)
  {
    CountPush(t.released, t.current.id, id);
  }

  lemma {:induction false} ReleaseAllKeeps(t: Timers, order: seq<Id>, id: Id)
    requires TimerOk(t, id) && t.current.NoTimer?
    ensures TimerOk(ReleaseAll(t, order), id)
    ensures ReleaseAll(t, order).current == t.current && ReleaseAll(t, order).made == t.made
    ensures ReleaseAll(t, order).handles == t.handles
    ensures id in ReleaseAll(t, order).table <==> id in t.table && id !in order
    decreases |order|
  {
    if order != [] {
      CancelKeeps(t, order[0], id);
      ReleaseAllKeeps(CancelTimer(t, order[0]), order[1..], id);
    }
  }

  /** The handles do not matter to the timers. */
  lemma HandlesIgnored(t: Timers, handles: map<HandleName, Id>, id: Id)
    requires TimerOk(t, id)
    ensures TimerOk(t.(handles := handles), id)
  {
  }

  /** Only the handle moves; the timers are as after the cancellation. */
  lemma MoveKeeps(t: Timers, to: HandleName, from: HandleName, id: Id)
    requires TimerOk(t, id)
    ensures TimerOk(MoveHandle(t, to, from), id)
  {
    var u := MoveHandle(t, to, from);
    if to != from && (to in t.handles ==> MayCancel(t, t.handles[to])) {
      var t1 := if to in t.handles then CancelTimer(t, t.handles[to]) else t;
      if to in t.handles { CancelKeeps(t, t.handles[to], id); }
      HandlesIgnored(t1, u.handles, id);
      assert u == t1.(handles := u.handles);
    }
  }

  lemma StepKeepsTimer(t: Timers, a: Action, id: Id)
    requires TimerOk(t, id) && TimerOk(t, t.next)
    ensures TimerOk(Step(t, a), id)
  {
    match a
    case Schedule(h, repeat, created) => ScheduleKeeps(t, h, repeat, created, id);
    case Expire(x) => ExpireKeeps(t, x, id);
    case Dispatch => if t.current.NoTimer? && t.posted != [] { RunNextKeeps(t, id); }
    case EndCallback => if t.current.InTimer? { FinishKeeps(t, id); }
    case CancelHandle(h) =>
      if h in t.handles && MayCancel(t, t.handles[h]) { CancelKeeps(t, t.handles[h], id); }
    case Release(h) =>
    case MoveAssign(to, from) => MoveKeeps(t, to, from, id);
    case CloseDispatcher(order) => if t.current.NoTimer? { ReleaseAllKeeps(t, order, id); }
  }

  lemma StepKeepsHandles(t: Timers, a: Action)
    requires Inv(t)
    ensures HandlesOk(Step(t, a))
  {
    match a
    case Schedule(h, repeat, created) => assert TimerOk(t, t.next);
    case CloseDispatcher(order) =>
      if t.current.NoTimer? {
        assert TimerOk(t, 0);
        ReleaseAllKeeps(t, order, 0);
      }
    case _ =>
  }

  lemma StepInv(t: Timers, a: Action)
    requires Inv(t)
    ensures Inv(Step(t, a))
  {
    StepKeepsHandles(t, a);
    forall id: Id ensures TimerOk(Step(t, a), id) {
      assert TimerOk(t, id) && TimerOk(t, t.next);
      StepKeepsTimer(t, a, id);
    }
  }

  lemma {:induction false} ExecInv(t: Timers, acts: seq<Action>)
    requires Inv(t)
    ensures Inv(Exec(t, acts))
    decreases |acts|
  {
    if acts != [] {
      ExecInv(t, acts[..|acts| - 1]);
      StepInv(Exec(t, acts[..|acts| - 1]), acts[|acts| - 1]);
    }
  }
}
