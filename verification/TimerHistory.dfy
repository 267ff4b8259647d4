/** Which timers exist, which callbacks have run and in what order, in every run, in
terms of the schedules, expirations and cancellations in it. */
module TimerHistory {
  import opened TimerProtocol
  import opened TimerTheorems

  // ---- what makes and ends a timer ------------------------------------------------

  /** The step makes timer `id`: a schedule whose timer could be made. */
  predicate Makes(t: Timers, a: Action, id: Id) {
    a.Schedule? && a.h !in t.handles && a.created && t.next == id
  }

  /** The step cancels timer `id`: its handle is cancelled, destroyed or assigned over, or
      the dispatcher goes. */
  predicate Cancels(t: Timers, a: Action, id: Id) {
    match a
    case CancelHandle(h) => h in t.handles && t.handles[h] == id && MayCancel(t, id)
    case MoveAssign(to, from) => to != from && to in t.handles && t.handles[to] == id && MayCancel(t, id)
    case CloseDispatcher(order) => t.current.NoTimer? && forall x :: x in t.table ==> x in order
    case _ => false
  }

  /** The step takes a one-shot out because it runs (IOCP) or has run (kqueue). */
  predicate Spends(t: Timers, a: Action, id: Id) {
    && id in t.oneShots
    && if t.platform.Iocp? then a.Dispatch? && t.current.NoTimer? && t.posted != [] && t.posted[0] == id
       else a.EndCallback? && Running(t, id)
  }

  /** Timer `id` was made and neither cancelled nor spent since. */
  predicate Lives(t: Timers, acts: seq<Action>, id: Id) {
    acts != [] &&
    var u, last := Exec(t, acts[..|acts| - 1]), acts[|acts| - 1];
    Makes(u, last, id) || (Lives(t, acts[..|acts| - 1], id) && !Cancels(u, last, id) && !Spends(u, last, id))
  }

  lemma CloseStep(t: Timers, order: seq<Id>, id: Id)
    requires TimerOk(t, id)
    ensures id in Step(t, CloseDispatcher(order)).table <==> id in t.table && !Cancels(t, CloseDispatcher(order), id)
  {
    if t.current.NoTimer? && (forall x :: x in t.table ==> x in order) { ReleaseAllKeeps(t, order, id); }
  }

  lemma EntryStep(t: Timers, a: Action, id: Id)
    requires TimerOk(t, id) && HandlesOk(t)
    ensures id in Step(t, a).table <==>
            Makes(t, a, id) || (id in t.table && !Cancels(t, a, id) && !Spends(t, a, id))
  {
    match a
    case CloseDispatcher(order) => CloseStep(t, order, id);
    case MoveAssign(to, from) => MoveStep(t, to, from, id);
    case Dispatch =>
    case EndCallback =>
    case _ => FrameStep(t, a, id);
  }

  lemma MoveStep(t: Timers, to: HandleName, from: HandleName, id: Id)
    ensures id in MoveHandle(t, to, from).table <==> id in t.table && !Cancels(t, MoveAssign(to, from), id)
  {
  }

  lemma FrameStep(t: Timers, a: Action, id: Id)
    requires TimerOk(t, id) && !a.CloseDispatcher? && !a.MoveAssign? && !a.Dispatch? && !a.EndCallback?
    ensures id in Step(t, a).table <==> Makes(t, a, id) || (id in t.table && !Cancels(t, a, id))
  {
  }

  /** The table holds exactly the timers that live. */
  lemma {:induction false} EntryIff(platform: Platform, acts: seq<Action>, id: Id)
    ensures id in Exec(Init(platform), acts).table <==> Lives(Init(platform), acts, id)
    decreases |acts|
  {
    if acts != [] {
      EntryIff(platform, acts[..|acts| - 1], id);
      InitInv(platform);
      ExecInv(Init(platform), acts[..|acts| - 1]);
      assert TimerOk(Exec(Init(platform), acts[..|acts| - 1]), id);
      EntryStep(Exec(Init(platform), acts[..|acts| - 1]), acts[|acts| - 1], id);
    }
  }

  // ---- repeating timers -------------------------------------------------------------

  predicate EverCancelled(t: Timers, acts: seq<Action>, id: Id) {
    acts != [] &&
    var u := Exec(t, acts[..|acts| - 1]);
    (EverCancelled(t, acts[..|acts| - 1], id) || (id in u.made && Cancels(u, acts[|acts| - 1], id)))
  }

  /** What a repeating timer is, all the time. */
  predicate RepeatsOn(t: Timers, id: Id) {
    id !in t.oneShots ==> (id in t.armed <==> id in t.table)
  }

  lemma CloseRepeats(t: Timers, order: seq<Id>, id: Id)
    requires TimerOk(t, id) && RepeatsOn(t, id) && t.current.NoTimer?
    ensures RepeatsOn(ReleaseAll(t, order), id) && ReleaseAll(t, order).oneShots == t.oneShots
    decreases |order|
  {
    if order != [] {
      CancelKeeps(t, order[0], id);
      CloseRepeats(CancelTimer(t, order[0]), order[1..], id);
    }
  }

  lemma RepeatStep(t: Timers, a: Action, id: Id)
    requires TimerOk(t, id) && RepeatsOn(t, id)
    ensures RepeatsOn(Step(t, a), id)
  {
    match a
    case CloseDispatcher(order) => if t.current.NoTimer? { CloseRepeats(t, order, id); }
    case _ =>
  }

  lemma MadeStep(t: Timers, a: Action, id: Id)
    requires TimerOk(t, id)
    ensures id in Step(t, a).made <==> id in t.made || Makes(t, a, id)
    ensures id in Step(t, a).oneShots <==> id in t.oneShots || (Makes(t, a, id) && !a.repeat)
  {
    match a
    case CloseDispatcher(order) =>
      if t.current.NoTimer? {
        ReleaseAllKeeps(t, order, id);
        ReleaseKeepsKind(t, order);
      }
    case _ =>
  }

  lemma {:induction false} ReleaseKeepsKind(t: Timers, order: seq<Id>)
    ensures ReleaseAll(t, order).oneShots == t.oneShots
    decreases |order|
  {
    if order != [] { ReleaseKeepsKind(CancelTimer(t, order[0]), order[1..]); }
  }

  /** A repeating timer stays in the table, armed, from its schedule until it is
      cancelled, however often it expires and runs. */
  lemma {:induction false} RepeatsUntilCancelled(platform: Platform, acts: seq<Action>, id: Id)
    ensures var t := Exec(Init(platform), acts);
            id in t.made && id !in t.oneShots ==>
              (id in t.table <==> !EverCancelled(Init(platform), acts, id)) && (id in t.armed <==> id in t.table)
    ensures RepeatsOn(Exec(Init(platform), acts), id)
    ensures id !in Exec(Init(platform), acts).made ==> !EverCancelled(Init(platform), acts, id)
    decreases |acts|
  {
    if acts != [] {
      var t, last := Exec(Init(platform), acts[..|acts| - 1]), acts[|acts| - 1];
      RepeatsUntilCancelled(platform, acts[..|acts| - 1], id);
      InitInv(platform);
      ExecInv(Init(platform), acts[..|acts| - 1]);
      assert TimerOk(t, id);
      EntryStep(t, last, id);
      RepeatStep(t, last, id);
      MadeStep(t, last, id);
    }
  }

  // ---- expirations and callbacks --------------------------------------------------------

  /** The expirations posted in a run, in order. */
  function Expirations(t: Timers, acts: seq<Action>): seq<Id> {
    if acts == [] then []
    else
      var u, last := Exec(t, acts[..|acts| - 1]), acts[|acts| - 1];
      Expirations(t, acts[..|acts| - 1]) + if last.Expire? && last.id in u.armed then [last.id] else []
  }

  predicate LooksUp(t: Timers, a: Action) {
    a.Dispatch? && t.current.NoTimer? && t.posted != []
  }

  /** The expirations the loop thread has looked up. */
  function LookedUp(t: Timers, acts: seq<Action>): seq<Id> {
    if acts == [] then []
    else
      var u := Exec(t, acts[..|acts| - 1]);
      LookedUp(t, acts[..|acts| - 1]) + if LooksUp(u, acts[|acts| - 1]) then [u.posted[0]] else []
  }

  /** Those among them whose timer lived at that moment. */
  function FoundAlive(t: Timers, acts: seq<Action>): seq<Id> {
    if acts == [] then []
    else
      var before := acts[..|acts| - 1];
      var u := Exec(t, before);
      FoundAlive(t, before) +
      if LooksUp(u, acts[|acts| - 1]) && Lives(t, before, u.posted[0]) then [u.posted[0]] else []
  }

  lemma {:induction false} ReleaseKeepsQueue(t: Timers, order: seq<Id>)
    ensures ReleaseAll(t, order).posted == t.posted && ReleaseAll(t, order).fired == t.fired
    decreases |order|
  {
    if order != [] { ReleaseKeepsQueue(CancelTimer(t, order[0]), order[1..]); }
  }

  lemma QueueStep(t: Timers, a: Action)
    ensures Step(t, a).posted ==
            if LooksUp(t, a) then t.posted[1..]
            else t.posted + if a.Expire? && a.id in t.armed then [a.id] else []
    ensures Step(t, a).fired == t.fired + if LooksUp(t, a) && t.posted[0] in t.table then [t.posted[0]] else []
  {
    match a
    case CloseDispatcher(order) => ReleaseKeepsQueue(t, order);
    case _ =>
  }

  lemma Requeue(all: seq<Id>, seen: seq<Id>, posted: seq<Id>, more: seq<Id>)
    requires all == seen + posted
    ensures all + more == seen + (posted + more)
    ensures posted != [] ==> all == seen + [posted[0]] + posted[1..]
  {
  }

  /** Expirations are looked up once each and in order, and the callbacks that run are
      exactly those whose timer lives at its look-up. */
  lemma {:induction false} CallbacksExact(platform: Platform, acts: seq<Action>)
    ensures var t := Exec(Init(platform), acts);
            && Expirations(Init(platform), acts) == LookedUp(Init(platform), acts) + t.posted
            && t.fired == FoundAlive(Init(platform), acts)
    decreases |acts|
  {
    if acts != [] {
      var before, last := acts[..|acts| - 1], acts[|acts| - 1];
      var t := Exec(Init(platform), before);
      CallbacksExact(platform, before);
      if t.posted != [] { EntryIff(platform, before, t.posted[0]); }
      QueueStep(t, last);
      var all, seen := Expirations(Init(platform), before), LookedUp(Init(platform), before);
      var more := if last.Expire? && last.id in t.armed then [last.id] else [];
      Requeue(all, seen, t.posted, more);
      assert all + [] == all && seen + [] == seen;
    }
  }

  // ---- identifiers and handles --------------------------------------------------------------

  /** In any reachable state, what a schedule gives its handle: a new timer of the asked
      kind, in the table and armed, or 0 if it could not be made. */
  lemma ScheduleGives(platform: Platform, acts: seq<Action>, h: HandleName, repeat: bool, created: bool)
    ensures var t := Exec(Init(platform), acts);
            var u := Step(t, Schedule(h, repeat, created));
            h !in t.handles ==>
              && h in u.handles && t.table.Keys <= u.table.Keys && u.fired == t.fired && u.posted == t.posted
              && (forall g :: g in t.handles ==> g in u.handles && u.handles[g] == t.handles[g])
              && if created then u.handles[h] !in t.made && u.handles[h] in u.armed && u.handles[h] in u.table
                                 && u.table[u.handles[h]] == repeat
                 else u.handles[h] == 0 && u.table == t.table
  {
    var t := Exec(Init(platform), acts);
    InitInv(platform);
    ExecInv(Init(platform), acts);
    assert TimerOk(t, t.next);
  }

  /** release() gives up the handle and leaves its timer running. */
  lemma ReleaseKeepsTimer(platform: Platform, acts: seq<Action>, h: HandleName)
    ensures var t := Exec(Init(platform), acts);
            var u := Step(t, Release(h));
            u.handles == t.handles - {h} && u.table == t.table && u.armed == t.armed && u.posted == t.posted
  {
  }

  /** The schedules so far, whether or not their timers could be made. */
  function Schedules(t: Timers, acts: seq<Action>): nat {
    if acts == [] then 0
    else
      Schedules(t, acts[..|acts| - 1]) +
      var a := acts[|acts| - 1]; if a.Schedule? && a.h !in Exec(t, acts[..|acts| - 1]).handles then 1 else 0
  }

  lemma {:induction false} ReleaseKeepsRest(t: Timers, order: seq<Id>)
    ensures ReleaseAll(t, order).next == t.next && ReleaseAll(t, order).handles == t.handles
    decreases |order|
  {
    if order != [] { ReleaseKeepsRest(CancelTimer(t, order[0]), order[1..]); }
  }

  lemma NextStep(t: Timers, a: Action)
    ensures Step(t, a).next == t.next + if a.Schedule? && a.h !in t.handles then 1 else 0
  {
    match a
    case CloseDispatcher(order) => ReleaseKeepsRest(t, order);
    case _ =>
  }

  /** Identifiers are counted from 1, one for every schedule. */
  lemma {:induction false} IdentifiersCount(platform: Platform, acts: seq<Action>)
    ensures Exec(Init(platform), acts).next == 1 + Schedules(Init(platform), acts)
    decreases |acts|
  {
    if acts != [] {
      IdentifiersCount(platform, acts[..|acts| - 1]);
      NextStep(Exec(Init(platform), acts[..|acts| - 1]), acts[|acts| - 1]);
    }
  }

  /** A cancelled or released handle is empty; a move empties the one and gives its timer
      to the other, or empties that too; nothing else changes what a handle holds. */
  lemma HandlesFollow(t: Timers, a: Action)
    ensures Step(t, a).handles ==
            match a
            case Schedule(h, _, created) =>
              if h in t.handles then t.handles else t.handles[h := if created then t.next else 0]
            case CancelHandle(h) => if h in t.handles && MayCancel(t, t.handles[h]) then t.handles - {h} else t.handles
            case Release(h) => t.handles - {h}
            case MoveAssign(to, from) =>
              if to == from || (to in t.handles && !MayCancel(t, t.handles[to])) then t.handles
              else if from in t.handles then t.handles[to := t.handles[from]] - {from} else t.handles - {to}
            case _ => t.handles
  {
    match a
    case CloseDispatcher(order) => ReleaseKeepsRest(t, order);
    case MoveAssign(to, from) => MoveHandles(t, to, from);
    case _ =>
  }

  lemma MoveHandles(t: Timers, to: HandleName, from: HandleName)
    ensures MoveHandle(t, to, from).handles ==
            if to == from || (to in t.handles && !MayCancel(t, t.handles[to])) then t.handles
            else if from in t.handles then t.handles[to := t.handles[from]] - {from} else t.handles - {to}
  {
  }
}
