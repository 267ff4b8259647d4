/** What users of timers rely on, for every run of the timer protocol: however
scheduling, expiry, dispatch, cancellation and handle moves are interleaved. */
module TimerTheorems {
  import opened TimerProtocol

  lemma InitInv(platform: Platform)
    ensures Inv(Init(platform))
  {
  }

  /** A one-shot timer runs at most once, and a timer is given back at most once. */
  lemma OneShotFiresOnce(platform: Platform, acts: seq<Action>, id: Id)
    ensures var t := Exec(Init(platform), acts);
            (id in t.oneShots ==> Count(t.fired, id) <= 1) && Count(t.released, id) <= 1
  {
    var t := Exec(Init(platform), acts);
    InitInv(platform);
    ExecInv(Init(platform), acts);
    assert TimerOk(t, id);
    CountPush(t.released, 0, id);
  }

  /** A one-shot that is neither cancelled nor finished is never lost: it has not
      expired yet, or its expiration is queued, or it is running. */
  lemma OneShotNotLost(platform: Platform, acts: seq<Action>, id: Id)
    ensures var t := Exec(Init(platform), acts);
            id in t.table && id in t.oneShots ==> id in t.armed || id in t.posted || Running(t, id)
  {
    var t := Exec(Init(platform), acts);
    InitInv(platform);
    ExecInv(Init(platform), acts);
    assert TimerOk(t, id);
    CountPush(t.posted, 0, id);
  }

  // ---- a timer that left the table never comes back -------------------------

  /** Handed out, and gone from the table. */
  predicate Gone(t: Timers, id: Id) {
    id < t.next && id !in t.table
  }

  lemma CancelLeavesGone(t: Timers, x: Id, id: Id)
    requires Gone(t, id)
    ensures Gone(CancelTimer(t, x), id) && CancelTimer(t, x).fired == t.fired
  {
  }

  lemma {:induction false} ReleaseLeavesGone(t: Timers, order: seq<Id>, id: Id)
    requires Gone(t, id)
    ensures Gone(ReleaseAll(t, order), id) && ReleaseAll(t, order).fired == t.fired
    decreases |order|
  {
    if order != [] {
      CancelLeavesGone(t, order[0], id);
      ReleaseLeavesGone(CancelTimer(t, order[0]), order[1..], id);
    }
  }

  lemma MoveLeavesGone(t: Timers, to: HandleName, from: HandleName, id: Id)
    requires Gone(t, id)
    ensures Gone(MoveHandle(t, to, from), id) && MoveHandle(t, to, from).fired == t.fired
  {
    if to in t.handles { CancelLeavesGone(t, t.handles[to], id); }
  }

  lemma StepLeavesGone(t: Timers, a: Action, id: Id)
    requires Gone(t, id)
    ensures Gone(Step(t, a), id) && Count(Step(t, a).fired, id) == Count(t.fired, id)
  {
    match a
    case Dispatch => if t.posted != [] { CountPush(t.fired, t.posted[0], id); }
    case CloseDispatcher(order) => ReleaseLeavesGone(t, order, id);
    case MoveAssign(to, from) => MoveLeavesGone(t, to, from, id);
    case CancelHandle(h) => if h in t.handles { CancelLeavesGone(t, t.handles[h], id); }
    case _ =>
  }

  /** Once out of the table, a timer is out for good and its callback does not
      run again, whatever has been posted and whatever happens next. */
  lemma {:induction false} GoneForever(t: Timers, acts: seq<Action>, id: Id)
    requires Gone(t, id)
    ensures var u := Exec(t, acts); Gone(u, id) && Count(u.fired, id) == Count(t.fired, id)
    decreases |acts|
  {
    if acts != [] {
      GoneForever(t, acts[..|acts| - 1], id);
      StepLeavesGone(Exec(t, acts[..|acts| - 1]), acts[|acts| - 1], id);
    }
  }

  /** Nothing runs after a cancellation, not even an expiration already queued. */
  lemma NothingAfterCancel(platform: Platform, acts: seq<Action>, h: HandleName, later: seq<Action>)
    ensures var t := Exec(Init(platform), acts);
            h in t.handles && MayCancel(t, t.handles[h]) ==>
              (var u := Exec(Step(t, CancelHandle(h)), later);
               t.handles[h] !in u.table && Count(u.fired, t.handles[h]) == Count(t.fired, t.handles[h]))
  {
    var t := Exec(Init(platform), acts);
    InitInv(platform);
    ExecInv(Init(platform), acts);
    if h in t.handles && MayCancel(t, t.handles[h]) {
      assert TimerOk(t, t.handles[h]);
      GoneForever(Step(t, CancelHandle(h)), later, t.handles[h]);
    }
  }

  /** A handle whose timer is over cancels nothing, however late it is used:
      the identifier is never given to another timer. */
  lemma StaleHandleIsHarmless(platform: Platform, acts: seq<Action>, h: HandleName, later: seq<Action>)
    ensures var t := Exec(Init(platform), acts);
            var u := Exec(t, later);
            h in t.handles && t.handles[h] !in t.table && h in u.handles && u.handles[h] == t.handles[h] ==>
              CancelTimer(u, u.handles[h]) == u
  {
    var t := Exec(Init(platform), acts);
    InitInv(platform);
    ExecInv(Init(platform), acts);
    if h in t.handles && t.handles[h] !in t.table {
      assert TimerOk(t, t.handles[h]);
      GoneForever(t, later, t.handles[h]);
    }
  }

  /** What happens through a handle, or to it, but not to `g`. */
  predicate Elsewhere(a: Action, g: HandleName) {
    (a.CancelHandle? && a.h != g) || (a.Release? && a.h != g) || (a.MoveAssign? && a.to != g && a.from != g)
  }

  /** Cancelling, destroying, releasing, moving or overwriting other handles leaves a
      handle and its timer as they were. */
  lemma OwnersAreSeparate(platform: Platform, acts: seq<Action>, a: Action, g: HandleName)
    ensures var t := Exec(Init(platform), acts);
            g in t.handles && Elsewhere(a, g) ==>
              (var u := Step(t, a);
               g in u.handles && u.handles[g] == t.handles[g]
               && (t.handles[g] in u.table <==> t.handles[g] in t.table)
               && (t.handles[g] in u.armed <==> t.handles[g] in t.armed))
  {
    var t := Exec(Init(platform), acts);
    InitInv(platform);
    ExecInv(Init(platform), acts);
    assert TimerOk(t, 0);
    if g in t.handles && Elsewhere(a, g) { OthersUntouched(t, a, g); }
  }

  lemma CancelSpares(t: Timers, x: Id, id: Id)
    requires x != id || x !in t.table
    ensures var u := CancelTimer(t, x);
            (id in u.table <==> id in t.table) && (id in u.armed <==> id in t.armed) && u.handles == t.handles
  {
  }

  lemma OthersUntouched(t: Timers, a: Action, g: HandleName)
    requires HandlesOk(t) && 0 !in t.table && g in t.handles && Elsewhere(a, g)
    ensures var u := Step(t, a);
            && g in u.handles && u.handles[g] == t.handles[g]
            && (t.handles[g] in u.table <==> t.handles[g] in t.table)
            && (t.handles[g] in u.armed <==> t.handles[g] in t.armed)
  {
    var h := if a.MoveAssign? then a.to else a.h;
    if h in t.handles { CancelSpares(t, t.handles[h], t.handles[g]); }
  }

  /** Moving a handle keeps its timer: it is now the other handle's, alone. */
  lemma MoveTransfers(platform: Platform, acts: seq<Action>, to: HandleName, from: HandleName)
    ensures var t := Exec(Init(platform), acts);
            from in t.handles && to != from && (to in t.handles ==> MayCancel(t, t.handles[to])) ==>
              (var u := Step(t, MoveAssign(to, from));
               to in u.handles && u.handles[to] == t.handles[from] && from !in u.handles
               && (t.handles[from] in u.table <==> t.handles[from] in t.table)
               && (to in t.handles ==> t.handles[to] !in u.table))
  {
    var t := Exec(Init(platform), acts);
    InitInv(platform);
    ExecInv(Init(platform), acts);
    assert TimerOk(t, 0);
  }

  /** When the dispatcher goes, every timer ever made has been given back, once. */
  lemma AllReleasedAtClose(platform: Platform, acts: seq<Action>, order: seq<Id>, id: Id)
    ensures var t := Exec(Init(platform), acts);
            t.current.NoTimer? && (forall x :: x in t.table ==> x in order) && id in t.made ==>
              (var u := Step(t, CloseDispatcher(order)); u.table == map[] && Count(u.released, id) == 1)
  {
    var t := Exec(Init(platform), acts);
    InitInv(platform);
    ExecInv(Init(platform), acts);
    if t.current.NoTimer? && (forall x :: x in t.table ==> x in order) {
      var u := ReleaseAll(t, order);
      forall x: Id ensures x !in u.table {
        assert TimerOk(t, x);
        ReleaseAllKeeps(t, order, x);
      }
      assert TimerOk(t, id);
      ReleaseAllKeeps(t, order, id);
    }
  }
}
