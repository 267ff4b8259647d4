/** The dispatchers' timer table and the user's timer handles, updated in place.
Every operation is a run of the timer protocol. */
module TimerService {
  import opened TimerProtocol
  import TimerTheorems

  class Service {
    const platform: Platform
    var next: Id
    var table: map<Id, bool>
    var handles: map<HandleName, Id>
    var current: Current
    var posted: seq<Id>
    var armed: set<Id>
    /** The protocol state that the fields represent. */
    ghost var model: Timers

    ghost predicate Valid()
      reads this
    {
      model.platform == platform && model.next == next && model.table == table && model.handles == handles
      && model.current == current && model.posted == posted && model.armed == armed && Inv(model)
    }

    constructor (platform: Platform)
      ensures Valid() && model == Init(platform)
    {
      this.platform := platform;
      next, table, handles, current, posted, armed := 1, map[], map[], NoTimer, [], {};
      model := Init(platform);
      new;
      TimerTheorems.InitInv(platform);
    }

    /** schedule_timer, with the handle that defer and repeat wrap around it. */
    method ScheduleTimer(h: HandleName, repeat: bool, created: bool) returns (id: Id)
      requires Valid() && h !in handles
      modifies this
      ensures Valid() && model == Step(old(model), Schedule(h, repeat, created))
      ensures handles == old(handles)[h := id] && (id != 0 <==> created) && (created ==> id !in old(table))
      ensures table == if created then old(table)[id := repeat] else old(table)
      ensures armed == if created then old(armed) + {id} else old(armed)
    {
      assert TimerOk(model, next);
      StepInv(model, Schedule(h, repeat, created));
      model := Step(model, Schedule(h, repeat, created));
      id, next := next, next + 1;
      if created {
        armed := armed + {id};
        table := table[id := repeat];
      } else {
        id := 0;
      }
      handles := handles[h := id];
    }

    /** cancel_timer: the table entry goes first, then the timer is disarmed and
        closed. */
    method CancelTimer(id: Id)
      requires Valid() && MayCancel(model, id)
      modifies `table, `armed, `model
      ensures Valid() && model == TimerProtocol.CancelTimer(old(model), id)
      ensures table == old(table) - {id} && armed == old(armed) - {id}
    {
      forall x: Id ensures TimerOk(TimerProtocol.CancelTimer(model, id), x) {
        assert TimerOk(model, x);
        CancelKeeps(model, id, x);
      }
      assert TimerOk(model, id);
      model := TimerProtocol.CancelTimer(model, id);
      if id !in table { return; }
      table := table - {id};
      armed := armed - {id};
    }

    method CancelHandle(h: HandleName)
      requires Valid() && (h in handles ==> MayCancel(model, handles[h]))
      modifies `table, `armed, `handles, `model
      ensures Valid() && handles == old(handles) - {h}
      ensures table == if h in old(handles) then old(table) - {old(handles)[h]} else old(table)
      ensures model == Step(old(model), Action.CancelHandle(h))
    {
      if h in handles {
        StepInv(model, Action.CancelHandle(h));
        CancelTimer(handles[h]);
        handles := handles - {h};
        model := Empty(model, h);
      }
    }

    method ReleaseHandle(h: HandleName) returns (id: Id)
      requires Valid()
      modifies `handles, `model
      ensures Valid() && model == Step(old(model), Release(h))
      ensures id == (if h in old(handles) then old(handles)[h] else 0) && handles == old(handles) - {h}
    {
      StepInv(model, Release(h));
      id := if h in handles then handles[h] else 0;
      handles := handles - {h};
      model := Step(model, Release(h));
    }

    /** Move assignment, and with an empty `to` move construction. */
    method MoveHandle(to: HandleName, from: HandleName)
      requires Valid() && (to in handles ==> MayCancel(model, handles[to]))
      modifies `table, `armed, `handles, `model
      ensures Valid() && model == Step(old(model), MoveAssign(to, from))
      ensures handles == if to == from then old(handles)
                         else if from in old(handles) then old(handles)[to := old(handles)[from]] - {from}
                         else old(handles) - {to}
      ensures table == if to != from && to in old(handles) then old(table) - {old(handles)[to]} else old(table)
    {
      StepInv(model, MoveAssign(to, from));
      ghost var after := Step(model, MoveAssign(to, from));
      if to != from {
        CancelHandle(to);
        if from in handles {
          handles := handles[to := handles[from]];
          handles := handles - {from};
        }
        model := after;
      }
    }

    /** A timer expires: on Windows its thread pool callback posts the identifier,
        with kqueue the kernel queues the event. A one-shot is spent. */
    method TimerExpires(id: Id, oneShot: bool)
      requires Valid() && id in armed && oneShot == (id in model.oneShots)
      modifies `posted, `armed, `model
      ensures Valid() && model == Step(old(model), Expire(id)) && posted == old(posted) + [id]
      ensures armed == if oneShot then old(armed) - {id} else old(armed)
    {
      StepInv(model, Expire(id));
      posted := posted + [id];
      if oneShot { armed := armed - {id}; }
      model := Step(model, Expire(id));
    }

    /** The part of dispatch before the callback. */
    method BeginCallback() returns (found: bool)
      requires Valid() && current.NoTimer? && posted != []
      modifies `posted, `current, `table, `model
      ensures Valid() && model == Step(old(model), Dispatch) && found == current.InTimer?
      ensures found == (old(posted)[0] in old(table)) && posted == old(posted)[1..]
      ensures found ==> current == InTimer(old(posted)[0], old(table)[old(posted)[0]])
      ensures table == if found && platform.Iocp? && !current.repeating then old(table) - {current.id} else old(table)
    {
      StepInv(model, Dispatch);
      var id := posted[0];
      posted := posted[1..];
      found := id in table;
      if found {
        current := InTimer(id, table[id]);
        if platform.Iocp? && !table[id] { table := table - {id}; }
      }
      model := Step(model, Dispatch);
    }

    method FinishCallback()
      requires Valid() && current.InTimer?
      modifies `current, `table, `armed, `model
      ensures Valid() && model == Step(old(model), EndCallback) && current.NoTimer?
      ensures table == if old(current).repeating then old(table) else old(table) - {old(current).id}
      ensures armed == if old(current).repeating then old(armed) else old(armed) - {old(current).id}
    {
      StepInv(model, EndCallback);
      if !current.repeating {
        if platform.Kqueue? {
          table := table - {current.id};
        } else {
          assert TimerOk(model, current.id);
          assert table - {current.id} == table;
        }
        armed := armed - {current.id};
      }
      current := NoTimer;
      model := Step(model, EndCallback);
    }

    /** The destructor's loop over the table, in the order it meets the entries. */
    method CloseAll(order: seq<Id>)
      requires Valid() && current.NoTimer? && (forall id :: id in table ==> id in order)
      modifies `table, `armed, `model
      ensures Valid() && table == map[]
      ensures model == Step(old(model), CloseDispatcher(order))
      ensures forall id :: id in model.made ==> Count(model.released, id) == 1
    {
      var i := 0;
      while i < |order|
        invariant 0 <= i <= |order| && Valid() && current.NoTimer?
        invariant forall id :: id in table ==> id in order[i..]
        invariant ReleaseAll(model, order[i..]) == ReleaseAll(old(model), order)
      {
        assert order[i..][0] == order[i] && order[i..][1..] == order[i + 1..];
        CancelTimer(order[i]);
        i := i + 1;
      }
      forall id | id in model.made ensures Count(model.released, id) == 1 {
        assert TimerOk(model, id);
      }
    }
  }
}
