/** A connection whose tasks go through the post queue of its event loop.

The connection protocol has a queue of posted tasks of its own; here every post is a
post to the loop, in between those of others, and a task runs when the loop calls it.
While the loop thread is inside a callback of the connection it does nothing else.
*/
module LoopConnection {
  import C = ConnectionProtocol
  import CT = ConnectionTheorems
  import L = LoopProtocol
  import LT = LoopTheorems

  datatype System = System(conn: C.Conn, loop: L.Loop)

  datatype Action =
    | User(call: C.Action)       // send, close, pause, resume or start_reading, on any thread
    | Inside(part: C.Action)     // the loop thread goes on inside a callback of the connection
    | Event(event: C.Action)     // the dispatcher reports an event of the socket
    | Loop(step: L.Action)       // the loop otherwise, and other threads that use it

  function Init(limit: nat, d: bool, cl: bool): System {
    System(C.Init(limit, d, cl), L.Init())
  }

  // ---- the connection's callbacks among those of the loop ------------------------------

  /** The posted callback that runs a task of the connection. */
  function Posted(t: C.Task): L.Task {
    match t
    case StartTask => L.Call(0)
    case RegisterTask => L.Call(1)
    case PauseTask => L.Call(2)
    case ResumeTask => L.Call(3)
    case CloseTask => L.Call(4)
  }

  predicate Own(t: L.Task) {
    t.Call? && t.id < 5
  }

  function TaskOf(t: L.Task): C.Task
    requires Own(t)
  {
    match t.id
    case 0 => C.StartTask
    case 1 => C.RegisterTask
    case 2 => C.PauseTask
    case 3 => C.ResumeTask
    case _ => C.CloseTask
  }

  function OwnTasks(ts: seq<L.Task>): seq<C.Task> {
    if ts == [] then []
    else
      var last := ts[|ts| - 1];
      OwnTasks(ts[..|ts| - 1]) + if Own(last) then [TaskOf(last)] else []
  }

  // ---- the steps -----------------------------------------------------------------------

  predicate UserCall(a: C.Action) {
    a.StartReading? || a.Enqueue? || a.CloseFromUser? || a.PauseFromUser? || a.ResumeFromUser?
  }

  predicate InsidePart(a: C.Action) {
    a.ApplyInterest? || a.TakeChunk? || a.Send?
  }

  /** The post that goes with a connection that has one more task. */
  function WithPost(x: System, conn: C.Conn): System {
    if |conn.posts| <= |x.conn.posts| then x.(conn := conn)
    else System(conn, L.Step(x.loop, L.Post(Posted(conn.posts[|conn.posts| - 1]))))
  }

  /** A call may post one task, to the end of the loop's queue. */
  function UserStep(x: System, a: C.Action): System {
    WithPost(x, C.Step(x.conn, a))
  }

  predicate CallsOwn(l: L.Loop, a: L.Action) {
    a.RunNext? && l.pc.Running? && l.next < |L.DrainBuf(l)| && Own(L.DrainBuf(l)[l.next])
  }

  /** Others do not post the connection's tasks, and the loop thread waits while it is
      inside a callback of the connection. */
  predicate LoopEnabled(x: System, a: L.Action) {
    && ((a.Post? || a.PostOnLoop?) ==> !Own(a.task))
    && (LT.LoopThread(a) ==> x.conn.pc.Idle?)
  }

  function LoopStep(x: System, a: L.Action): System {
    System(if CallsOwn(x.loop, a) then C.Step(x.conn, C.RunTask) else x.conn, L.Step(x.loop, a))
  }

  function Step(x: System, a: Action): System {
    match a
    case User(c) => if UserCall(c) then UserStep(x, c) else x
    case Inside(c) => if InsidePart(c) then x.(conn := C.Step(x.conn, c)) else x
    case Event(c) => if c.IoEvent? && x.loop.pc.Woken? then x.(conn := C.Step(x.conn, c)) else x
    case Loop(b) => if LoopEnabled(x, b) then LoopStep(x, b) else x
  }

  function Exec(x: System, acts: seq<Action>): System {
    if acts == [] then x else Step(Exec(x, acts[..|acts| - 1]), acts[|acts| - 1])
  }

  // ---- the coupling ----------------------------------------------------------------------

  /** A connection that was started and is open is tracked or about to be. */
  predicate Starting(c: C.Conn) {
    c.startPosted && !c.inp.closed ==> c.tracked || c.pc.Adding? || C.StartTask in c.posts
  }

  /** The connection's posts are its callbacks among those pending in the loop, and it
      is in the middle of a callback only while the loop thread runs callbacks. */
  ghost predicate Linked(x: System) {
    && L.Inv(x.loop) && x.conn.posts == OwnTasks(L.Pending(x.loop))
    && (!x.conn.pc.Idle? ==> x.loop.pc.Running? || x.loop.pc.Woken?)
  }

  ghost predicate Coupled(x: System) {
    C.Inv(x.conn) && Starting(x.conn) && Linked(x)
  }

  lemma OwnAppend(ts: seq<L.Task>, t: L.Task)
    ensures OwnTasks(ts + [t]) == OwnTasks(ts) + if Own(t) then [TaskOf(t)] else []
  {
    assert (ts + [t])[..|ts|] == ts;
  }

  lemma {:induction false} OwnCons(t: L.Task, ts: seq<L.Task>)
    ensures OwnTasks([t] + ts) == (if Own(t) then [TaskOf(t)] else []) + OwnTasks(ts)
    decreases |ts|
  {
    if ts == [] {
      assert [t] + ts == [] + [t];
      OwnAppend([], t);
    } else {
      var n := |ts| - 1;
      OwnCons(t, ts[..n]);
      OwnAppend([t] + ts[..n], ts[n]);
      assert [t] + ts == [t] + ts[..n] + [ts[n]];
    }
  }

  lemma {:induction false} OwnPosted(ts: seq<L.Task>, t: C.Task)
    ensures t in OwnTasks(ts) <==> Posted(t) in ts
  {
    if ts != [] {
      var n := |ts| - 1;
      OwnPosted(ts[..n], t);
      assert ts == ts[..n] + [ts[n]];
    }
  }

  /** What a call of the user does to the posts and the position. */
  lemma UserPosts(c: C.Conn, a: C.Action)
    requires UserCall(a)
    ensures var c' := C.Step(c, a);
            && c'.pc == c.pc && (c'.posts == c.posts || (c'.posts != [] && c'.posts[..|c'.posts| - 1] == c.posts))
  {
  }

  lemma InsidePosts(c: C.Conn, a: C.Action)
    requires InsidePart(a)
    ensures C.Step(c, a).posts == c.posts && (c.pc.Idle? ==> C.Step(c, a).pc.Idle?)
  {
  }

  lemma EventPosts(c: C.Conn, a: C.Action)
    requires a.IoEvent?
    ensures C.Step(c, a).posts == c.posts
  {
  }

  lemma RunStarting(c: C.Conn)
    requires Starting(c) && c.pc.Idle? && c.posts != []
    ensures Starting(C.RunPosted(c))
  {
    assert c.posts == [c.posts[0]] + c.posts[1..];
  }

  lemma StepStarting(c: C.Conn, a: C.Action)
    requires Starting(c)
    ensures Starting(C.Step(c, a))
  {
    if a.RunTask? && c.pc.Idle? && c.posts != [] { RunStarting(c); }
  }

  lemma OwnGrows(ts: seq<L.Task>, ts': seq<L.Task>, posts: seq<C.Task>)
    requires posts != [] && posts[..|posts| - 1] == OwnTasks(ts) && ts' == ts + [Posted(posts[|posts| - 1])]
    ensures OwnTasks(ts') == posts
  {
    OwnAppend(ts, Posted(posts[|posts| - 1]));
    assert posts == posts[..|posts| - 1] + [posts[|posts| - 1]];
  }

  lemma PostKeeps(l: L.Loop, posts: seq<C.Task>)
    requires L.Inv(l) && posts != [] && posts[..|posts| - 1] == OwnTasks(L.Pending(l))
    ensures var l' := L.Step(l, L.Post(Posted(posts[|posts| - 1])));
            L.Inv(l') && OwnTasks(L.Pending(l')) == posts && l'.pc == l.pc
  {
    var t := Posted(posts[|posts| - 1]);
    L.StepInv(l, L.Post(t));
    L.PushEffect(l, t);
    PendingOfPost(l, t);
    OwnGrows(L.Pending(l), L.Pending(L.Step(l, L.Post(t))), posts);
  }

  /** A connection that has posted at most one more task, and the post. */
  lemma LinkedAfterPost(x: System, conn: C.Conn)
    requires Linked(x) && conn.pc == x.conn.pc
    requires conn.posts == x.conn.posts || (conn.posts != [] && conn.posts[..|conn.posts| - 1] == x.conn.posts)
    ensures Linked(WithPost(x, conn)) && WithPost(x, conn).conn == conn
  {
    if conn.posts != x.conn.posts { LinkedAfterMore(x, conn); }
  }

  lemma LinkedAfterMore(x: System, conn: C.Conn)
    requires Linked(x) && conn.pc == x.conn.pc && conn.posts != [] && conn.posts[..|conn.posts| - 1] == x.conn.posts
    ensures Linked(WithPost(x, conn)) && WithPost(x, conn).conn == conn
  {
    PostKeeps(x.loop, conn.posts);
  }

  lemma UserCoupled(x: System, a: C.Action)
    requires Coupled(x) && UserCall(a)
    ensures Coupled(UserStep(x, a))
  {
    C.StepInv(x.conn, a);
    StepStarting(x.conn, a);
    UserPosts(x.conn, a);
    LinkedAfterPost(x, C.Step(x.conn, a));
  }

  lemma PendingOfPost(l: L.Loop, t: L.Task)
    ensures L.Pending(L.Step(l, L.Post(t))) == L.Pending(L.Push(l, t)) && L.Step(l, L.Post(t)).pc == l.pc
  {
  }

  lemma InsideCoupled(x: System, a: C.Action)
    requires Coupled(x) && (InsidePart(a) || (a.IoEvent? && x.loop.pc.Woken?))
    ensures Coupled(x.(conn := C.Step(x.conn, a)))
  {
    C.StepInv(x.conn, a);
    StepStarting(x.conn, a);
    if InsidePart(a) { InsidePosts(x.conn, a); } else { EventPosts(x.conn, a); }
  }

  /** What a step of the loop does to the connection's pending callbacks. */
  lemma LoopOwn(l: L.Loop, a: L.Action)
    requires L.Refines(l) && ((a.Post? || a.PostOnLoop?) ==> !Own(a.task))
    ensures var own, own' := OwnTasks(L.Pending(l)), OwnTasks(L.Pending(L.Step(l, a)));
            if CallsOwn(l, a) then own == [TaskOf(L.DrainBuf(l)[l.next])] + own' else own' == own
  {
    match a
    case Post(t) => PostOwn(l, t);
    case PostOnLoop(t) => PostOwn(l, t);
    case Swap => if l.pc.Swapping? { L.SwapEffect(l); }
    case RunNext => if l.pc.Running? { RunOwn(l); }
    case _ => FrameOwn(l, a);
  }

  lemma FrameOwn(l: L.Loop, a: L.Action)
    requires !L.QueueAction(a)
    ensures L.Pending(L.Step(l, a)) == L.Pending(l)
  {
    L.QueueFrame(l, a);
  }

  lemma PostOwn(l: L.Loop, t: L.Task)
    requires !Own(t)
    ensures OwnTasks(L.Pending(L.Push(l, t))) == OwnTasks(L.Pending(l))
    ensures forall w: nat, k :: L.Pending(L.Push(l, t).(wakes := w, token := k)) == L.Pending(L.Push(l, t))
  {
    L.PushEffect(l, t);
    OwnAppend(L.Pending(l), t);
  }

  lemma RunOwn(l: L.Loop)
    requires L.Refines(l) && l.pc.Running?
    ensures var own, own' := OwnTasks(L.Pending(l)), OwnTasks(L.Pending(L.RunOne(l)));
            if CallsOwn(l, L.RunNext) then own == [TaskOf(L.DrainBuf(l)[l.next])] + own' else own' == own
  {
    if l.next < |L.DrainBuf(l)| {
      L.RunEffect(l);
      OwnCons(L.DrainBuf(l)[l.next], L.Pending(L.RunOne(l)));
    } else {
      L.ClearEffect(l);
    }
  }

  lemma LoopPlace(x: System, a: L.Action)
    requires LoopEnabled(x, a) && (!x.conn.pc.Idle? ==> x.loop.pc.Running? || x.loop.pc.Woken?)
    ensures var y := LoopStep(x, a); !y.conn.pc.Idle? ==> y.loop.pc.Running? || y.loop.pc.Woken?
  {
  }

  lemma PoppedPosts(c: C.Conn)
    requires c.pc.Idle? && c.posts != []
    ensures C.Step(c, C.RunTask).posts == c.posts[1..]
  {
  }

  lemma LoopCoupled(x: System, a: L.Action)
    requires Coupled(x) && LoopEnabled(x, a)
    ensures Coupled(LoopStep(x, a))
  {
    L.StepInv(x.loop, a);
    LoopOwn(x.loop, a);
    LoopPlace(x, a);
    if CallsOwn(x.loop, a) {
      C.StepInv(x.conn, C.RunTask);
      StepStarting(x.conn, C.RunTask);
      PoppedPosts(x.conn);
    }
  }

  lemma StepCoupled(x: System, a: Action)
    requires Coupled(x)
    ensures Coupled(Step(x, a))
  {
    match a
    case User(c) => if UserCall(c) { UserCoupled(x, c); }
    case Inside(c) => if InsidePart(c) { InsideCoupled(x, c); }
    case Event(c) => if c.IoEvent? && x.loop.pc.Woken? { InsideCoupled(x, c); }
    case Loop(b) => if LoopEnabled(x, b) { LoopCoupled(x, b); }
  }

  lemma {:induction false} ExecCoupled(x: System, acts: seq<Action>)
    requires Coupled(x)
    ensures Coupled(Exec(x, acts))
  {
    if acts != [] {
      ExecCoupled(x, acts[..|acts| - 1]);
      StepCoupled(Exec(x, acts[..|acts| - 1]), acts[|acts| - 1]);
    }
  }

  lemma InitCoupled(limit: nat, d: bool, cl: bool)
    ensures Coupled(Init(limit, d, cl))
  {
    CT.InitInv(limit, d, cl);
    LT.InitInv();
  }

  // ---- no stranded output, down to the loop's wake ------------------------------------------

  /** The dispatcher watches for writability, or the loop thread is inside a callback of
      the connection, or the task that will watch is queued in a loop that does not
      sleep: its wake is set or owed. */
  predicate OnItsWay(x: System) {
    || (x.conn.tracked && x.conn.interest.write)
    || !x.conn.pc.Idle?
    || ((L.Call(1) in L.Pending(x.loop) || L.Call(0) in L.Pending(x.loop)) && !LT.Blocked(x.loop))
  }

  lemma PendingNotBlocked(l: L.Loop, t: L.Task)
    requires L.Inv(l) && t in L.Pending(l)
    ensures !LT.Blocked(l)
  {
    if l.pc.Polling? { LT.PendingInPoll(l); }
  }

  lemma CoupledOnItsWay(x: System)
    requires Coupled(x) && x.conn.startPosted && !x.conn.inp.closed && (x.conn.out.queue != [] || x.conn.out.flight != [])
    ensures OnItsWay(x)
  {
    OwnPosted(L.Pending(x.loop), C.RegisterTask);
    OwnPosted(L.Pending(x.loop), C.StartTask);
    if C.RegisterTask in x.conn.posts { PendingNotBlocked(x.loop, L.Call(1)); }
    if C.StartTask in x.conn.posts { PendingNotBlocked(x.loop, L.Call(0)); }
  }

  /** In every run of senders, users, the loop and the dispatcher, output pending on a
      started open connection is on its way. */
  lemma OutputOnItsWay(limit: nat, d: bool, cl: bool, acts: seq<Action>)
    ensures var x := Exec(Init(limit, d, cl), acts);
            x.conn.startPosted && !x.conn.inp.closed && (x.conn.out.queue != [] || x.conn.out.flight != []) ==> OnItsWay(x)
  {
    var x := Exec(Init(limit, d, cl), acts);
    InitCoupled(limit, d, cl);
    ExecCoupled(Init(limit, d, cl), acts);
    if x.conn.startPosted && !x.conn.inp.closed && (x.conn.out.queue != [] || x.conn.out.flight != []) {
      CoupledOnItsWay(x);
    }
  }

  // ---- the parts of a run -------------------------------------------------------------------

  /** What an action is for the connection: its own, and a posted task when the loop calls
      one of its callbacks. */
  function ConnPart(x: System, a: Action): seq<C.Action> {
    match a
    case User(c) => if UserCall(c) then [c] else []
    case Inside(c) => if InsidePart(c) then [c] else []
    case Event(c) => if c.IoEvent? && x.loop.pc.Woken? then [c] else []
    case Loop(b) => if LoopEnabled(x, b) && CallsOwn(x.loop, b) then [C.RunTask] else []
  }

  /** What it is for the loop: its own, and a post when the connection posts a task. */
  function LoopPart(x: System, a: Action): seq<L.Action> {
    match a
    case User(c) =>
      var posts := C.Step(x.conn, c).posts;
      if UserCall(c) && |posts| > |x.conn.posts| then [L.Post(Posted(posts[|posts| - 1]))] else []
    case Loop(b) => if LoopEnabled(x, b) then [b] else []
    case _ => []
  }

  function ConnActs(x: System, acts: seq<Action>): seq<C.Action> {
    if acts == [] then []
    else ConnActs(x, acts[..|acts| - 1]) + ConnPart(Exec(x, acts[..|acts| - 1]), acts[|acts| - 1])
  }

  function LoopActs(x: System, acts: seq<Action>): seq<L.Action> {
    if acts == [] then []
    else LoopActs(x, acts[..|acts| - 1]) + LoopPart(Exec(x, acts[..|acts| - 1]), acts[|acts| - 1])
  }

  lemma ConnMore(c: C.Conn, acts: seq<C.Action>, more: seq<C.Action>)
    requires |more| <= 1
    ensures C.Exec(c, acts + more) == if more == [] then C.Exec(c, acts) else C.Step(C.Exec(c, acts), more[0])
  {
    if more == [] { assert acts + more == acts; } else { assert (acts + more)[..|acts|] == acts; }
  }

  lemma LoopMore(l: L.Loop, acts: seq<L.Action>, more: seq<L.Action>)
    requires |more| <= 1
    ensures L.Exec(l, acts + more) == if more == [] then L.Exec(l, acts) else L.Step(L.Exec(l, acts), more[0])
  {
    if more == [] { assert acts + more == acts; } else { assert (acts + more)[..|acts|] == acts; }
  }

  lemma PartsStep(x: System, a: Action)
    ensures |ConnPart(x, a)| <= 1 && |LoopPart(x, a)| <= 1
    ensures Step(x, a).conn == if ConnPart(x, a) == [] then x.conn else C.Step(x.conn, ConnPart(x, a)[0])
    ensures Step(x, a).loop == if LoopPart(x, a) == [] then x.loop else L.Step(x.loop, LoopPart(x, a)[0])
  {
  }

  /** The composed run is a run of the connection protocol and a run of the loop protocol,
      and what holds of those holds here. */
  lemma {:induction false} PartsRun(x: System, acts: seq<Action>)
    ensures Exec(x, acts).conn == C.Exec(x.conn, ConnActs(x, acts))
    ensures Exec(x, acts).loop == L.Exec(x.loop, LoopActs(x, acts))
    decreases |acts|
  {
    if acts != [] {
      var before := acts[..|acts| - 1];
      var m := Exec(x, before);
      PartsRun(x, before);
      PartsStep(m, acts[|acts| - 1]);
      ConnMore(x.conn, ConnActs(x, before), ConnPart(m, acts[|acts| - 1]));
      LoopMore(x.loop, LoopActs(x, before), LoopPart(m, acts[|acts| - 1]));
    }
  }
}
