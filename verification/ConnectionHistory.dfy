/** What the state of a connection is, in every run, in terms of what happened in it:
which sends were taken, how far the socket got, what closed it, who set its interest
mask last, and which tasks it posted. */
module ConnectionHistory {
  import opened ConnectionProtocol
  import opened ConnectionTheorems

  // ---- sends -----------------------------------------------------------------

  /** In every reachable state a send is taken exactly if it is not empty and stays
      within the limit with what is queued; one that is not taken changes nothing. */
  lemma SendTakenIff(limit: nat, d: bool, cl: bool, acts: seq<Action>, p: Bytes)
    ensures var s := Exec(Init(limit, d, cl), acts);
            var s' := Step(s, Enqueue(p));
            if p != [] && |Flat(s.out.queue)| + |p| <= limit
            then s'.out.queue == s.out.queue + [p] && s'.registered && s'.out.wire == s.out.wire
            else s' == s
  {
    ExecInv(Init(limit, d, cl), acts);
    LimitFixed(Init(limit, d, cl), acts);
    SendTaken(Exec(Init(limit, d, cl), acts), p);
  }

  lemma SendTaken(s: Conn, p: Bytes)
    requires s.out.queueBytes == |Flat(s.out.queue)|
    ensures var s' := Step(s, Enqueue(p));
            if p != [] && |Flat(s.out.queue)| + |p| <= s.out.limit
            then s'.out.queue == s.out.queue + [p] && s'.registered && s'.out.wire == s.out.wire
            else s' == s
  {
  }

  /** How many bytes the socket took: what each successful send reports, up to the
      rest of the chunk it was given. */
  function TakenBytes(c: Conn, acts: seq<Action>): nat {
    if acts == [] then 0
    else
      var s, last := Exec(c, acts[..|acts| - 1]), acts[|acts| - 1];
      TakenBytes(c, acts[..|acts| - 1]) +
      if last.Send? && last.result.SendOk? && s.pc.Sending?
      then if last.result.n <= |s.out.flight| then last.result.n else |s.out.flight| else 0
  }

  lemma WireStep(c: Conn, a: Action)
    ensures |Step(c, a).out.wire| == |c.out.wire| +
              if a.Send? && a.result.SendOk? && c.pc.Sending?
              then if a.result.n <= |c.out.flight| then a.result.n else |c.out.flight| else 0
  {
    if !a.Enqueue? && !a.TakeChunk? && !a.Send? { OutputFrame(c, a); }
  }

  lemma {:induction false} ExecTaken(c: Conn, acts: seq<Action>)
    requires c.out.wire == []
    ensures |Exec(c, acts).out.wire| == TakenBytes(c, acts)
  {
    if acts != [] {
      ExecTaken(c, acts[..|acts| - 1]);
      WireStep(Exec(c, acts[..|acts| - 1]), acts[|acts| - 1]);
    }
  }

  /** The wire carries exactly as much of the accepted bytes as the socket took. */
  lemma WireIsTaken(limit: nat, d: bool, cl: bool, acts: seq<Action>)
    ensures var c := Init(limit, d, cl);
            && TakenBytes(c, acts) <= |AcceptedBytes(c, acts)|
            && Exec(c, acts).out.wire == AcceptedBytes(c, acts)[..TakenBytes(c, acts)]
  {
    ByteStreamConserved(limit, d, cl, acts);
    ExecTaken(Init(limit, d, cl), acts);
  }

  /** A send was taken since a drain last found the queue empty. */
  predicate SentSinceDrain(c: Conn, acts: seq<Action>) {
    acts != [] &&
    var s, last := Exec(c, acts[..|acts| - 1]), acts[|acts| - 1];
    if last.Enqueue? && Fits(s, c.out.limit, last.payload) then true
    else if last.TakeChunk? && s.pc.Draining? && s.out.queue == [] then false
    else SentSinceDrain(c, acts[..|acts| - 1])
  }

  lemma RegisteredStep(c: Conn, a: Action)
    requires Conserved(c.out)
    ensures Step(c, a).registered ==
            if a.Enqueue? && Fits(c, c.out.limit, a.payload) then true
            else if a.TakeChunk? && c.pc.Draining? && c.out.queue == [] then false
            else c.registered
  {
    match a
    case RunTask => if c.posts != [] { TaskKeepsFlag(c); }
    case TakeChunk =>
    case Enqueue(_) =>
    case _ => FlagFrame(c, a);
  }

  lemma TaskKeepsFlag(c: Conn)
    requires c.posts != []
    ensures RunPosted(c).registered == c.registered
  {
  }

  lemma FlagFrame(c: Conn, a: Action)
    requires !a.RunTask? && !a.TakeChunk? && !a.Enqueue?
    ensures Step(c, a).registered == c.registered
  {
  }

  /** write_registered_ says exactly that. */
  lemma {:induction false} RegisteredIff(limit: nat, d: bool, cl: bool, acts: seq<Action>)
    ensures Exec(Init(limit, d, cl), acts).registered <==> SentSinceDrain(Init(limit, d, cl), acts)
  {
    if acts != [] {
      var c, before := Init(limit, d, cl), acts[..|acts| - 1];
      RegisteredIff(limit, d, cl, before);
      ExecInv(c, before);
      LimitFixed(c, before);
      RegisteredStep(Exec(c, before), acts[|acts| - 1]);
    }
  }

  // ---- close -----------------------------------------------------------------

  predicate EndsStream(r: RecvResult) {
    r.RecvEof? || r.RecvError? || (r.RecvData? && r.data == [])
  }

  /** The loop thread runs a close task, an event reports an error, a read finds the
      end of the stream or fails, or a send fails. */
  predicate Closes(s: Conn, a: Action) {
    match a
    case RunTask => s.pc.Idle? && s.posts != [] && s.posts[0] == CloseTask
    case IoEvent(error, readable, _, recv) => s.pc.Idle? && s.tracked && (error || (readable && EndsStream(recv)))
    case Send(r) => s.pc.Sending? && r.SendFatal?
    case _ => false
  }

  predicate EverCloses(c: Conn, acts: seq<Action>) {
    acts != [] &&
    (EverCloses(c, acts[..|acts| - 1]) || Closes(Exec(c, acts[..|acts| - 1]), acts[|acts| - 1]))
  }

  /** What a step does to the read side, in full. */
  lemma InputStep(c: Conn, a: Action)
    requires Placed(c)
    ensures Step(c, a).inp ==
            if Receives(c, a) then Receiving(c.inp, a.recv.data)
            else if Closes(c, a) then Closing(c.inp) else c.inp
    ensures Closes(c, a) ==> Step(c, a).inp.closed && !Step(c, a).tracked
  {
    match a
    case RunTask => if c.pc.Idle? && c.posts != [] { RunStep(c); }
    case _ =>
  }

  lemma RunStep(c: Conn)
    requires Placed(c) && c.posts != []
    ensures RunPosted(c).inp == if c.posts[0] == CloseTask then Closing(c.inp) else c.inp
    ensures c.posts[0] == CloseTask ==> RunPosted(c).inp.closed && !RunPosted(c).tracked
  {
  }

  /** A connection is closed exactly if something has closed it. */
  lemma {:induction false} ClosedIff(limit: nat, d: bool, cl: bool, acts: seq<Action>)
    ensures Exec(Init(limit, d, cl), acts).inp.closed <==> EverCloses(Init(limit, d, cl), acts)
  {
    if acts != [] {
      ClosedIff(limit, d, cl, acts[..|acts| - 1]);
      ExecInv(Init(limit, d, cl), acts[..|acts| - 1]);
      InputStep(Exec(Init(limit, d, cl), acts[..|acts| - 1]), acts[|acts| - 1]);
    }
  }

  /** Whatever the loop thread is in the middle of, it gets out of: it makes its
      dispatcher call, or goes on with its drain until the socket would block. */
  const FinishCallback: seq<Action> := [ApplyInterest, TakeChunk, Send(SendWouldBlock)]

  function RunTasks(n: nat): seq<Action> {
    if n == 0 then [] else RunTasks(n - 1) + [RunTask, ApplyInterest]
  }

  lemma FinishApply(c: Conn)
    ensures var s := Step(c, ApplyInterest); !s.pc.Adding? && !s.pc.Modifying? && s.posts == c.posts
  {
  }

  lemma FinishSend(c: Conn)
    requires c.pc.Idle? || c.pc.Sending?
    ensures var s := Step(c, Send(SendWouldBlock)); s.pc.Idle? && s.posts == c.posts
  {
  }

  lemma FinishTake(c: Conn)
    requires Inv(c) && !c.pc.Adding? && !c.pc.Modifying?
    ensures var s := Step(c, TakeChunk); (s.pc.Idle? || s.pc.Sending?) && s.posts == c.posts
  {
    if c.pc.Draining? && c.out.queue != [] { PopFrontKeeps(c.out); }
  }

  lemma FinishDrain(c: Conn, c': Conn)
    requires Inv(c) && !c.pc.Adding? && !c.pc.Modifying? && c' == Step(c, TakeChunk)
    ensures var s := Step(c', Send(SendWouldBlock)); s.pc.Idle? && s.posts == c.posts
  {
    FinishTake(c);
    FinishSend(c');
  }

  lemma FinishThree(c: Conn, c1: Conn, c2: Conn)
    requires Inv(c) && c1 == Step(c, ApplyInterest) && c2 == Step(c1, TakeChunk)
    ensures var s := Step(c2, Send(SendWouldBlock)); s.pc.Idle? && s.posts == c.posts
  {
    FinishApply(c);
    StepInv(c, ApplyInterest);
    FinishDrain(c1, c2);
  }

  lemma FinishState(c: Conn)
    requires Inv(c)
    ensures var s := Exec(c, FinishCallback); Inv(s) && s.pc.Idle? && s.posts == c.posts
  {
    ExecInv(c, FinishCallback);
    ExecThree(c, ApplyInterest, TakeChunk, Send(SendWouldBlock));
    FinishThree(c, Step(c, ApplyInterest), Step(Step(c, ApplyInterest), TakeChunk));
  }

  /** What is known of the connection after a posted task and its dispatcher call. */
  ghost predicate TaskDone(c: Conn, s: Conn)
    requires c.posts != []
  {
    s.pc.Idle? && s.posts == c.posts[1..] && (c.posts[0] == CloseTask || c.inp.closed ==> s.inp.closed)
  }

  lemma ApplyDone(c: Conn, m: Conn)
    requires c.posts != [] && m.posts == c.posts[1..] && !m.pc.Draining? && !m.pc.Sending? && Placed(m)
    requires c.posts[0] == CloseTask || c.inp.closed ==> m.inp.closed
    ensures TaskDone(c, Step(m, ApplyInterest))
  {
  }

  lemma OneTask(c: Conn)
    requires Inv(c) && c.pc.Idle? && c.posts != []
    ensures TaskDone(c, Step(Step(c, RunTask), ApplyInterest))
  {
    InputStep(c, RunTask);
    TaskLeaves(c);
    StepInv(c, RunTask);
    ApplyDone(c, Step(c, RunTask));
  }

  lemma TaskLeaves(c: Conn)
    requires c.pc.Idle? && c.posts != []
    ensures var s := Step(c, RunTask); s.posts == c.posts[1..] && !s.pc.Draining? && !s.pc.Sending?
  {
  }

  lemma ExecPair(c: Conn, acts: seq<Action>, a: Action, b: Action)
    ensures Exec(c, acts + [a, b]) == Step(Step(Exec(c, acts), a), b)
  {
    assert (acts + [a, b])[..|acts| + 1] == acts + [a];
    assert (acts + [a])[..|acts|] == acts;
  }

  /** The state after the first `k` of the posted tasks. */
  ghost predicate TasksRan(c: Conn, k: nat, s: Conn) {
    k <= |c.posts| && s.pc.Idle? && s.posts == c.posts[k..] && (CloseTask in c.posts[..k] ==> s.inp.closed)
  }

  lemma RanOneMore(posts: seq<Task>, k: nat)
    requires k < |posts|
    ensures posts[k..][0] == posts[k] && posts[k..][1..] == posts[k + 1..]
    ensures CloseTask in posts[..k + 1] ==> CloseTask in posts[..k] || posts[k] == CloseTask
  {
    assert posts[..k + 1] == posts[..k] + [posts[k]];
  }

  lemma MoreTasks(c: Conn, k: nat, m: Conn)
    requires m == Exec(c, RunTasks(k))
    ensures Exec(c, RunTasks(k + 1)) == Step(Step(m, RunTask), ApplyInterest)
  {
    ExecPair(c, RunTasks(k), RunTask, ApplyInterest);
  }

  lemma TaskMore(c: Conn, k: nat, s: Conn) returns (e: Conn)
    requires Inv(s) && TasksRan(c, k, s) && k < |c.posts|
    ensures TasksRan(c, k + 1, e) && e == Step(Step(s, RunTask), ApplyInterest)
  {
    RanOneMore(c.posts, k);
    OneTask(s);
    e := Step(Step(s, RunTask), ApplyInterest);
  }

  lemma NextTask(c: Conn, k: nat, m: Conn) returns (s: Conn)
    requires Inv(c) && 0 < k <= |c.posts| && m == Exec(c, RunTasks(k - 1)) && TasksRan(c, k - 1, m)
    ensures s == Exec(c, RunTasks(k)) && TasksRan(c, k, s)
  {
    ExecInv(c, RunTasks(k - 1));
    MoreTasks(c, k - 1, m);
    s := TaskMore(c, k - 1, m);
  }

  lemma {:induction false} TasksRun(c: Conn, k: nat) returns (s: Conn)
    requires Inv(c) && c.pc.Idle? && k <= |c.posts|
    ensures s == Exec(c, RunTasks(k)) && TasksRan(c, k, s)
  {
    if k == 0 {
      s := c;
    } else {
      var m := TasksRun(c, k - 1);
      s := NextTask(c, k, m);
    }
  }

  /** A close that was asked for happens: from every reachable state with a close task
      posted, running the posted tasks in turn ends closed and untracked, with on_close
      as the last callback if there is one. */
  lemma CloseTaskCloses(limit: nat, d: bool, cl: bool, acts: seq<Action>)
    ensures var s := Exec(Init(limit, d, cl), acts);
            CloseTask in s.posts ==>
              var e := Exec(s, FinishCallback + RunTasks(|s.posts|));
              e.inp.closed && !e.tracked && (cl ==> e.inp.submitted != [] && e.inp.submitted[|e.inp.submitted| - 1] == OnClose)
  {
    var c := Init(limit, d, cl);
    var s := Exec(c, acts);
    if CloseTask in s.posts {
      ExecInv(c, acts);
      LimitFixed(c, acts);
      CloseRuns(s, |s.posts|);
    }
  }

  lemma CloseRuns(s: Conn, n: nat)
    requires Inv(s) && CloseTask in s.posts && n == |s.posts|
    ensures var e := Exec(s, FinishCallback + RunTasks(n));
            && e.inp.closed && !e.tracked
            && (s.inp.hasOnClose ==> e.inp.submitted != [] && e.inp.submitted[|e.inp.submitted| - 1] == OnClose)
  {
    FinishState(s);
    LimitFixed(s, FinishCallback);
    ExecConcat(s, FinishCallback, RunTasks(n));
    TasksClosed(Exec(s, FinishCallback), n);
  }

  lemma TasksClosed(c: Conn, n: nat)
    requires Inv(c) && c.pc.Idle? && CloseTask in c.posts && n == |c.posts|
    ensures var e := Exec(c, RunTasks(n));
            && e.inp.closed && !e.tracked
            && (c.inp.hasOnClose ==> e.inp.submitted != [] && e.inp.submitted[|e.inp.submitted| - 1] == OnClose)
  {
    var e := TasksRun(c, n);
    ExecInv(c, RunTasks(n));
    LimitFixed(c, RunTasks(n));
    AllRan(c, n, e);
    ClosedState(e);
  }

  lemma AllRan(c: Conn, n: nat, e: Conn)
    requires n == |c.posts| && TasksRan(c, n, e) && CloseTask in c.posts
    ensures e.inp.closed
  {
    assert c.posts[..n] == c.posts;
  }

  lemma ClosedState(e: Conn)
    requires Placed(e) && Ordered(e.inp) && e.inp.closed
    ensures !e.tracked && (e.inp.hasOnClose ==> e.inp.submitted != [] && e.inp.submitted[|e.inp.submitted| - 1] == OnClose)
  {
  }

  // ---- callbacks ---------------------------------------------------------------

  /** One data callback for each read that returned bytes. */
  function DataCallbacks(c: Conn, acts: seq<Action>): seq<Callback> {
    if acts == [] then []
    else
      var before, last := acts[..|acts| - 1], acts[|acts| - 1];
      DataCallbacks(c, before) + if Receives(Exec(c, before), last) then [OnData(last.recv.data)] else []
  }

  /** The callbacks submitted are exactly one for each read that returned bytes, with
      those bytes, and then on_close once the connection is closed. */
  lemma {:induction false} CallbacksExact(limit: nat, d: bool, cl: bool, acts: seq<Action>)
    ensures var c := Init(limit, d, cl);
            Exec(c, acts).inp.submitted ==
            (if d then DataCallbacks(c, acts) else []) + (if cl && EverCloses(c, acts) then [OnClose] else [])
  {
    var c := Init(limit, d, cl);
    if acts != [] {
      var before := acts[..|acts| - 1];
      CallbacksExact(limit, d, cl, before);
      ExecInv(c, before);
      LimitFixed(c, before);
      ClosedIff(limit, d, cl, before);
      InputStep(Exec(c, before), acts[|acts| - 1]);
      var data := DataCallbacks(c, before);
      assert data + [] == data;
    }
  }

  // ---- tracking and the interest mask ----------------------------------------------

  /** The start task's add reached the dispatcher while the connection was open. */
  predicate EverAdded(c: Conn, acts: seq<Action>) {
    acts != [] &&
    var s := Exec(c, acts[..|acts| - 1]);
    EverAdded(c, acts[..|acts| - 1]) || (acts[|acts| - 1].ApplyInterest? && s.pc.Adding? && !s.inp.closed)
  }

  lemma TrackedStep(c: Conn, a: Action)
    requires Placed(c)
    ensures Step(c, a).tracked ==
            ((c.tracked && !Closes(c, a)) || (a.ApplyInterest? && c.pc.Adding? && !c.inp.closed))
  {
  }

  /** The dispatcher has the socket from that moment until the close. */
  lemma {:induction false} TrackedIff(limit: nat, d: bool, cl: bool, acts: seq<Action>)
    ensures var c := Init(limit, d, cl);
            Exec(c, acts).tracked <==> EverAdded(c, acts) && !EverCloses(c, acts)
  {
    if acts != [] {
      var c, before := Init(limit, d, cl), acts[..|acts| - 1];
      TrackedIff(limit, d, cl, before);
      ExecInv(c, before);
      ClosedIff(limit, d, cl, before);
      TrackedStep(Exec(c, before), acts[|acts| - 1]);
    }
  }

  /** Who calls the dispatcher for a new mask, and what was queued or flagged when the
      mask was chosen. */
  datatype Call = NoCall | ByStart(queued: bool) | ByRegister | ByPause(flagged: bool) | ByResume(flagged: bool) | ByDrain

  function MaskOf(k: Call): Interest {
    Interest(!k.ByPause?,
             match k
             case ByStart(queued) => queued
             case ByPause(flagged) => flagged
             case ByResume(flagged) => flagged
             case ByRegister => true
             case _ => false)
  }

  /** The choice a start, pause or resume task makes under the lock. */
  function ChoiceOf(s: Conn, t: Task): Call {
    match t
    case StartTask => ByStart(s.out.queue != [])
    case PauseTask => if s.inp.closed then NoCall else ByPause(s.registered)
    case ResumeTask => if s.inp.closed then NoCall else ByResume(s.registered)
    case _ => NoCall
  }

  /** The choice the loop thread has made and not yet told the dispatcher. */
  function Chosen(c: Conn, acts: seq<Action>): Call {
    if acts == [] then NoCall
    else ChoiceAfter(Exec(c, acts[..|acts| - 1]), acts[|acts| - 1], Chosen(c, acts[..|acts| - 1]))
  }

  function ChoiceAfter(s: Conn, a: Action, k: Call): Call {
    if a.RunTask? && s.pc.Idle? && s.posts != [] then ChoiceOf(s, s.posts[0])
    else if a.ApplyInterest? then NoCall
    else k
  }

  /** The last call that the dispatcher took for this socket. */
  function LastCall(c: Conn, acts: seq<Action>): Call {
    if acts == [] then NoCall
    else
      var before := acts[..|acts| - 1];
      CallAfter(Exec(c, before), acts[|acts| - 1], Chosen(c, before), LastCall(c, before))
  }

  /** A start's add is taken while the connection is open, a mask only if it is tracked. */
  function CallAfter(s: Conn, a: Action, k: Call, m: Call): Call {
    if a.ApplyInterest? && !s.inp.closed && (k.ByStart? || (k != NoCall && s.tracked)) then k
    else if a.RunTask? && s.pc.Idle? && s.tracked && s.posts != [] && s.posts[0] == RegisterTask then ByRegister
    else if a.TakeChunk? && s.pc.Draining? && s.out.queue == [] then ByDrain
    else m
  }

  predicate InHand(pc: LoopPc, k: Call) {
    && (pc.Adding? <==> k.ByStart?) && (pc.Modifying? <==> k.ByPause? || k.ByResume?)
    && (pc.Adding? || pc.Modifying? ==> pc.interest == MaskOf(k)) && (!pc.Adding? && !pc.Modifying? ==> k == NoCall)
  }

  lemma ChoiceStep(c: Conn, a: Action, k: Call)
    requires InHand(c.pc, k)
    ensures InHand(Step(c, a).pc, ChoiceAfter(c, a, k))
  {
    match a
    case RunTask => if c.pc.Idle? && c.posts != [] { TaskChooses(c); }
    case _ =>
  }

  lemma TaskChooses(c: Conn)
    requires c.pc.Idle? && c.posts != []
    ensures InHand(RunPosted(c).pc, ChoiceOf(c, c.posts[0]))
  {
  }

  /** The mask is the one `m` asked for. */
  predicate HasMask(c: Conn, m: Call) {
    c.tracked ==> c.interest == MaskOf(m)
  }

  lemma MaskStep(c: Conn, a: Action, k: Call, m: Call)
    requires Placed(c) && InHand(c.pc, k) && HasMask(c, m) && (c.pc.Draining? ==> c.tracked)
    ensures HasMask(Step(c, a), CallAfter(c, a, k, m))
  {
    match a
    case RunTask => if c.pc.Idle? && c.posts != [] { TaskMask(c, k, m); }
    case ApplyInterest =>
    case TakeChunk =>
    case _ => MaskFrame(c, a, m);
  }

  lemma TaskMask(c: Conn, k: Call, m: Call)
    requires Placed(c) && c.pc.Idle? && c.posts != [] && HasMask(c, m)
    ensures HasMask(RunPosted(c), CallAfter(c, RunTask, k, m))
  {
  }

  lemma MaskFrame(c: Conn, a: Action, m: Call)
    requires HasMask(c, m) && !a.RunTask? && !a.ApplyInterest? && !a.TakeChunk?
    ensures HasMask(Step(c, a), m)
  {
  }

  /** The dispatcher's mask is what the last of the connection's calls asked for: a
      drain that emptied the queue leaves reading only, a register task asks for both,
      a start asks for writing if something was queued, and pause and resume keep
      writing if the flag was set. */
  lemma {:induction false} LastCallDecides(limit: nat, d: bool, cl: bool, acts: seq<Action>)
    ensures var c := Init(limit, d, cl);
            InHand(Exec(c, acts).pc, Chosen(c, acts)) && HasMask(Exec(c, acts), LastCall(c, acts))
  {
    if acts != [] {
      var c, before := Init(limit, d, cl), acts[..|acts| - 1];
      LastCallDecides(limit, d, cl, before);
      ExecInv(c, before);
      CallStep(Exec(c, before), acts[|acts| - 1], Chosen(c, before), LastCall(c, before));
    }
  }

  lemma CallStep(c: Conn, a: Action, k: Call, m: Call)
    requires Inv(c) && InHand(c.pc, k) && HasMask(c, m)
    ensures InHand(Step(c, a).pc, ChoiceAfter(c, a, k)) && HasMask(Step(c, a), CallAfter(c, a, k, m))
  {
    ChoiceStep(c, a, k);
    MaskStep(c, a, k, m);
  }

  // ---- pause ---------------------------------------------------------------------

  /** The last of the pause and resume calls was a pause. */
  predicate PausedLast(acts: seq<Action>) {
    acts != [] &&
    (acts[|acts| - 1].PauseFromUser? || (!acts[|acts| - 1].ResumeFromUser? && PausedLast(acts[..|acts| - 1])))
  }

  lemma PausedStep(c: Conn, a: Action)
    ensures Step(c, a).paused == (a.PauseFromUser? || (!a.ResumeFromUser? && c.paused))
  {
  }

  lemma {:induction false} PausedIff(limit: nat, d: bool, cl: bool, acts: seq<Action>)
    ensures Exec(Init(limit, d, cl), acts).paused <==> PausedLast(acts)
  {
    if acts != [] {
      PausedIff(limit, d, cl, acts[..|acts| - 1]);
      PausedStep(Exec(Init(limit, d, cl), acts[..|acts| - 1]), acts[|acts| - 1]);
    }
  }

  /** Is a paused connection not read? Only while the pause task's call is the last one. */
  lemma PauseHoldsIff(limit: nat, d: bool, cl: bool, acts: seq<Action>)
    ensures var c := Init(limit, d, cl);
            var s := Exec(c, acts);
            s.tracked ==> (!s.interest.read <==> LastCall(c, acts).ByPause?)
  {
    LastCallDecides(limit, d, cl, acts);
  }

  const Pausing: seq<Action> := [PauseFromUser, RunTask, ApplyInterest]

  /** A send after the pause has the connection read again. */
  lemma PauseUndone(limit: nat, d: bool, cl: bool, p: Bytes)
    requires 0 < |p| <= limit
    ensures var s := Exec(Init(limit, d, cl), StartUp + Pausing + [Enqueue(p), RunTask]);
            s.paused && s.tracked && s.posts == [] && s.interest.read
  {
    var c := Init(limit, d, cl);
    StartedState(c);
    var s := Exec(c, StartUp);
    PausedState(s);
    ExecConcat(c, StartUp, Pausing);
    var u := Exec(s, Pausing);
    ExecConcat(c, StartUp + Pausing, [Enqueue(p), RunTask]);
    ExecFirst(u, Enqueue(p), [RunTask]);
    ExecOne(Step(u, Enqueue(p)), RunTask);
    assert [Enqueue(p), RunTask] == [Enqueue(p)] + [RunTask];
  }

  lemma StartedState(c: Conn)
    requires !c.startPosted && !c.inp.closed && c.posts == [] && c.pc.Idle? && !c.registered
    ensures var s := Exec(c, StartUp);
            s.tracked && s.pc.Idle? && s.posts == [] && !s.registered && s.out == c.out && s.inp == c.inp
  {
    StartUpState(c);
    ExecThree(c, StartReading, RunTask, ApplyInterest);
    assert Step(c, StartReading).posts == [StartTask];
  }

  lemma PausedState(c: Conn)
    requires c.tracked && c.pc.Idle? && c.posts == [] && !c.registered && !c.inp.closed
    ensures var s := Exec(c, Pausing);
            s.tracked && s.pc.Idle? && s.posts == [] && !s.registered && s.paused && s.out == c.out && s.inp == c.inp
  {
    ExecThree(c, PauseFromUser, RunTask, ApplyInterest);
    assert Step(c, PauseFromUser).posts == [PauseTask];
  }

  // ---- events and tasks --------------------------------------------------------------

  /** A drain begins exactly with a writable event on the tracked socket that reports
      no error and whose read, if there is one, returned bytes. */
  lemma DrainBeginsIff(limit: nat, d: bool, cl: bool, acts: seq<Action>, a: Action)
    ensures var s := Exec(Init(limit, d, cl), acts);
            s.pc.Idle? ==> (Step(s, a).pc.Draining? <==> s.tracked && AsksForDrain(a))
  {
    ExecInv(Init(limit, d, cl), acts);
    if Exec(Init(limit, d, cl), acts).pc.Idle? { DrainBegins(Exec(Init(limit, d, cl), acts), a); }
  }

  predicate AsksForDrain(a: Action) {
    a.IoEvent? && !a.error && a.writable && (a.readable ==> a.recv.RecvData? && a.recv.data != [])
  }

  lemma DrainBegins(s: Conn, a: Action)
    requires s.pc.Idle? && (s.tracked ==> !s.inp.closed)
    ensures Step(s, a).pc.Draining? <==> s.tracked && AsksForDrain(a)
  {
    match a
    case RunTask => if s.posts != [] { TaskLeaves(s); }
    case IoEvent(_, _, _, _) =>
    case _ => PcFrame(s, a);
  }

  /** In an idle loop thread nothing else moves it. */
  lemma PcFrame(s: Conn, a: Action)
    requires s.pc.Idle? && !a.RunTask? && !a.IoEvent?
    ensures Step(s, a).pc == s.pc
  {
  }

  predicate InDrain(pc: LoopPc) {
    pc.Draining? || pc.Sending?
  }

  /** A drain that has begun goes on, whatever others do, until it finds the queue empty,
      the socket would block or a send fails; a partial send does not end it. */
  lemma DrainEndsIff(limit: nat, d: bool, cl: bool, acts: seq<Action>, a: Action)
    ensures var s := Exec(Init(limit, d, cl), acts);
            InDrain(s.pc) ==>
              && (Step(s, a).pc.Idle? <==> EndsDrain(s, a))
              && (!Step(s, a).pc.Idle? ==> InDrain(Step(s, a).pc))
  {
    var s := Exec(Init(limit, d, cl), acts);
    ExecInv(Init(limit, d, cl), acts);
    if s.pc.Draining? && s.out.queue != [] { PopFrontKeeps(s.out); }
    if InDrain(s.pc) { DrainEnds(s, a); }
  }

  predicate EndsDrain(s: Conn, a: Action) {
    (a.TakeChunk? && s.pc.Draining? && s.out.queue == []) || (a.Send? && s.pc.Sending? && !a.result.SendOk?)
  }

  lemma DrainEnds(s: Conn, a: Action)
    requires InDrain(s.pc) && (s.pc.Draining? && s.out.queue != [] ==> |s.out.queue[0]| <= s.out.queueBytes)
    ensures (Step(s, a).pc.Idle? <==> EndsDrain(s, a)) && (!Step(s, a).pc.Idle? ==> InDrain(Step(s, a).pc))
  {
    match a
    case TakeChunk =>
    case Send(_) =>
    case _ => DrainFrame(s, a);
  }

  lemma DrainFrame(s: Conn, a: Action)
    requires InDrain(s.pc) && !a.TakeChunk? && !a.Send?
    ensures Step(s, a).pc == s.pc
  {
  }

  /** The tasks that the calls in a run post: start once, register for a send that finds
      the flag clear, and close, pause and resume each time. */
  function PostedBy(c: Conn, acts: seq<Action>): seq<Task> {
    if acts == [] then []
    else
      var before, last := acts[..|acts| - 1], acts[|acts| - 1];
      PostedBy(c, before) + NewTask(c, before, last)
  }

  function NewTask(c: Conn, before: seq<Action>, last: Action): seq<Task> {
    match last
    case StartReading => if StartReading in before then [] else [StartTask]
    case Enqueue(p) =>
      if Fits(Exec(c, before), c.out.limit, p) && !SentSinceDrain(c, before) then [RegisterTask] else []
    case CloseFromUser => [CloseTask]
    case PauseFromUser => [PauseTask]
    case ResumeFromUser => [ResumeTask]
    case _ => []
  }

  /** The tasks that the loop thread has run. */
  function RunBy(c: Conn, acts: seq<Action>): seq<Task> {
    if acts == [] then []
    else
      var s := Exec(c, acts[..|acts| - 1]);
      RunBy(c, acts[..|acts| - 1]) +
      if acts[|acts| - 1].RunTask? && s.pc.Idle? && s.posts != [] then [s.posts[0]] else []
  }

  lemma PostStep(c: Conn, a: Action)
    requires Conserved(c.out)
    ensures var more := match a
                        case StartReading => if c.startPosted then [] else [StartTask]
                        case Enqueue(p) => if Fits(c, c.out.limit, p) && !c.registered then [RegisterTask] else []
                        case CloseFromUser => [CloseTask]
                        case PauseFromUser => [PauseTask]
                        case ResumeFromUser => [ResumeTask]
                        case _ => [];
            Step(c, a).posts == if a.RunTask? && c.pc.Idle? && c.posts != [] then c.posts[1..] else c.posts + more
    ensures Step(c, a).startPosted == (c.startPosted || a.StartReading?)
  {
    match a
    case RunTask => if c.pc.Idle? && c.posts != [] { TaskLeaves(c); }
    case _ =>
  }

  lemma {:induction false} StartedIff(c: Conn, acts: seq<Action>)
    requires !c.startPosted && Inv(c)
    ensures Exec(c, acts).startPosted <==> StartReading in acts
  {
    if acts != [] {
      var before := acts[..|acts| - 1];
      StartedIff(c, before);
      ExecInv(c, before);
      PostStep(Exec(c, before), acts[|acts| - 1]);
      InLast(acts);
    }
  }

  lemma InLast(acts: seq<Action>)
    requires acts != []
    ensures StartReading in acts <==> StartReading in acts[..|acts| - 1] || acts[|acts| - 1] == StartReading
  {
    assert acts == acts[..|acts| - 1] + [acts[|acts| - 1]];
  }

  lemma Requeue(posted: seq<Task>, ran: seq<Task>, posts: seq<Task>, more: seq<Task>)
    requires posted == ran + posts
    ensures posted + more == ran + (posts + more)
    ensures posts != [] ==> posted == ran + [posts[0]] + posts[1..]
  {
  }

  /** Tasks run in the order in which they were posted, each once. */
  lemma {:induction false} TasksInOrder(limit: nat, d: bool, cl: bool, acts: seq<Action>)
    ensures var c := Init(limit, d, cl);
            PostedBy(c, acts) == RunBy(c, acts) + Exec(c, acts).posts
  {
    if acts != [] {
      var c, before, last := Init(limit, d, cl), acts[..|acts| - 1], acts[|acts| - 1];
      var s := Exec(c, before);
      TasksInOrder(limit, d, cl, before);
      PostedNext(limit, d, cl, before, last);
      var more := NewTask(c, before, last);
      Requeue(PostedBy(c, before), RunBy(c, before), s.posts, more);
      assert PostedBy(c, before) + [] == PostedBy(c, before) && RunBy(c, before) + [] == RunBy(c, before);
    }
  }

  lemma PostedNext(limit: nat, d: bool, cl: bool, before: seq<Action>, last: Action)
    ensures var c := Init(limit, d, cl);
            var s := Exec(c, before);
            if last.RunTask? && s.pc.Idle? && s.posts != []
            then Step(s, last).posts == s.posts[1..] && NewTask(c, before, last) == []
            else Step(s, last).posts == s.posts + NewTask(c, before, last)
  {
    var c := Init(limit, d, cl);
    ExecInv(c, before);
    LimitFixed(c, before);
    StartedIff(c, before);
    RegisteredIff(limit, d, cl, before);
    PostStep(Exec(c, before), last);
  }
}
