/** A connection whose callbacks go through its serial queue to the thread pool.

The connection owns queue `q`: only its engine submits there, and it submits
each callback in the step that produces it. Everything else about the pool, its
workers and the other queues runs freely.
*/
module EndToEnd {
  import C = ConnectionProtocol
  import CT = ConnectionTheorems
  import S = CallbackStack
  import SI = CallbackInvariant
  import ST = CallbackTheorems
  import SA = CallbackAdmission

  datatype System = System(conn: C.Conn, stack: S.Stack, q: nat)

  datatype Action = Engine(e: C.Action) | Runtime(r: S.Action)

  /** Runs an engine step and submits the callback it produced, if any. */
  function EngineStep(x: System, a: C.Action): System {
    var c := C.Step(x.conn, a);
    var n := |x.conn.inp.submitted|;
    x.(conn := c,
       stack := if |c.inp.submitted| > n
                then S.Step(x.stack, S.SubmitSerial(x.q, S.ForConnection(c.inp.submitted[n]))) else x.stack)
  }

  function Step(x: System, a: Action): System {
    match a
    case Engine(e) => EngineStep(x, e)
    case Runtime(r) => if r.SubmitSerial? && r.q == x.q then x else x.(stack := S.Step(x.stack, r))
  }

  function Exec(x: System, acts: seq<Action>): System {
    if acts == [] then x else Step(Exec(x, acts[..|acts| - 1]), acts[|acts| - 1])
  }

  function Init(limit: nat, onData: bool, onClose: bool, pool: nat, threads: nat, queues: nat, q: nat): System {
    System(C.Init(limit, onData, onClose), S.Init(pool, threads, queues), q)
  }

  /** The engine's part of a run. */
  function EngineActs(acts: seq<Action>): seq<C.Action> {
    if acts == [] then []
    else EngineActs(acts[..|acts| - 1]) + var last := acts[|acts| - 1]; if last.Engine? then [last.e] else []
  }

  function Wrap(cs: seq<C.Callback>): (ws: seq<S.Work>)
    ensures |ws| == |cs| && forall i :: 0 <= i < |cs| ==> ws[i] == S.ForConnection(cs[i])
  {
    seq(|cs|, i requires 0 <= i < |cs| => S.ForConnection(cs[i]))
  }

  /** The callbacks the user has been called with so far, or is being called with. */
  function Seen(x: System): seq<C.Callback>
    requires x.q < |x.stack.serials| && |x.stack.serials[x.q].started| <= |x.conn.inp.submitted|
  {
    x.conn.inp.submitted[..|x.stack.serials[x.q].started|]
  }

  /** The serial queue holds exactly what the engine submitted. */
  ghost predicate Coupled(x: System) {
    && C.Inv(x.conn) && S.Inv(x.stack) && x.q < |x.stack.serials|
    && x.stack.serials[x.q].submitted == Wrap(x.conn.inp.submitted)
  }

  /** A submit appends to its queue's submissions; no other step changes them. */
  lemma SubmissionsOf(s: S.Stack, a: S.Action, q: nat)
    requires q < |s.serials|
    ensures |S.Step(s, a).serials| == |s.serials|
    ensures S.Step(s, a).serials[q].submitted ==
            s.serials[q].submitted + if a.SubmitSerial? && a.q == q then [a.task] else []
  {
  }

  lemma SubmittedGrows(c: C.Conn, a: C.Action)
    ensures var old', new' := c.inp.submitted, C.Step(c, a).inp.submitted;
            new' == old' || (|new'| == |old'| + 1 && new'[..|old'|] == old')
  {
    C.InputEffect(c, a);
  }

  lemma WrapAppend(cs: seq<C.Callback>, ds: seq<C.Callback>)
    requires |ds| == |cs| + 1 && ds[..|cs|] == cs
    ensures Wrap(ds) == Wrap(cs) + [S.ForConnection(ds[|cs|])]
  {
  }

  lemma EngineCoupled(x: System, e: C.Action)
    requires Coupled(x)
    ensures Coupled(EngineStep(x, e))
  {
    C.StepInv(x.conn, e);
    SubmittedGrows(x.conn, e);
    var cs, ds := x.conn.inp.submitted, C.Step(x.conn, e).inp.submitted;
    if ds != cs {
      SubmitCoupled(x.stack, x.q, cs, ds);
    }
  }

  lemma SubmitCoupled(s: S.Stack, q: nat, cs: seq<C.Callback>, ds: seq<C.Callback>)
    requires S.Inv(s) && q < |s.serials| && s.serials[q].submitted == Wrap(cs)
    requires |ds| == |cs| + 1 && ds[..|cs|] == cs
    ensures var s' := S.Step(s, S.SubmitSerial(q, S.ForConnection(ds[|cs|])));
            S.Inv(s') && q < |s'.serials| && s'.serials[q].submitted == Wrap(ds)
  {
    var submit := S.SubmitSerial(q, S.ForConnection(ds[|cs|]));
    SI.StepInv(s, submit);
    SubmissionsOf(s, submit, q);
    WrapAppend(cs, ds);
  }

  lemma StepCoupled(x: System, a: Action)
    requires Coupled(x)
    ensures Coupled(Step(x, a))
  {
    match a
    case Engine(e) => EngineCoupled(x, e);
    case Runtime(r) =>
      SI.StepInv(x.stack, r);
      SubmissionsOf(x.stack, r, x.q);
  }

  lemma {:induction false} ExecCoupled(x: System, acts: seq<Action>)
    requires Coupled(x)
    ensures Coupled(Exec(x, acts)) && Exec(x, acts).q == x.q
  {
    if acts != [] {
      ExecCoupled(x, acts[..|acts| - 1]);
      StepCoupled(Exec(x, acts[..|acts| - 1]), acts[|acts| - 1]);
    }
  }

  lemma {:induction false} EngineRun(x: System, acts: seq<Action>)
    ensures Exec(x, acts).conn == C.Exec(x.conn, EngineActs(acts))
  {
    if acts != [] {
      var before, last := acts[..|acts| - 1], acts[|acts| - 1];
      EngineRun(x, before);
      if last.Engine? {
        assert EngineActs(acts)[..|EngineActs(acts)| - 1] == EngineActs(before);
      } else {
        assert EngineActs(acts) == EngineActs(before);
      }
    }
  }

  lemma {:induction false} DataOfPrefix(cs: seq<C.Callback>, n: nat)
    requires n <= |cs|
    ensures C.DataOf(cs[..n]) <= C.DataOf(cs)
  {
    if n < |cs| {
      var most := cs[..|cs| - 1];
      DataOfPrefix(most, n);
      assert most[..n] == cs[..n];
    } else {
      assert cs[..n] == cs;
    }
  }

  lemma InitCoupled(limit: nat, d: bool, cl: bool, pool: nat, threads: nat, queues: nat, q: nat)
    requires threads > 0 && q < queues
    ensures Coupled(Init(limit, d, cl, pool, threads, queues, q))
  {
    CT.InitInv(limit, d, cl);
    SI.InitInv(pool, threads, queues);
  }

  /** What the user has seen is an ordered prefix of `data`, the bytes received, then
      at most one on_close, which comes only if `cl`; if nothing waits, it is all. */
  ghost predicate SeesPrefix(x: System, data: C.Bytes, cl: bool) {
    && x.q < |x.stack.serials| && |x.stack.serials[x.q].started| <= |x.conn.inp.submitted|
    && x.stack.serials[x.q].started == Wrap(Seen(x))
    && (forall k :: 0 <= k < |Seen(x)| && Seen(x)[k].OnClose? ==> k == |Seen(x)| - 1)
    && C.DataOf(Seen(x)) <= data
    && (x.stack.serials[x.q].pending == [] ==>
          C.DataOf(Seen(x)) == data && (C.OnClose in Seen(x) <==> cl && x.conn.inp.closed))
  }

  /** The order of the callbacks the engine submitted. */
  ghost predicate Submitted(cs: seq<C.Callback>, data: C.Bytes, closes: bool) {
    && C.DataOf(cs) == data
    && (forall k :: 0 <= k < |cs| && cs[k].OnClose? ==> k == |cs| - 1)
    && (C.OnClose in cs <==> closes)
  }

  lemma CoupledSeesPrefix(x: System, data: C.Bytes, cl: bool)
    requires Coupled(x) && Submitted(x.conn.inp.submitted, data, cl && x.conn.inp.closed)
    ensures SeesPrefix(x, data, cl)
  {
    SeenIsPrefix(x);
    PrefixOrdered(x.conn.inp.submitted, |Seen(x)|);
  }

  lemma PrefixOrdered(cs: seq<C.Callback>, n: nat)
    requires n <= |cs| && forall k :: 0 <= k < |cs| && cs[k].OnClose? ==> k == |cs| - 1
    ensures forall k :: 0 <= k < n && cs[..n][k].OnClose? ==> k == n - 1
  {
  }

  lemma EngineSubmits(limit: nat, d: bool, cl: bool, acts: seq<C.Action>)
    ensures var c := C.Exec(C.Init(limit, d, cl), acts);
            Submitted(c.inp.submitted, if d then CT.ReceivedBytes(C.Init(limit, d, cl), acts) else [], cl && c.inp.closed)
  {
    CT.CallbackOrder(limit, d, cl, acts);
  }

  lemma RunCoupled(
    limit: nat, d: bool, cl: bool, pool: nat, threads: nat, queues: nat, q: nat, acts: seq<Action>)
    requires threads > 0 && q < queues
    ensures var x := Exec(Init(limit, d, cl, pool, threads, queues, q), acts);
            Coupled(x) && x.conn == C.Exec(C.Init(limit, d, cl), EngineActs(acts))
  {
    var x0 := Init(limit, d, cl, pool, threads, queues, q);
    InitCoupled(limit, d, cl, pool, threads, queues, q);
    ExecCoupled(x0, acts);
    EngineRun(x0, acts);
  }

  /** End-to-end callback order. In every run the user sees a prefix of the
      callbacks the engine produced: on_data buffers whose concatenation is a
      prefix of the received bytes, then at most one on_close, then nothing. If
      the pool refused no drain and nothing waits, that prefix is everything. */
  lemma UserSeesOrderedStream(
    limit: nat, d: bool, cl: bool, pool: nat, threads: nat, queues: nat, q: nat, acts: seq<Action>)
    requires threads > 0 && q < queues
    ensures SeesPrefix(Exec(Init(limit, d, cl, pool, threads, queues, q), acts),
                       if d then CT.ReceivedBytes(C.Init(limit, d, cl), EngineActs(acts)) else [], cl)
  {
    RunCoupled(limit, d, cl, pool, threads, queues, q, acts);
    EngineSubmits(limit, d, cl, EngineActs(acts));
    CoupledSeesPrefix(Exec(Init(limit, d, cl, pool, threads, queues, q), acts),
                      if d then CT.ReceivedBytes(C.Init(limit, d, cl), EngineActs(acts)) else [], cl);
  }

  lemma SeenIsPrefix(x: System)
    requires Coupled(x)
    ensures var sq, cs := x.stack.serials[x.q], x.conn.inp.submitted;
            && |sq.started| <= |cs| && sq.started == Wrap(Seen(x)) && Seen(x) <= cs
            && C.DataOf(Seen(x)) <= C.DataOf(cs)
            && (sq.pending == [] ==> Seen(x) == cs)
  {
    StartedPrefix(x.stack, x.q);
    WrapSplit(x.conn.inp.submitted, x.stack.serials[x.q].started, x.stack.serials[x.q].pending);
    DataOfPrefix(x.conn.inp.submitted, |x.stack.serials[x.q].started|);
  }

  lemma WrapSplit(cs: seq<C.Callback>, started: seq<S.Work>, pending: seq<S.Work>)
    requires Wrap(cs) == started + pending
    ensures |started| <= |cs| && started == Wrap(cs[..|started|])
    ensures pending == [] ==> cs[..|started|] == cs
  {
    assert |Wrap(cs)| == |cs|;
    assert forall i :: 0 <= i < |started| ==> started[i] == Wrap(cs)[i];
  }

  lemma StartedPrefix(s: S.Stack, q: nat)
    requires S.Inv(s) && q < |s.serials|
    ensures s.serials[q].submitted == s.serials[q].started + s.serials[q].pending
  {
    assert S.SerialOk(s.serials[q], S.Live(s, q));
  }

  /** Once the pool has shut down without refusing the connection's drains, the
      user has been called with every callback, each call has returned, and the
      data handed over is exactly the data received. */
  lemma NothingMissingAtShutdown(
    limit: nat, d: bool, cl: bool, pool: nat, threads: nat, queues: nat, q: nat, acts: seq<Action>)
    requires threads > 0 && q < queues
    ensures var x := Exec(Init(limit, d, cl, pool, threads, queues, q), acts);
            x.stack.pool.joined && x.q < |x.stack.serials| && !x.stack.serials[x.q].refused ==>
              && x.stack.serials[x.q].finished == Wrap(x.conn.inp.submitted)
              && C.DataOf(x.conn.inp.submitted) ==
                 (if d then CT.ReceivedBytes(C.Init(limit, d, cl), EngineActs(acts)) else [])
  {
    RunCoupled(limit, d, cl, pool, threads, queues, q, acts);
    EngineSubmits(limit, d, cl, EngineActs(acts));
    var x := Exec(Init(limit, d, cl, pool, threads, queues, q), acts);
    if x.stack.pool.joined { ST.JoinedState(x.stack); }
  }

  // ---- the runtime's part of a run ---------------------------------------------------------

  /** What an action is for the pool and the queues: its own, and a submit to the
      connection's queue when the engine produces a callback. */
  function StackPart(x: System, a: Action): seq<S.Action> {
    match a
    case Engine(e) =>
      var cs, n := C.Step(x.conn, e).inp.submitted, |x.conn.inp.submitted|;
      if |cs| > n then [S.SubmitSerial(x.q, S.ForConnection(cs[n]))] else []
    case Runtime(r) => if r.SubmitSerial? && r.q == x.q then [] else [r]
  }

  function StackActs(x: System, acts: seq<Action>): seq<S.Action> {
    if acts == [] then []
    else StackActs(x, acts[..|acts| - 1]) + StackPart(Exec(x, acts[..|acts| - 1]), acts[|acts| - 1])
  }

  lemma StackMore(s: S.Stack, acts: seq<S.Action>, more: seq<S.Action>)
    requires |more| <= 1
    ensures S.Exec(s, acts + more) == if more == [] then S.Exec(s, acts) else S.Step(S.Exec(s, acts), more[0])
  {
    if more == [] { assert acts + more == acts; } else { assert (acts + more)[..|acts|] == acts; }
  }

  /** The composed run is a run of the pool and its queues. */
  lemma {:induction false} StackRun(x: System, acts: seq<Action>)
    ensures Exec(x, acts).stack == S.Exec(x.stack, StackActs(x, acts))
    decreases |acts|
  {
    if acts != [] {
      var before := acts[..|acts| - 1];
      StackRun(x, before);
      StackStep(Exec(x, before), acts[|acts| - 1]);
      StackMore(x.stack, StackActs(x, before), StackPart(Exec(x, before), acts[|acts| - 1]));
    }
  }

  lemma StackStep(x: System, a: Action)
    ensures |StackPart(x, a)| <= 1
    ensures Step(x, a).stack == if StackPart(x, a) == [] then x.stack else S.Step(x.stack, StackPart(x, a)[0])
  {
  }

  /** With an unlimited pool, as connections use it, the user has been called with every
      callback at shutdown unless the engine produced one after it. */
  lemma UnlimitedMissesNothing(limit: nat, d: bool, cl: bool, threads: nat, queues: nat, q: nat, acts: seq<Action>)
    requires threads > 0 && q < queues
    ensures var x0 := Init(limit, d, cl, 0, threads, queues, q);
            var x := Exec(x0, acts);
            x.stack.pool.joined && q < |x.stack.serials| && NoneAfterStop(x0, acts) ==>
              x.stack.serials[q].finished == Wrap(x.conn.inp.submitted)
  {
    var x0 := Init(limit, d, cl, 0, threads, queues, q);
    RunCoupled(limit, d, cl, 0, threads, queues, q, acts);
    LimitStays(x0, acts);
    StackRun(x0, acts);
    if NoneAfterStop(x0, acts) { NoneTurned(x0, acts); }
    SA.RefusedIff(0, threads, queues, StackActs(x0, acts), q);
    if Exec(x0, acts).stack.pool.joined { ST.JoinedState(Exec(x0, acts).stack); }
  }

  /** The engine produces no callback once the pool is stopped. */
  predicate NoneAfterStop(x: System, acts: seq<Action>) {
    acts != [] ==>
      && NoneAfterStop(x, acts[..|acts| - 1])
      && var m, last := Exec(x, acts[..|acts| - 1]), acts[|acts| - 1];
         last.Engine? && m.stack.pool.stopped ==> |C.Step(m.conn, last.e).inp.submitted| <= |m.conn.inp.submitted|
  }

  lemma TurnedMore(s: S.Stack, acts: seq<S.Action>, more: seq<S.Action>, q: nat)
    requires |more| <= 1
    ensures SA.EverTurnedAway(s, acts + more, q) <==>
            SA.EverTurnedAway(s, acts, q) || (more != [] && SA.TurnsAway(S.Exec(s, acts), more[0], q))
  {
    if more == [] { assert acts + more == acts; } else { assert (acts + more)[..|acts|] == acts; }
  }

  lemma {:induction false} LimitStays(x: System, acts: seq<Action>)
    ensures Exec(x, acts).q == x.q && Exec(x, acts).stack.pool.limit == x.stack.pool.limit
    decreases |acts|
  {
    if acts != [] {
      LimitStays(x, acts[..|acts| - 1]);
      LimitKept(Exec(x, acts[..|acts| - 1]), acts[|acts| - 1]);
    }
  }

  lemma LimitKept(x: System, a: Action)
    ensures Step(x, a).q == x.q && Step(x, a).stack.pool.limit == x.stack.pool.limit
  {
    if StackPart(x, a) != [] { SA.AdmitStep(x.stack, StackPart(x, a)[0]); }
  }

  lemma {:induction false} NoneTurned(x: System, acts: seq<Action>)
    requires x.stack.pool.limit == 0 && NoneAfterStop(x, acts)
    ensures !SA.EverTurnedAway(x.stack, StackActs(x, acts), x.q)
    decreases |acts|
  {
    if acts != [] {
      var before := acts[..|acts| - 1];
      NoneTurned(x, before);
      StackRun(x, before);
      LimitStays(x, before);
      TurnedMore(x.stack, StackActs(x, before), StackPart(Exec(x, before), acts[|acts| - 1]), x.q);
    }
  }
}
