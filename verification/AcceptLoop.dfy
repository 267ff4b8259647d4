/** The accept loop's back-off. When accepting runs out of descriptors the listener
is no longer watched, and a one-shot timer is to watch it again after a delay that
doubles from 100 ms up to 5 s and starts over after a success. The timer may not
come into being; its identifier is not looked at.

The kernel's answers are a script; a script that ends stands for would-block.
*/
module AcceptLoop {

  datatype Outcome = Accepted(socket: nat) | WouldBlock | FdLimit | Failed(code: int)

  datatype Interest = Watched | Unwatched

  // ---- what the history of answers says ------------------------------------------

  /** Descriptor-limit errors since the last success. */
  function Streak(log: seq<Outcome>): nat {
    if log == [] then 0
    else
      var before := Streak(log[..|log| - 1]);
      match log[|log| - 1]
      case Accepted(_) => 0
      case FdLimit => before + 1
      case _ => before
  }

  function Pow2(k: nat): (p: nat)
    ensures p > 0
  {
    if k == 0 then 1 else 2 * Pow2(k - 1)
  }

  function Delay(streak: nat): (d: nat)
    ensures 100 <= d <= 5000
  {
    if 100 * Pow2(streak) <= 5000 then 100 * Pow2(streak) else 5000
  }

  /** The delay before each re-arming, in order. */
  function Delays(log: seq<Outcome>): seq<nat> {
    if log == [] then []
    else
      var before := log[..|log| - 1];
      if log[|log| - 1].FdLimit? then Delays(before) + [Delay(Streak(before))] else Delays(before)
  }

  /** What the user's handler is told: everything but would-block. */
  function Told(log: seq<Outcome>): seq<Outcome> {
    if log == [] then []
    else
      var before := Told(log[..|log| - 1]);
      if log[|log| - 1].WouldBlock? then before else before + [log[|log| - 1]]
  }

  /** The answers one event consumes: up to the first that is not a connection. */
  function Taken(script: seq<Outcome>): (t: seq<Outcome>)
    ensures t != []
  {
    if script == [] then [WouldBlock]
    else if script[0].Accepted? then [script[0]] + Taken(script[1..])
    else [script[0]]
  }

  function Limits(s: seq<Outcome>): nat {
    if s == [] then 0 else Limits(s[..|s| - 1]) + if s[|s| - 1].FdLimit? then 1 else 0
  }

  lemma LogGrows(log: seq<Outcome>, r: Outcome)
    ensures Streak(log + [r]) == if r.Accepted? then 0 else if r.FdLimit? then Streak(log) + 1 else Streak(log)
    ensures Told(log + [r]) == if r.WouldBlock? then Told(log) else Told(log) + [r]
    ensures Delays(log + [r]) == if r.FdLimit? then Delays(log) + [Delay(Streak(log))] else Delays(log)
  {
    assert (log + [r])[..|log + [r]| - 1] == log;
  }

  /** The streak counts the descriptor-limit errors after the last connection, and
      other answers between them do not matter. */
  lemma {:induction false} StreakSinceSuccess(before: seq<Outcome>, socket: nat, after: seq<Outcome>)
    requires forall i :: 0 <= i < |after| ==> !after[i].Accepted?
    ensures Streak(before + [Accepted(socket)] + after) == Limits(after)
    decreases |after|
  {
    var log := before + [Accepted(socket)] + after;
    if after == [] {
      assert log == before + [Accepted(socket)];
    } else {
      var rest := after[..|after| - 1];
      StreakSinceSuccess(before, socket, rest);
      assert log[..|log| - 1] == before + [Accepted(socket)] + rest;
    }
  }

  lemma {:induction false} Pow2Grows(j: nat, k: nat)
    requires j <= k
    ensures Pow2(j) <= Pow2(k)
    decreases k
  {
    if j < k { Pow2Grows(j, k - 1); }
  }

  /** The delay never shrinks with the streak, and is at its cap from the seventh
      error in a row on. */
  lemma DelayGrowsToCap(j: nat, k: nat)
    requires j <= k
    ensures Delay(j) <= Delay(k)
    ensures Delay(k) == 5000 <==> k >= 6
    ensures Delay(0) == 100 && Delay(k + 1) == if 2 * Delay(k) < 5000 then 2 * Delay(k) else 5000
  {
    Pow2Grows(j, k);
    assert Pow2(5) == 32 && Pow2(6) == 64 by {
      assert Pow2(1) == 2 && Pow2(2) == 4 && Pow2(3) == 8 && Pow2(4) == 16;
    }
    if k >= 6 { Pow2Grows(6, k); } else { Pow2Grows(k, 5); }
  }

  // ---- events and timers as runs ---------------------------------------------------

  /** `timers` holds the delays of the re-arming timers that have not fired; `told`
      what the handler was told; `log` and `delays` every answer of accept and every
      delay asked for. */
  datatype Listener = Listener(
    backoff: int, interest: Interest, timers: seq<int>, told: seq<Outcome>, log: seq<Outcome>, delays: seq<int>)

  datatype Action =
    | Event(readable: bool, script: seq<Outcome>, created: bool)
    | TimerFires

  function Init(): Listener {
    Listener(100, Watched, [], [], [], [])
  }

  /** An answer that does not back off. */
  function Take(l: Listener, r: Outcome): Listener {
    l.(backoff := if r.Accepted? then 100 else l.backoff,
       told := if r.WouldBlock? then l.told else l.told + [r], log := l.log + [r])
  }

  /** The descriptor limit: stop watching, ask for a timer, tell the handler. */
  function BackOff(l: Listener, created: bool): Listener {
    l.(backoff := if l.backoff * 2 < 5000 then l.backoff * 2 else 5000, interest := Unwatched,
       timers := if created then l.timers + [l.backoff] else l.timers,
       told := l.told + [FdLimit], log := l.log + [FdLimit], delays := l.delays + [l.backoff])
  }

  /** The accept loop over the answers. */
  function Accept(l: Listener, script: seq<Outcome>, created: bool): Listener
    decreases |script|
  {
    if script == [] then Take(l, WouldBlock)
    else if script[0].FdLimit? then BackOff(l, created)
    else if script[0].Accepted? then Accept(Take(l, script[0]), script[1..], created)
    else Take(l, script[0])
  }

  /** Readable events come only while the listener is watched. */
  function Step(l: Listener, a: Action): Listener {
    match a
    case Event(readable, script, created) =>
      if readable && l.interest.Watched? then Accept(l, script, created) else l
    case TimerFires =>
      if l.timers == [] then l else l.(timers := l.timers[1..], interest := Watched)
  }

  function Exec(l: Listener, acts: seq<Action>): Listener {
    if acts == [] then l else Step(Exec(l, acts[..|acts| - 1]), acts[|acts| - 1])
  }

  /** The state is what the history says, and at most one timer is outstanding, never
      one while the listener is watched. */
  predicate Inv(l: Listener) {
    && l.backoff == Delay(Streak(l.log)) && l.told == Told(l.log) && l.delays == Delays(l.log)
    && |l.timers| <= 1 && (l.interest.Watched? ==> l.timers == [])
  }

  lemma TakeKeeps(l: Listener, r: Outcome)
    requires Inv(l) && !r.FdLimit?
    ensures Inv(Take(l, r))
  {
    LogGrows(l.log, r);
  }

  lemma NextDelay(k: nat)
    ensures Delay(k + 1) == if Delay(k) * 2 < 5000 then Delay(k) * 2 else 5000
  {
  }

  lemma BackOffKeeps(l: Listener, created: bool)
    requires Inv(l) && l.interest.Watched?
    ensures Inv(BackOff(l, created))
  {
    LogGrows(l.log, FdLimit);
    NextDelay(Streak(l.log));
  }

  /** What one readable event does: it takes answers up to the first that is not a
      connection, and afterwards the listener is unwatched exactly if that was the
      descriptor limit, with a timer exactly if one was created. */
  ghost predicate Handled(l: Listener, m: Listener, taken: seq<Outcome>, created: bool) {
    && taken != [] && m.log == l.log + taken
    && (m.interest.Unwatched? <==> taken[|taken| - 1].FdLimit?)
    && (m.interest.Unwatched? ==> |m.timers| == if created then 1 else 0)
  }

  lemma Regroup(log: seq<Outcome>, r: Outcome, taken: seq<Outcome>)
    requires taken != []
    ensures log + [r] + taken == log + ([r] + taken) && ([r] + taken)[|[r] + taken| - 1] == taken[|taken| - 1]
  {
  }

  lemma {:induction false} AcceptEffect(l: Listener, script: seq<Outcome>, created: bool)
    requires l.interest.Watched? && l.timers == []
    ensures Handled(l, Accept(l, script, created), Taken(script), created)
    decreases |script|
  {
    if script != [] && script[0].Accepted? {
      AcceptEffect(Take(l, script[0]), script[1..], created);
      Regroup(l.log, script[0], Taken(script[1..]));
    }
  }

  lemma {:induction false} AcceptInv(l: Listener, script: seq<Outcome>, created: bool)
    requires Inv(l) && l.interest.Watched?
    ensures Inv(Accept(l, script, created))
    decreases |script|
  {
    if script == [] {
      TakeKeeps(l, WouldBlock);
    } else if script[0].FdLimit? {
      BackOffKeeps(l, created);
    } else {
      TakeKeeps(l, script[0]);
      if script[0].Accepted? { AcceptInv(Take(l, script[0]), script[1..], created); }
    }
  }

  lemma StepInv(l: Listener, a: Action)
    requires Inv(l)
    ensures Inv(Step(l, a))
  {
    if a.Event? && a.readable && l.interest.Watched? { AcceptInv(l, a.script, a.created); }
  }

  lemma {:induction false} ExecInv(l: Listener, acts: seq<Action>)
    requires Inv(l)
    ensures Inv(Exec(l, acts))
  {
    if acts != [] {
      ExecInv(l, acts[..|acts| - 1]);
      StepInv(Exec(l, acts[..|acts| - 1]), acts[|acts| - 1]);
    }
  }

  /** In every run the handler calls and the delays are those the answers determine,
      at most one timer is outstanding, and none while the listener is watched. */
  lemma BackOffLaw(acts: seq<Action>)
    ensures var l := Exec(Init(), acts);
            && l.told == Told(l.log) && l.delays == Delays(l.log) && l.backoff == Delay(Streak(l.log))
            && |l.timers| <= 1 && (l.interest.Watched? ==> l.timers == [])
  {
    ExecInv(Init(), acts);
  }

  /** A timer that fires has the listener watched, is used up, and takes no answer. */
  lemma TimerWatches(acts: seq<Action>)
    ensures var l := Exec(Init(), acts);
            var m := Step(l, TimerFires);
            l.timers != [] ==> m.interest.Watched? && m.timers == [] && m.log == l.log && m.backoff == l.backoff
    ensures var l := Exec(Init(), acts); l.timers == [] ==> Step(l, TimerFires) == l
  {
    ExecInv(Init(), acts);
  }

  // ---- when the listener is lost ------------------------------------------------------

  /** Unwatched, and nothing is going to watch it. */
  predicate Stranded(l: Listener) {
    l.interest.Unwatched? && l.timers == []
  }

  /** A readable event that ends at the descriptor limit and does not get its timer. */
  predicate LosesTimer(l: Listener, a: Action) {
    a.Event? && a.readable && l.interest.Watched? && !a.created && Taken(a.script)[|Taken(a.script)| - 1].FdLimit?
  }

  lemma StrandsIff(l: Listener, a: Action)
    requires Inv(l) && !Stranded(l)
    ensures Stranded(Step(l, a)) <==> LosesTimer(l, a)
  {
    if a.Event? && a.readable && l.interest.Watched? { AcceptEffect(l, a.script, a.created); }
  }

  /** From then on nothing happens any more: no continuation watches the listener,
      takes an answer or calls the handler. */
  lemma {:induction false} StrandedForever(l: Listener, acts: seq<Action>)
    requires Stranded(l)
    ensures Exec(l, acts) == l
  {
    if acts != [] { StrandedForever(l, acts[..|acts| - 1]); }
  }

  predicate EverLoses(acts: seq<Action>) {
    acts != [] &&
    (EverLoses(acts[..|acts| - 1]) || LosesTimer(Exec(Init(), acts[..|acts| - 1]), acts[|acts| - 1]))
  }

  /** A run leaves the listener unwatched without a timer exactly if at some point a
      back-off did not get its timer; otherwise it is unwatched exactly while one
      timer is outstanding. */
  lemma {:induction false} StrandedIff(acts: seq<Action>)
    ensures Stranded(Exec(Init(), acts)) <==> EverLoses(acts)
    ensures !EverLoses(acts) ==>
              (Exec(Init(), acts).interest.Unwatched? <==> |Exec(Init(), acts).timers| == 1)
  {
    if acts != [] {
      var before := acts[..|acts| - 1];
      StrandedIff(before);
      ExecInv(Init(), before);
      ExecInv(Init(), acts);
      if Stranded(Exec(Init(), before)) {
        assert EverLoses(before);
      } else {
        StrandsIff(Exec(Init(), before), acts[|acts| - 1]);
      }
    }
  }

  /** It happens, whatever the listener is sent afterwards. */
  lemma ListenerLost(later: seq<Action>)
    ensures Stranded(Exec(Step(Init(), Event(true, [FdLimit], false)), later))
  {
    StrandedForever(Step(Init(), Event(true, [FdLimit], false)), later);
  }

  // ---- the loop ------------------------------------------------------------------

  class Acceptor {
    var backoff: int
    var interest: Interest
    var timers: seq<int>
    var told: seq<Outcome>
    ghost var model: Listener

    ghost predicate Valid()
      reads this
    {
      model.backoff == backoff && model.interest == interest && model.timers == timers && model.told == told
    }

    constructor ()
      ensures Valid() && model == Init()
    {
      backoff, interest, timers, told := 100, Watched, [], [];
      model := Init();
    }

    /** Stops watching and asks for a timer; the answer of defer is dropped. */
    method StopWatching(created: bool)
      requires Valid()
      modifies this
      ensures Valid() && model == BackOff(old(model), created)
    {
      interest := Unwatched;
      var delay := backoff;
      backoff := if backoff * 2 < 5000 then backoff * 2 else 5000;
      if created { timers := timers + [delay]; }
      told := told + [FdLimit];
      model := BackOff(model, created);
    }

    /** A connection, or an error that ends this round. */
    method Hand(r: Outcome)
      requires Valid() && !r.FdLimit?
      modifies `backoff, `told, `model
      ensures Valid() && model == Take(old(model), r)
    {
      if r.Accepted? { backoff := 100; }
      if !r.WouldBlock? { told := told + [r]; }
      model := Take(model, r);
    }

    /** The callback the dispatcher runs. */
    method OnEvent(readable: bool, script: seq<Outcome>, created: bool)
      requires Valid() && (readable ==> interest.Watched?)
      modifies this
      ensures Valid() && model == Step(old(model), Event(readable, script, created))
    {
      if !readable { return; }
      ghost var after := Accept(model, script, created);
      var i := 0;
      while true
        invariant 0 <= i <= |script| && Valid() && Accept(model, script[i..], created) == after
        decreases |script| - i
      {
        var r := if i < |script| then script[i] else WouldBlock;
        if r.FdLimit? {
          StopWatching(created);
          return;
        }
        Hand(r);
        if !r.Accepted? { return; }
        assert script[i..][1..] == script[i + 1..];
        i := i + 1;
      }
    }

    /** The deferred callback watches the listener again. */
    method WatchAgain()
      requires Valid() && timers != []
      modifies `timers, `interest, `model
      ensures Valid() && model == Step(old(model), TimerFires) && interest.Watched?
    {
      timers := timers[1..];
      interest := Watched;
      model := Step(model, TimerFires);
    }
  }
}
