/**
  * Runs that are interrupted and continued from the stored row. Limits are not stored, so every continuation may
  * bring new ones (litehive/lifecycle/launch_state.py, persistence.py).
  */
module RelaunchedRuns {
  import opened Common
  import opened Recovery
  import opened Events
  import opened TaskStates
  import opened Rules
  import opened Runner
  import opened Runs
  import opened RecoveryRuns
  import opened FailureRuns
  import opened LoopRuns
  import opened HookRuns
  import opened ReachableRuns

  /** One launch of a task: the limits it is given and the answers it gets. */
  datatype Leg = Leg(limits: Limits, events: seq<Event>)

  function Reloaded(s: TaskState, limits: Limits): TaskState {
    s.(limits := limits)
  }

  function Relaunched(s: TaskState, legs: seq<Leg>): Option<TaskState> {
    if legs == [] then Some(s)
    else match Relaunched(s, legs[..|legs| - 1])
      case None => None
      case Some(t) => Run(Reloaded(t, legs[|legs| - 1].limits), legs[|legs| - 1].events)
  }

  /** The journal goes on across launches. */
  function LegJournal(s: TaskState, legs: seq<Leg>): seq<Move>
    requires Relaunched(s, legs).Some?
  {
    if legs == [] then []
    else
      var n := |legs| - 1;
      LegJournal(s, legs[..n]) + Journal(Reloaded(Relaunched(s, legs[..n]).value, legs[n].limits), legs[n].events)
  }

  // ----- one leg, after what came before ------------------------------------------------

  lemma StreakKeptNext(past: seq<Move>, t: TaskState, e: Event, u: TaskState)
    requires StreakKept(t, id => Streak(past, id)) && t.stage != Failed && Honest(t, e) && Advance(t, e) == Some(u)
    ensures StreakKept(u, id => Streak(past + [Move(t.stage, e, u.stage)], id))
  {
    hide Advance, Honest, HookId, EndsStreak, RejectedBy, StreakInPlace;
    var count, m := id => Streak(past, id), Move(t.stage, e, u.stage);
    StreakKeptStep(t, e, u, count);
    var ms, after := past + [m], Counted(count, m);
    assert ms[..|past|] == past;
    assert forall id :: after(id) == Streak(ms, id);
  }

  lemma {:induction false} StreakFrom(past: seq<Move>, s: TaskState, events: seq<Event>)
    requires StreakKept(s, id => Streak(past, id)) && Run(s, events).Some?
    ensures StreakKept(Run(s, events).value, id => Streak(past + Journal(s, events), id))
  {
    hide Advance, Honest, HookId, Run, Journal, Streak, StreakKept;
    var ms := past + Journal(s, events);
    if events == [] {
      RunStarts(s);
      assert ms == past;
    } else {
      JournalGrows(s, events);
      var before := events[..|events| - 1];
      var t, e, u := Run(s, before).value, events[|events| - 1], Run(s, events).value;
      if IsTerminal(t.stage) {
        TerminalStatesRest(t, e);
      }
      StreakFrom(past, s, before);
      var sofar := past + Journal(s, before);
      assert ms == sofar + [Move(t.stage, e, u.stage)];
      StreakKeptNext(sofar, t, e, u);
    }
  }

  /** What is known of the stored loop from the journal, whatever the limits are. */
  ghost predicate LoopKept(t: TaskState, ms: seq<Move>) {
    if t.stage != Failed then t.failedReason == None && LoopCounted(t, Bounces(ms, Testing), Bounces(ms, Accepting))
    else
      && ms != []
      && var m, before := ms[|ms| - 1], ms[..|ms| - 1];
         FailedLoopCounted(t, m.from, Bounces(before, if RetryOf(m.from) == Testing then Testing else Accepting))
  }

  lemma BouncesGrow(past: seq<Move>, m: Move, stage: PipelineState)
    ensures Bounces(past + [m], stage) ==
      if EndsBounces(m, stage) then 0 else Bounces(past, stage) + if Bounce(m, stage) then 1 else 0
  {
    hide EndsBounces, Bounce;
    assert (past + [m])[..|past|] == past;
  }

  lemma LiveLoopKeptStep(past: seq<Move>, t: TaskState, e: Event, u: TaskState)
    requires LoopKept(t, past) && t.stage != Failed && Advance(t, e) == Some(u) && u.stage != Failed
    ensures LoopKept(u, past + [Move(t.stage, e, u.stage)])
  {
    hide Advance, LoopCounted, NamesTarget, Bounces, EndsBounces, Bounce;
    var m := Move(t.stage, e, u.stage);
    BouncesGrow(past, m, Testing);
    BouncesGrow(past, m, Accepting);
    ReasonStep(t, e, u);
    LoopCountedStep(t, e, u, Bounces(past, Testing), Bounces(past, Accepting));
  }

  lemma FailedLoopKeptStep(past: seq<Move>, t: TaskState, e: Event, u: TaskState)
    requires LoopKept(t, past) && t.stage != Failed && Advance(t, e) == Some(u) && u.stage == Failed
    ensures LoopKept(u, past + [Move(t.stage, e, u.stage)])
  {
    hide Advance, LoopCounted, FailedLoop, FailedLoopCounted, LoopBelowLimit, Bounces, RetryOf;
    var m := Move(t.stage, e, u.stage);
    var ms := past + [m];
    assert ms[..|ms| - 1] == past && ms[|ms| - 1] == m;
    FailedLoopStep(t, e, u, Bounces(past, Testing), Bounces(past, Accepting));
  }

  lemma {:induction false} LoopFrom(past: seq<Move>, s: TaskState, events: seq<Event>)
    requires LoopKept(s, past) && Run(s, events).Some?
    ensures LoopKept(Run(s, events).value, past + Journal(s, events))
  {
    hide Advance, Honest, LoopKept, Run, Journal;
    var ms := past + Journal(s, events);
    if events == [] {
      RunStarts(s);
      assert ms == past;
    } else {
      JournalGrows(s, events);
      var before := events[..|events| - 1];
      var t, e, u := Run(s, before).value, events[|events| - 1], Run(s, events).value;
      if IsTerminal(t.stage) {
        TerminalStatesRest(t, e);
      }
      LoopFrom(past, s, before);
      var sofar := past + Journal(s, before);
      assert ms == sofar + [Move(t.stage, e, u.stage)];
      if u.stage == Failed {
        FailedLoopKeptStep(sofar, t, e, u);
      } else {
        LiveLoopKeptStep(sofar, t, e, u);
      }
    }
  }

  lemma {:induction false} AccountsFrom(past: seq<Move>, s: TaskState, start: nat, events: seq<Event>)
    requires Accounted(s, start, Entered(past), Denied(past)) && Run(s, events).Some?
    ensures
      var ms := past + Journal(s, events);
      Accounted(Run(s, events).value, start, Entered(ms), Denied(ms))
  {
    hide Advance, Honest, CauseOf, RecoveryTrigger.BudgetKey, Accounted, Run, Journal;
    var ms := past + Journal(s, events);
    if events == [] {
      RunStarts(s);
      assert ms == past;
    } else {
      JournalGrows(s, events);
      var before := events[..|events| - 1];
      var t, e, u := Run(s, before).value, events[|events| - 1], Run(s, events).value;
      AccountsFrom(past, s, start, before);
      var sofar := past + Journal(s, before);
      assert ms == sofar + [Move(t.stage, e, u.stage)] && ms[..|ms| - 1] == sofar;
      AccountedStep(t, e, u, start, Entered(sofar), Denied(sofar));
    }
  }

  // ----- any number of launches ---------------------------------------------------------

  /**
    * However often a task is interrupted and continued, and whatever limits each launch brings: the stored streak
    * and the stored loop are what counting over the whole journal gives, and causes entered, concluded and denied
    * balance with no budget key entered twice.
    */
  lemma {:induction false} CountersSurviveNewLimits(s: TaskState, legs: seq<Leg>)
    requires Clean(s) && Relaunched(s, legs).Some?
    ensures
      var t, ms := Relaunched(s, legs).value, LegJournal(s, legs);
      && StreakKept(t, id => Streak(ms, id))
      && LoopKept(t, ms)
      && Accounted(t, |s.history|, Entered(ms), Denied(ms))
  {
    hide Run, Journal, StreakKept, LoopKept, Accounted;
    if legs == [] {
      NothingKept(s);
    } else {
      var n := |legs| - 1;
      CountersSurviveNewLimits(s, legs[..n]);
      var t, past, leg := Relaunched(s, legs[..n]).value, LegJournal(s, legs[..n]), legs[n];
      var u := Reloaded(t, leg.limits);
      ReloadKeeps(past, t, |s.history|, leg.limits);
      StreakFrom(past, u, leg.events);
      LoopFrom(past, u, leg.events);
      AccountsFrom(past, u, |s.history|, leg.events);
    }
  }

  lemma NothingKept(s: TaskState)
    requires Clean(s)
    ensures StreakKept(s, id => Streak([], id)) && LoopKept(s, [])
    ensures Accounted(s, |s.history|, Entered([]), Denied([]))
  {
    assert Triggers([]) == [];
  }

  lemma ReloadKeeps(past: seq<Move>, t: TaskState, start: nat, limits: Limits)
    requires StreakKept(t, id => Streak(past, id)) && LoopKept(t, past)
    requires Accounted(t, start, Entered(past), Denied(past))
    ensures
      var u := Reloaded(t, limits);
      && StreakKept(u, id => Streak(past, id)) && LoopKept(u, past)
      && Accounted(u, start, Entered(past), Denied(past))
  {
    hide HookId, Streak, Bounces, Entered, Denied, RecoveryTrigger.BudgetKey;
  }

  /** Only "below the limit" does not survive: a streak of one, continued with a limit of one. */
  lemma NewLimitsCanBeOverrun(s: TaskState) returns (events: seq<Event>, limits: Limits)
    requires Launched(s) && s.limits.sameHookReject >= 2 && s.limits.stageRetry >= 1
    ensures Answered(s, events) && StreakBelowLimit(Run(s, events).value)
    ensures
      var t := Relaunched(s, [Leg(s.limits, events), Leg(limits, [])]);
      t.Some? && t.value.stage != Failed && !StreakBelowLimit(t.value)
  {
    hide Advance, Honest, Answers, Run, Journal, Launched;
    var t := Climb(s, 1);
    events :| Answered(s, events) && Run(s, events) == Some(t);
    limits := s.limits.(sameHookReject := 1);
    TwoLegs(s, events, limits);
  }

  lemma TwoLegs(s: TaskState, events: seq<Event>, limits: Limits)
    requires Run(s, events).Some?
    ensures Relaunched(s, [Leg(s.limits, events), Leg(limits, [])]) == Some(Reloaded(Run(s, events).value, limits))
  {
    hide Advance, Honest;
    var one, two := [Leg(s.limits, events)], [Leg(s.limits, events), Leg(limits, [])];
    assert Reloaded(s, s.limits) == s;
    assert one[..0] == [] && two[..1] == one;
    assert Relaunched(s, one) == Run(s, events);
  }
}
