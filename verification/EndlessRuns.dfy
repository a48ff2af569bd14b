/** The conditions of AnsweredRunsAreBounded are needed: without either, the program's runs have no bound. */
module EndlessRuns {
  import opened Common
  import opened Recovery
  import opened Events
  import opened TaskStates
  import opened Deltas
  import opened Patches
  import opened Rules
  import opened Runner
  import opened Runs
  import opened RecoveryRuns
  import opened BoundedRuns

  const PLAIN_PASS: Event := Pass(None, None)

  /** Moves that need no agent stage: entry, pre-exec recovery, and a recovery report that resumes. */
  predicate Hops(s: TaskState, e: Event, next: PipelineState) {
    || (s.stage == Ready && e == CleanState && next == WorktreeSync)
    || (s.stage == WorktreeSync && e == PLAIN_PASS && s.entryStage == Some(next) && !InStages(next))
    || (s.stage == RecoveringPreExec && e == PreExecRecoverySucceeded(next) && s.entryStage == Some(next)
        && !InStages(next) && s.preExecAttempt <= 1)
    || (s.stage == Recovering && e.RecoverySucceeded? && e.resume.Some? && ReportableTarget(e.resume.value)
        && next == EntryOf(e.resume.value))
  }

  lemma HopAnswers(s: TaskState, e: Event, next: PipelineState)
    requires Hops(s, e, next)
    ensures Answers(s, e)
  {
    hide IsHookAnswer;
  }

  lemma HopRow(s: TaskState, e: Event, next: PipelineState, x: Facts)
    requires Hops(s, e, next) && (x.concrete <==> e.RecoverySucceeded? && e.resume.Some?)
    ensures Route(s.stage, KindOf(e), x).Some?
    ensures
      var row := Route(s.stage, KindOf(e), x).value;
      Resolve(row.target, s, e) == Some(next) && (row.effect == NoEffect || row.effect == RecordRecoverySuccess)
  {
    hide HookOkRow, RejectRow, BreakdownRow, RecoveryRow;
  }

  lemma HopAdvances(s: TaskState, e: Event, next: PipelineState)
    requires Hops(s, e, next)
    ensures Answers(s, e) && Advance(s, e).Some? && Advance(s, e).value.stage == next
    ensures Advance(s, e).value.entryStage == s.entryStage && Advance(s, e).value.preExecAttempt == s.preExecAttempt
  {
    hide Apply, Settled, FactsOf, Route, Answers, Resolve, RecoverySuccessDelta;
    HopAnswers(s, e, next);
    GuardFacts(s, e);
    HopRow(s, e, next, FactsOf(s, e));
    hide Hops, KindOf;
    var row := Route(s.stage, KindOf(e), FactsOf(s, e)).value;
    SuccessKeepsAttempt(s, e);
    var d := EffectDelta(row.effect, s, e);
    hide EffectDelta;
    SettledFields(s, d, s.stage, next, e);
    SettledAttempt(s, d, s.stage, next, e);
  }

  lemma SuccessKeepsAttempt(s: TaskState, e: Event)
    ensures !EffectDelta(RecordRecoverySuccess, s, e).incPreExec && !EffectDelta(NoEffect, s, e).incPreExec
  {
    hide HookRecoveryProgressed, HintName, HintDisposition, RetryCounterStage;
  }

  lemma Extend(s: TaskState, events: seq<Event>, e: Event, next: PipelineState)
    requires Answered(s, events) && Hops(Run(s, events).value, e, next)
    ensures
      var all := events + [e];
      && Answered(s, all) && Run(s, all).value.stage == next
      && Run(s, all).value.entryStage == Run(s, events).value.entryStage
      && Run(s, all).value.preExecAttempt == Run(s, events).value.preExecAttempt
      && Journal(s, all) == Journal(s, events) + [Move(Run(s, events).value.stage, e, next)]
      && Entered(Journal(s, all)) == Entered(Journal(s, events))
      && SelfResumes(Journal(s, all)) ==
         SelfResumes(Journal(s, events)) + if Run(s, events).value.stage == next == Recovering then 1 else 0
  {
    hide Advance, Honest, Answers, CauseOf, Run, Journal;
    var t := Run(s, events).value;
    HopAdvances(t, e, next);
    AnswerOneMore(s, events, e);
    var ms, m := Journal(s, events), Move(t.stage, e, next);
    assert (ms + [m])[..|ms|] == ms;
  }

  /** From a launch position that leads back to itself, the run can go round any number of times. */
  lemma {:induction false} RoundAndRound(s: TaskState, start: seq<Event>, entry: PipelineState, n: nat)
    returns (events: seq<Event>)
    requires !ForwardEntry(Some(entry))
    requires Answered(s, start) && Run(s, start).value.stage == entry && Run(s, start).value.preExecAttempt <= 1
    requires Run(s, start).value.entryStage == Some(entry)
    requires Entered(Journal(s, start)) == [] && SelfResumes(Journal(s, start)) == 0
    ensures |events| >= n && Answered(s, events)
    ensures Entered(Journal(s, events)) == [] && SelfResumes(Journal(s, events)) == 0
    decreases n - |start|
  {
    hide Advance, Honest, Answers, Run, Journal, Answered, Entered, SelfResumes;
    events := start;
    if n <= |start| {
      return;
    }
    if entry == Ready {
      Extend(s, events, CleanState, WorktreeSync);
      events := events + [CleanState];
    }
    if entry == RecoveringPreExec {
      Extend(s, events, PreExecRecoverySucceeded(entry), entry);
      events := events + [PreExecRecoverySucceeded(entry)];
    } else {
      Extend(s, events, PLAIN_PASS, entry);
      events := events + [PLAIN_PASS];
    }
    assert |events| > |start|;
    events := RoundAndRound(s, events, entry, n);
  }

  lemma EmptyRun(s: TaskState)
    ensures Run(s, []) == Some(s) && Journal(s, []) == [] && Answered(s, [])
    ensures Entered([]) == [] && SelfResumes([]) == 0
  {
  }

  lemma OneEntry(first: Move, second: Move)
    requires !Enters(first) && Enters(second) && first.from != Recovering && second.from != Recovering
    ensures |Entered([first, second])| == 1 && SelfResumes([first, second]) == 0
  {
    hide CauseOf;
    var one, two := [first], [first, second];
    assert one[..0] == [] && two[..1] == one;
    assert Entered(one) == [] && SelfResumes(one) == 0;
  }

  /** A launch whose entry stage does not lead forward has runs of any length, without recovery. */
  lemma BackwardEntryNeverRests(s: TaskState, n: nat) returns (events: seq<Event>)
    requires Launched(s) && !ForwardEntry(s.entryStage)
    ensures |events| >= n && Answered(s, events)
    ensures Entered(Journal(s, events)) == [] && SelfResumes(Journal(s, events)) == 0
  {
    hide Advance, Honest, Answers, CauseOf, Run, Journal, Answered, Entered, SelfResumes;
    events := [];
    EmptyRun(s);
    var entry := s.entryStage.value;
    if entry != Ready {
      Extend(s, events, CleanState, WorktreeSync);
      events := events + [CleanState];
      if entry == RecoveringPreExec {
        Extend(s, events, PLAIN_PASS, RecoveringPreExec);
        events := events + [PLAIN_PASS];
      }
    }
    events := RoundAndRound(s, events, entry, n);
  }

  /** Once recovering, a recovery agent that resumes into recovery keeps the task there forever. */
  lemma {:induction false} SelfResumeNeverRests(s: TaskState, start: seq<Event>, n: nat) returns (events: seq<Event>)
    requires Answered(s, start) && Run(s, start).value.stage == Recovering
    ensures start <= events && |events| == |start| + n
    ensures Answered(s, events) && Run(s, events).value.stage == Recovering
    ensures Entered(Journal(s, events)) == Entered(Journal(s, start))
    ensures SelfResumes(Journal(s, events)) == SelfResumes(Journal(s, start)) + n
  {
    hide Advance, Honest, Answers, Run, Journal, Answered, Entered, SelfResumes;
    events := start;
    if n > 0 {
      events := SelfResumeNeverRests(s, start, n - 1);
      var again := RecoverySucceeded(Some(Recovering), ResumeHint);
      Extend(s, events, again, Recovering);
      events := events + [again];
    }
  }

  /** A launch that enters at recovery can stay there forever without any breakdown. */
  lemma LaunchIntoRecoveryNeverRests(s: TaskState, n: nat) returns (events: seq<Event>)
    requires Launched(s) && s.entryStage == Some(Recovering)
    ensures |events| == n + 2 && Answered(s, events)
    ensures Entered(Journal(s, events)) == [] && SelfResumes(Journal(s, events)) == n
  {
    hide Advance, Honest, Answers, Run, Journal, Answered, Entered, SelfResumes;
    EmptyRun(s);
    Extend(s, [], CleanState, WorktreeSync);
    Extend(s, [] + [CleanState], PLAIN_PASS, Recovering);
    events := SelfResumeNeverRests(s, [] + [CleanState] + [PLAIN_PASS], n);
  }

  lemma CrashRecovers(s: TaskState, e: Event)
    requires s.stage == WorktreeSync && e.Crash? && s.Window() == []
    ensures Answers(s, e) && Advance(s, e).Some? && Advance(s, e).value.stage == Recovering
  {
    hide Apply, Settled, EffectDelta, CauseOf, Untried;
    BudgetFact(s, e);
    assert Untried(s, CauseOf(s.stage, e)) by { NothingTried(s, CauseOf(s.stage, e)); }
    var t := Advance(s, e).value;
    BreakdownStep(s, e, t);
  }

  lemma NothingTried(s: TaskState, t: RecoveryTrigger)
    requires s.Window() == []
    ensures Untried(s, t)
  {
  }

  const FIRST_CRASH: seq<Event> := [CleanState, Crash("GitError", "")]

  /** From every launch: one recovery is enough for a run of any length. */
  lemma OneRecoveryCanLastForever(s: TaskState, n: nat) returns (events: seq<Event>)
    requires Fresh(s)
    ensures FIRST_CRASH <= events && |events| == n + 2
    ensures Answered(s, events) && Run(s, events).value.stage == Recovering
    ensures |Entered(Journal(s, events))| == 1 && SelfResumes(Journal(s, events)) == n
  {
    hide Advance, Honest, Answers, CauseOf, RecoveryTrigger.BudgetKey, Run, Journal, Answered, Entered, SelfResumes;
    EmptyRun(s);
    Extend(s, [], CleanState, WorktreeSync);
    HopAdvances(s, CleanState, WorktreeSync);
    AnswerOneMore(s, [], CleanState);
    var synced := Advance(s, CleanState).value;
    FixedStep(s, CleanState, synced);
    CalmStep(s, CleanState, synced);
    var crash := Crash("GitError", "");
    CrashRecovers(synced, crash);
    AnswerOneMore(s, [] + [CleanState], crash);
    var start := [] + [CleanState] + [crash];
    var first, second := Move(Ready, CleanState, WorktreeSync), Move(WorktreeSync, crash, Recovering);
    assert Journal(s, start) == [first, second];
    OneEntry(first, second);
    events := SelfResumeNeverRests(s, start, n);
  }
}
