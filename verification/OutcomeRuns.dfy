/** The recovery history, merge attempts and the other records of a task, reconstructed from the journal. */
module OutcomeRuns {
  import opened Common
  import opened Recovery
  import opened Events
  import opened TaskStates
  import opened Deltas
  import opened Patches
  import opened Rules
  import opened Runner
  import opened Runs
  import opened RecoveryRuns
  import opened FailureRuns
  import opened RetryRuns
  import opened JudgedRuns
  import opened PathRuns
  import RecoveryVerdicts
  import Text

  // ----- the specification --------------------------------------------------------------

  /** How a recovery of this cause is recorded when this event ends it. */
  function Ending(cause: RecoveryTrigger, e: Event): RecoveryOutcome {
    match e
    case RecoverySucceeded(Some(p), ResumeHint) =>
      RecoveryOutcome(cause, "resume", Resumed, None, "Recovery resumed task via " + Name(p))
    case RecoverySucceeded(Some(p), AdvanceHint) =>
      RecoveryOutcome(cause, "advance", Advanced, None, "Recovery advanced task via " + Name(p))
    case RecoverySucceeded(Some(p), DoneHint) =>
      RecoveryOutcome(cause, "done", Completed, None, "Recovery doned task via " + Name(p))
    case RecoverySucceeded(None, _) =>
      RecoveryOutcome(cause, "recovery_missing_target_stage", Terminated, Some(RecoveryMissingTargetStage), "")
    case Crash(_, message) => RecoveryOutcome(cause, "crash", Terminated, Some(RecoveryCrashed), message)
    case Timeout => RecoveryOutcome(cause, "timeout", Terminated, Some(RecoveryCrashed), "")
    case RecoveryFailed(text) => RecoveryOutcome(cause, "failed", Terminated, Some(RecoveryExhausted), text)
    case RecoveryBudgetHit => RecoveryOutcome(cause, "budget_hit", Terminated, Some(RecoveryBudgetHitReason), "")
    case TaskTimeBudgetExceeded(text) =>
      RecoveryOutcome(cause, "time_budget_exceeded", Terminated, Some(TimeBudgetExceeded), text)
    case _ => RecoveryOutcome(cause, "", Terminated, None, "")
  }

  /** The last move ends the recovery that the move before it entered. */
  predicate Ends(ms: seq<Move>) {
    |ms| >= 2 && ms[|ms| - 1].from == Recovering && Enters(ms[|ms| - 2])
  }

  function CauseAt(m: Move): RecoveryTrigger
    requires IsBreakdown(m.event)
  {
    CauseOf(m.from, m.event)
  }

  /** What the last move adds to the history. */
  function LastOutcome(ms: seq<Move>): seq<RecoveryOutcome>
    requires ms != []
  {
    var n := |ms| - 1;
    if Ends(ms) then [Ending(CauseAt(ms[n - 1]), ms[n].event)]
    else if Denies(ms[n]) then
      var cause := CauseAt(ms[n]);
      [RecoveryOutcome(cause, "budget_hit", Terminated, Some(RecoveryBudgetHitReason), cause.message)]
    else []
  }

  /** The outcomes the journal accounts for, in order. */
  function Outcomes(ms: seq<Move>): seq<RecoveryOutcome> {
    if ms == [] then [] else Outcomes(ms[..|ms| - 1]) + LastOutcome(ms)
  }

  // ----- one transition -----------------------------------------------------------------

  lemma SuccessOutcome(s: TaskState, e: Event)
    requires e.RecoverySucceeded? && e.resume.Some?
    ensures EffectDelta(RecordRecoverySuccess, s, e).appendOutcome ==
      if s.trigger.Some? then Some(Ending(s.trigger.value, e)) else None
  {
    hide HookRecoveryProgressed, RetryCounterStage, Name, HintName;
    SuccessText(e.hint, Name(e.resume.value));
  }

  lemma SuccessText(h: DispositionHint, place: string)
    ensures HintName(h) == match h case ResumeHint => "resume" case AdvanceHint => "advance" case DoneHint => "done"
    ensures "Recovery " + HintName(h) + "d task via " + place ==
      match h
      case ResumeHint => "Recovery resumed task via " + place
      case AdvanceHint => "Recovery advanced task via " + place
      case DoneHint => "Recovery doned task via " + place
  {
    assert "Recovery " + "resume" + "d task via " == "Recovery resumed task via ";
    assert "Recovery " + "advance" + "d task via " == "Recovery advanced task via ";
    assert "Recovery " + "done" + "d task via " == "Recovery doned task via ";
  }

  predicate EndsBadly(e: Event) {
    || e.Crash? || e.Timeout? || e.RecoveryFailed? || e.RecoveryBudgetHit? || e.TaskTimeBudgetExceeded?
    || (e.RecoverySucceeded? && e.resume.None?)
  }

  lemma FailureOutcome(s: TaskState, e: Event)
    requires s.stage == Recovering && EndsBadly(e)
    ensures EffectDelta(Fail(ReasonTold(Recovering, e)), s, e).appendOutcome ==
      if s.trigger.Some? then Some(Ending(s.trigger.value, e)) else None
  {
    hide HookDelta, Name;
  }

  lemma RecoveringRow(k: EventKind, x: Facts, e: Event)
    requires k == KindOf(e) && Route(Recovering, k, x).Some? && (x.concrete <==> e.RecoverySucceeded? && e.resume.Some?)
    ensures
      var row := Route(Recovering, k, x).value;
      if x.concrete then row.effect == RecordRecoverySuccess
      else EndsBadly(e) && row.effect == Fail(ReasonTold(Recovering, e))
  {
  }

  lemma EndingStep(s: TaskState, e: Event, t: TaskState)
    requires Advance(s, e) == Some(t) && s.stage == Recovering
    ensures t.history == if s.trigger.Some? then s.history + [Ending(s.trigger.value, e)] else s.history
  {
    hide Settled, Apply, Route, Advance, EffectDelta, FactsOf, Ending, EndsBadly, ReasonTold;
    var row := Fired(s, e, t);
    GuardFacts(s, e);
    RecoveringRow(KindOf(e), FactsOf(s, e), e);
    if e.RecoverySucceeded? && e.resume.Some? {
      SuccessOutcome(s, e);
    } else {
      FailureOutcome(s, e);
    }
    SettledFields(s, EffectDelta(row.effect, s, e), s.stage, t.stage, e);
  }

  lemma DenialOutcome(s: TaskState, e: Event)
    requires IsBreakdown(e)
    ensures
      var cause := CauseOf(s.stage, e);
      EffectDelta(ExhaustRecoveryBudget, s, e).appendOutcome ==
        Some(RecoveryOutcome(cause, "budget_hit", Terminated, Some(RecoveryBudgetHitReason), cause.message))
  {
    hide TriggerFrom, CauseOf;
    BreakdownCause(s, e);
  }

  lemma DenialStep(s: TaskState, e: Event, t: TaskState)
    requires Advance(s, e) == Some(t) && IsBreakdown(e) && HasRecovery(s.stage) && t.stage == Failed
    ensures
      var cause := CauseOf(s.stage, e);
      t.history == s.history +
        [RecoveryOutcome(cause, "budget_hit", Terminated, Some(RecoveryBudgetHitReason), cause.message)]
  {
    hide Settled, Apply, Route, Advance, EffectDelta, FactsOf, CauseOf;
    var row := Fired(s, e, t);
    RecoveryRowShape(s.stage, KindOf(e), FactsOf(s, e));
    DenialOutcome(s, e);
    SettledFields(s, EffectDelta(row.effect, s, e), s.stage, t.stage, e);
  }

  /** The active trigger is the cause the last move entered with. */
  predicate TriggerAgrees(t: TaskState, past: seq<Move>) {
    t.trigger == if past != [] && Enters(past[|past| - 1]) then Some(CauseAt(past[|past| - 1])) else None
  }

  lemma TriggerIsJournal(s: TaskState, events: seq<Event>)
    requires Fresh(s) && Run(s, events).Some?
    ensures TriggerAgrees(Run(s, events).value, Journal(s, events))
  {
    hide Advance, Honest, Run, Journal, CauseOf;
    if events == [] {
      RunStarts(s);
    } else {
      ActiveOrigin(s, events);
    }
  }

  lemma OutcomeStep(past: seq<Move>, t: TaskState, e: Event, u: TaskState)
    requires Advance(t, e) == Some(u) && TriggerAgrees(t, past) && (t.trigger.Some? ==> t.stage == Recovering)
    requires past != [] && Enters(past[|past| - 1]) ==> t.stage == Recovering
    ensures u.history == t.history + LastOutcome(past + [Move(t.stage, e, u.stage)])
  {
    hide Advance, CauseOf, Ending, Untried;
    assert t.history + [] == t.history;
    if IsTerminal(t.stage) {
      TerminalStatesRest(t, e);
    }
    if IsBreakdown(e) && HasRecovery(t.stage) {
      BreakdownStep(t, e, u);
      if u.stage == Failed {
        DenialStep(t, e, u);
      }
    } else if t.stage == Recovering {
      EndingStep(t, e, u);
    } else {
      CalmStep(t, e, u);
    }
  }

  /** The recovery history since the launch is exactly what the journal accounts for, entry by entry. */
  lemma {:induction false} HistoryIsJournal(s: TaskState, events: seq<Event>)
    requires Fresh(s) && Run(s, events).Some?
    ensures Run(s, events).value.history == s.history + Outcomes(Journal(s, events))
  {
    hide Advance, Honest, Run, Journal, LastOutcome, TriggerAgrees;
    if events == [] {
      RunStarts(s);
      assert s.history + [] == s.history;
    } else {
      JournalGrows(s, events);
      var before := events[..|events| - 1];
      HistoryIsJournal(s, before);
      TriggerIsJournal(s, before);
      InRecovery(s, before);
      var t, e, u := Run(s, before).value, events[|events| - 1], Run(s, events).value;
      var past, ms := Journal(s, before), Journal(s, events);
      assert ms == past + [Move(t.stage, e, u.stage)] && ms[..|past|] == past;
      OutcomeStep(past, t, e, u);
    }
  }

  lemma InRecovery(s: TaskState, events: seq<Event>)
    requires Fresh(s) && Run(s, events).Some?
    ensures
      var t, ms := Run(s, events).value, Journal(s, events);
      (t.trigger.Some? || (ms != [] && Enters(ms[|ms| - 1]))) ==> t.stage == Recovering
  {
    hide Advance, Honest, Run, Journal, CauseOf;
    TriggerActiveExactlyWhileRecovering(s, events);
  }

  // ----- merge conflicts, pre-exec repairs, the explanation -----------------------------

  function Conflicts(ms: seq<Move>): nat {
    if ms == [] then 0 else Conflicts(ms[..|ms| - 1]) + if ms[|ms| - 1].event.MergeConflictDetected? then 1 else 0
  }

  /** The conflict that was found last, with the number of conflicts so far. */
  function MergeTold(ms: seq<Move>): Option<MergeContext> {
    if ms == [] then None
    else
      var e := ms[|ms| - 1].event;
      if e.MergeConflictDetected? then Some(MergeContext(e.conflictFiles, Conflicts(ms)))
      else MergeTold(ms[..|ms| - 1])
  }

  function Repairs(ms: seq<Move>): nat {
    if ms == [] then 0 else Repairs(ms[..|ms| - 1]) + if ms[|ms| - 1].event.NeedsPreExecRecovery? then 1 else 0
  }

  /** Why the last recovery could not help: told when it ends badly or is denied, forgotten when one begins or helps. */
  function ExplanationTold(ms: seq<Move>): Option<Explanation> {
    if ms == [] then None
    else
      var n := |ms| - 1;
      var m := ms[n];
      if Enters(m) || (m.from == Recovering && m.event.RecoverySucceeded? && m.event.resume.Some?) then None
      else if Ends(ms) then Some(Explanation(CauseAt(ms[n - 1]), ReasonTold(Recovering, m.event), Told(m.event)))
      else if Denies(m) then Some(Explanation(CauseAt(m), RecoveryBudgetHitReason, CauseAt(m).message))
      else ExplanationTold(ms[..n])
  }

  lemma SideRowShape(p: PipelineState, k: EventKind, x: Facts)
    requires Route(p, k, x).Some?
    ensures Route(p, k, x).value.effect == StashConflictFiles <==> k == OnMergeConflict
    ensures Route(p, k, x).value.effect == EnterPreExecRecovery <==> k == OnNeedsPreExecRecovery
  {
  }

  function Attempt(s: TaskState): int {
    if s.mergeContext.Some? then s.mergeContext.value.attempt else 0
  }

  lemma MergeDelta(f: Effect, s: TaskState, e: Event)
    ensures
      var d := EffectDelta(f, s, e);
      && !d.clearMergeContext && d.incPreExec == (f == EnterPreExecRecovery)
      && d.setMergeContext ==
           if f == StashConflictFiles && e.MergeConflictDetected?
           then Some(MergeContext(e.conflictFiles, Attempt(s) + 1))
           else None
  {
    hide FailureMessage, TerminalVerdict, ReasonName, TriggerFrom, HookIdentity, NextLoop, HookLoopDetected, KeySpells;
    hide HookRecoveryProgressed, HintName, HintDisposition, RetryCounterStage;
    match f {
      case Fail(_) =>
      case FailRejectionLoop(_) =>
      case IncStageRetry(_, _) =>
      case RememberRejection(_) =>
      case EnterRecovery =>
      case RecordRecoverySuccess =>
      case _ =>
    }
  }

  lemma SideStep(s: TaskState, e: Event, t: TaskState)
    requires Advance(s, e) == Some(t)
    ensures t.preExecAttempt == s.preExecAttempt + if e.NeedsPreExecRecovery? then 1 else 0
    ensures t.mergeContext ==
      if e.MergeConflictDetected?
      then Some(MergeContext(e.conflictFiles, Attempt(s) + 1))
      else s.mergeContext
  {
    hide Settled, Apply, Route, Advance, EffectDelta, FactsOf;
    var row := Fired(s, e, t);
    SideRowShape(s.stage, KindOf(e), FactsOf(s, e));
    MergeDelta(row.effect, s, e);
    SettledAttempt(s, EffectDelta(row.effect, s, e), s.stage, t.stage, e);
    SettledMerge(s, EffectDelta(row.effect, s, e), s.stage, t.stage, e);
  }

  lemma {:induction false} MergeToldCounts(ms: seq<Move>)
    ensures MergeTold(ms).Some? <==> Conflicts(ms) > 0
    ensures MergeTold(ms).Some? ==> MergeTold(ms).value.attempt == Conflicts(ms)
  {
    if ms != [] {
      MergeToldCounts(ms[..|ms| - 1]);
    }
  }

  /** Merge attempts and pre-exec repairs are what the journal counts. */
  lemma {:induction false} AttemptsAreCounted(s: TaskState, events: seq<Event>)
    requires s.mergeContext == None && s.preExecAttempt == 0 && Run(s, events).Some?
    ensures
      var t, ms := Run(s, events).value, Journal(s, events);
      t.mergeContext == MergeTold(ms) && t.preExecAttempt == Repairs(ms)
  {
    hide Advance, Honest, Run, Journal;
    if events == [] {
      RunStarts(s);
    } else {
      JournalGrows(s, events);
      var before := events[..|events| - 1];
      AttemptsAreCounted(s, before);
      MergeToldCounts(Journal(s, before));
      SideStep(Run(s, before).value, events[|events| - 1], Run(s, events).value);
    }
  }

  lemma ToldIsMessage(e: Event)
    ensures FailureMessage(e) == Told(e)
  {
    hide Name;
  }

  lemma ExplanationDelta(f: Effect, s: TaskState, e: Event)
    ensures
      var d := EffectDelta(f, s, e);
      && d.clearExplanation == (f == EnterRecovery || f == RecordRecoverySuccess)
      && d.setExplanation ==
           match f
           case Fail(reason) =>
             if s.stage == Recovering && s.trigger.Some?
             then Some(Explanation(s.trigger.value, reason, Told(e))) else None
           case ExhaustRecoveryBudget =>
             Some(Explanation(TriggerFrom(s, e), RecoveryBudgetHitReason, TriggerFrom(s, e).message))
           case _ => None
  {
    ToldIsMessage(e);
    hide FailureMessage, Told, TerminalVerdict, ReasonName, TriggerFrom, HookIdentity, NextLoop, HookLoopDetected;
    hide KeySpells, HookRecoveryProgressed, HintName, HintDisposition, RetryCounterStage;
    match f {
      case Fail(_) =>
      case FailRejectionLoop(_) =>
      case IncStageRetry(_, _) =>
      case RememberRejection(_) =>
      case EnterRecovery =>
      case RecordRecoverySuccess =>
      case ExhaustRecoveryBudget =>
      case _ =>
    }
  }

  /** The explanation after one move. */
  function Explained(t: TaskState, e: Event, next: PipelineState): Option<Explanation> {
    if IsBreakdown(e) && HasRecovery(t.stage) then
      if next == Recovering then None
      else Some(Explanation(CauseOf(t.stage, e), RecoveryBudgetHitReason, CauseOf(t.stage, e).message))
    else if t.stage == Recovering then
      if e.RecoverySucceeded? && e.resume.Some? then None
      else if t.trigger.Some? then Some(Explanation(t.trigger.value, ReasonTold(Recovering, e), Told(e)))
      else t.explanation
    else t.explanation
  }

  lemma ExplanationStep(s: TaskState, e: Event, t: TaskState)
    requires Advance(s, e) == Some(t)
    ensures t.explanation == Explained(s, e, t.stage)
  {
    hide Settled, Apply, Route, Advance, EffectDelta, FactsOf, CauseOf, TriggerFrom, Told, ReasonTold, EndsBadly;
    var row := Fired(s, e, t);
    GuardFacts(s, e);
    RecoveryRowShape(s.stage, KindOf(e), FactsOf(s, e));
    if s.stage == Recovering {
      RecoveringRow(KindOf(e), FactsOf(s, e), e);
    }
    if IsBreakdown(e) {
      BreakdownCause(s, e);
    }
    ExplanationDelta(row.effect, s, e);
    SettledTexts(s, EffectDelta(row.effect, s, e), s.stage, t.stage, e);
  }

  lemma ExplanationNext(past: seq<Move>, t: TaskState, e: Event, u: TaskState)
    requires Advance(t, e) == Some(u) && TriggerAgrees(t, past) && t.explanation == ExplanationTold(past)
    requires past != [] && Enters(past[|past| - 1]) ==> t.stage == Recovering
    ensures u.explanation == ExplanationTold(past + [Move(t.stage, e, u.stage)])
  {
    hide Advance, CauseOf, Told, ReasonTold, Untried;
    var ms := past + [Move(t.stage, e, u.stage)];
    assert ms[..|past|] == past;
    ExplanationStep(t, e, u);
    if IsTerminal(t.stage) {
      TerminalStatesRest(t, e);
    }
    if IsBreakdown(e) {
      if HasRecovery(t.stage) {
        BreakdownStep(t, e, u);
      } else if t.stage == Recovering {
        RecoveringStep(t, e, u);
      } else {
        CalmStep(t, e, u);
      }
    }
  }

  /** So is the explanation an operator gets. */
  lemma {:induction false} ExplanationIsJournal(s: TaskState, events: seq<Event>)
    requires Fresh(s) && s.explanation == None && Run(s, events).Some?
    ensures Run(s, events).value.explanation == ExplanationTold(Journal(s, events))
  {
    hide Advance, Honest, Run, Journal, TriggerAgrees, ExplanationTold, CauseOf;
    if events == [] {
      RunStarts(s);
      NothingTold();
    } else {
      JournalGrows(s, events);
      var before := events[..|events| - 1];
      ExplanationIsJournal(s, before);
      TriggerIsJournal(s, before);
      InRecovery(s, before);
      var t, e, u := Run(s, before).value, events[|events| - 1], Run(s, events).value;
      assert Journal(s, events) == Journal(s, before) + [Move(t.stage, e, u.stage)];
      ExplanationNext(Journal(s, before), t, e, u);
    }
  }

  lemma NothingTold()
    ensures ExplanationTold([]) == None
  {
  }

  // ----- the flag of the hook breaker ---------------------------------------------------

  lemma FlagDelta(f: Effect, s: TaskState, e: Event)
    requires !s.hookRecoveryInvoked && (s.trigger.Some? ==> s.trigger.value.reasonCode == None)
    requires f == EnterRecovery ==> !e.Reject?
    ensures EffectDelta(f, s, e).setHookRecoveryInvoked != Some(true)
  {
    hide FailureMessage, TerminalVerdict, ReasonName, TriggerFrom, HookIdentity, NextLoop, KeySpells;
    hide HookRecoveryProgressed, HintName, HintDisposition, RetryCounterStage;
    match f {
      case Fail(_) =>
      case FailRejectionLoop(_) =>
      case IncStageRetry(_, _) =>
      case RememberRejection(_) =>
      case EnterRecovery =>
      case RecordRecoverySuccess =>
      case _ =>
    }
  }

  lemma FlagStep(s: TaskState, e: Event, t: TaskState)
    requires Advance(s, e) == Some(t) && !s.hookRecoveryInvoked
    requires s.trigger.Some? ==> s.trigger.value.reasonCode == None
    ensures !t.hookRecoveryInvoked
  {
    hide Settled, Apply, Route, Advance, EffectDelta, FactsOf, Progress;
    var row := Fired(s, e, t);
    RecoveryRowShape(s.stage, KindOf(e), FactsOf(s, e));
    FlagDelta(row.effect, s, e);
    SettledFlag(s, EffectDelta(row.effect, s, e), s.stage, t.stage, e);
  }

  /** No run ever raises the flag that a hook-loop recovery was invoked. */
  lemma {:induction false} FlagIsNeverRaised(s: TaskState, events: seq<Event>)
    requires Fresh(s) && !s.hookRecoveryInvoked && Run(s, events).Some?
    ensures !Run(s, events).value.hookRecoveryInvoked
  {
    hide Advance, Honest, Run, Journal;
    if events == [] {
      RunStarts(s);
    } else {
      JournalGrows(s, events);
      var before := events[..|events| - 1];
      FlagIsNeverRaised(s, before);
      HookLoopRecoveryNeverRuns(s, before);
      FlagStep(Run(s, before).value, events[|events| - 1], Run(s, events).value);
    }
  }

  // ----- from the report to the record --------------------------------------------------

  /** A submitted verdict that ends a recovery is recorded under its own name, with its own disposition. */
  lemma VerdictsAreRecorded(s: TaskState, v: RecoveryVerdicts.Verdict, t: TaskState)
    requires s.stage == Recovering && s.trigger.Some? && RecoveryVerdicts.VerdictToEvent(v).Some?
    requires Advance(s, RecoveryVerdicts.VerdictToEvent(v).value) == Some(t)
    requires v.Resume? || v.Advance? ==> Text.Strip(v.target) != ""
    ensures |t.history| == |s.history| + 1
    ensures
      var outcome := t.history[|s.history|];
      && outcome.trigger == s.trigger.value
      && match v
         case Resume(_) => outcome.verdict == "resume" && outcome.disposition == Resumed
         case Advance(_) => outcome.verdict == "advance" && outcome.disposition == Advanced
         case DoneVerdict => outcome.verdict == "done" && outcome.disposition == Completed
         case BudgetHit => outcome.verdict == "budget_hit" && outcome.disposition == Terminated
         case Other(_) => outcome.verdict == "failed" && outcome.disposition == Terminated
  {
    hide Advance, Text.Strip, RecoveryVerdicts.Canonical, Name;
    EndingStep(s, RecoveryVerdicts.VerdictToEvent(v).value, t);
  }

  /**
    * A submitted verdict takes the effect it names: a target resumes the task there, through the hooks of a work
    * stage; done finishes it; any other verdict, or a blank target, fails it with the reason given.
    */
  lemma VerdictsTakeEffect(s: TaskState, v: RecoveryVerdicts.Verdict, t: TaskState)
    requires s.stage == Recovering && RecoveryVerdicts.VerdictToEvent(v).Some?
    requires Advance(s, RecoveryVerdicts.VerdictToEvent(v).value) == Some(t)
    ensures
      match v
      case Resume(target) => Lands(target, t)
      case Advance(target) => Lands(target, t)
      case DoneVerdict => t.stage == Done
      case BudgetHit => t.stage == Failed && t.failedReason == Some(RecoveryBudgetHitReason)
      case Other(reason) =>
        && t.stage == Failed && t.failedReason == Some(RecoveryExhausted)
        && t.failedMessage == Some(if reason == "" then "recovery_failed" else reason)
  {
    hide Advance, Text.Strip, Name, EntersThrough;
    var e := RecoveryVerdicts.VerdictToEvent(v).value;
    if e.RecoverySucceeded? {
      ResumeGoesThroughHooks(s, e, t);
      DoneIsEnteredDirectly(t.stage);
    } else {
      BadEnding(s, e, t);
    }
  }

  /** Resumed at the place spelled, or failed where nothing is. */
  predicate Lands(target: string, t: TaskState) {
    if Text.Strip(target) == "" then
      t.stage == Failed && t.failedReason == Some(RecoveryExhausted) && t.failedMessage == Some("missing target_stage")
    else exists p :: Name(p) == Text.Strip(target) && EntersThrough(p, t.stage)
  }

  lemma DoneIsEnteredDirectly(p: PipelineState)
    ensures EntersThrough(Done, p) ==> p == Done
  {
  }

  lemma BadEnding(s: TaskState, e: Event, t: TaskState)
    requires Advance(s, e) == Some(t) && s.stage == Recovering && (e.RecoveryFailed? || e.RecoveryBudgetHit?)
    ensures t.stage == Failed && t.failedReason == Some(ReasonTold(Recovering, e)) && t.failedMessage == Some(Told(e))
  {
    hide Settled, Apply, Route, Advance, EffectDelta, FactsOf, Told, ReasonTold;
    var row := Fired(s, e, t);
    FailedByReport(KindOf(e), FactsOf(s, e));
    FailureStep(s, e, t);
  }

  lemma FailedByReport(k: EventKind, x: Facts)
    requires k == OnRecoveryFailed || k == OnRecoveryBudgetHit
    ensures Route(Recovering, k, x).Some? && Route(Recovering, k, x).value.target == To(Failed)
  {
  }
}
