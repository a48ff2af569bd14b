/** Every rejection and every failure, decided and explained by the journal alone. */
module JudgedRuns {
  import opened Common
  import opened Recovery
  import opened Events
  import opened TaskStates
  import opened Deltas
  import opened Patches
  import opened Rules
  import opened Runner
  import opened Runs
  import opened RecoveryRuns
  import opened FailureRuns
  import opened LoopRuns
  import opened HookRuns
  import opened BoundedRuns
  import opened ReachableLoops
  import opened RetryRuns

  // ----- the specification --------------------------------------------------------------

  datatype Judgement =
    | Bounced
    | HandedOn
    | FailedFor(reason: FailedReason)

  predicate Retryable(p: PipelineState) {
    Bucket(p) in {Some(ImplementingStage), Some(TestingStage), Some(AcceptingStage)}
  }

  /** Positions where a reject is a final answer. */
  predicate Final(p: PipelineState) {
    || p == WorktreeSync || p == MergeResolving || p == Commit || p == AfterCommit
    || p == BeforeGrooming || p == Grooming || p == AfterGrooming
  }

  /**
    * What becomes of a reject. Outside the three retryable epochs it fails the task. In them: an exhausted QA reject
    * is handed to the reviewer; a bounce or a hook that reaches its limit fails the task; otherwise the task goes
    * back to implementing while retries are left.
    */
  function Judge(limits: Limits, ms: seq<Move>, p: PipelineState, e: Event): Judgement
    requires e.Reject? && (e.source == Hook ==> e.hook.Some?)
  {
    var epoch := RetryOf(p);
    var exhausted := SpentRetries(ms, epoch) >= limits.stageRetry;
    if !Retryable(p) then FailedFor(SemanticReject)
    else if p == Testing && exhausted then HandedOn
    else if e.source == Agent && epoch != Implementing && Bounces(ms, epoch) + 1 >= limits.rejectionLoop
    then FailedFor(RejectionLoopDetected)
    else if e.source == Hook && Streak(ms, e.hook.value.fingerprint) + 1 >= limits.sameHookReject
    then FailedFor(HookRejectLoop)
    else if exhausted then FailedFor(SemanticReject)
    else Bounced
  }

  predicate Executes(j: Judgement, t: TaskState) {
    match j
    case Bounced => t.stage == Implementing && t.failedReason == None
    case HandedOn => t.stage == Accepting && t.failedReason == None
    case FailedFor(reason) => t.stage == Failed && t.failedReason == Some(reason)
  }

  // ----- rejects ------------------------------------------------------------------------

  /** The decision in terms of the guards' facts. */
  function Decided(p: PipelineState, x: Facts): Judgement {
    if !Retryable(p) then FailedFor(SemanticReject)
    else if p == Testing && x.Exhausted(Testing) && x.hooksGreen then HandedOn
    else if x.rejectionLoop then FailedFor(RejectionLoopDetected)
    else if x.hookLoop then FailedFor(HookRejectLoop)
    else if x.Exhausted(RetryOf(p)) then FailedFor(SemanticReject)
    else Bounced
  }

  lemma RejectRowDecides(p: PipelineState, x: Facts)
    ensures Route(p, OnReject, x).Some? <==> Retryable(p) || Final(p)
    ensures Route(p, OnReject, x).Some? ==>
      var row := Route(p, OnReject, x).value;
      match Decided(p, x)
      case Bounced => row.target == To(Implementing) && ReasonOf(row.effect) == None
      case HandedOn => row.target == To(Accepting) && ReasonOf(row.effect) == None
      case FailedFor(reason) => row.target == To(Failed) && ReasonOf(row.effect) == Some(reason)
  {
    hide Facts.Exhausted;
  }

  lemma RejectFacts(t: TaskState, e: Event)
    ensures
      var x := FactsOf(t, e);
      && x.hookLoop == HookLoopDetected(t, e)
      && x.rejectionLoop == LoopDetected(t, e, Some(Implementing))
      && x.hooksGreen == t.report.hookOk
      && (forall p :: x.Exhausted(p) <==> t.Retries(p) >= t.limits.stageRetry)
  {
    hide HookLoopDetected, LoopDetected, TriggerFrom;
  }

  lemma RejectStep(t: TaskState, e: Event)
    requires e.Reject? && t.failedReason == None
    ensures Advance(t, e).Some? <==> Retryable(t.stage) || Final(t.stage)
    ensures Advance(t, e).Some? ==> Executes(Decided(t.stage, FactsOf(t, e)), Advance(t, e).value)
  {
    hide EffectDelta, Settled, Apply, Route, FactsOf, Decided, Retryable, Final;
    var x := FactsOf(t, e);
    RejectRowDecides(t.stage, x);
    if Route(t.stage, OnReject, x).Some? {
      var row := Route(t.stage, OnReject, x).value;
      ReasonDelta(row.effect, t, e);
      SettledFields(t, EffectDelta(row.effect, t, e), t.stage, row.target.state, e);
    }
  }

  /** The facts of a reject, from the journal. */
  lemma FactsAreJournal(s: TaskState, events: seq<Event>, e: Event)
    requires Clean(s) && s.stageRetry == map[] && Run(s, events).Some?
    requires
      var t := Run(s, events).value;
      Honest(t, e) && e.Reject? && Retryable(t.stage)
    ensures e.source == Hook ==> e.hook.Some?
    ensures
      var t, ms := Run(s, events).value, Journal(s, events);
      Decided(t.stage, FactsOf(t, e)) == Judge(s.limits, ms, t.stage, e)
  {
    hide Run, Journal, Advance, Bounces, Streak, SpentRetries, FactsOf, HookLoopDetected, LoopDetected, Honest;
    hide Facts.Exhausted, RetryOf;
    var t, ms := Run(s, events).value, Journal(s, events);
    RunKeepsSettings(s, events);
    RejectFacts(t, e);
    RetriesAreCounted(s, events, RetryOf(t.stage));
    LoopFact(s, events, e);
    HookFact(s, events, e);
    if t.stage == Testing {
      EpochOfTesting();
      HooksAreGreenAtTesting(s, events);
    }
  }

  lemma EpochOfTesting()
    ensures RetryOf(Testing) == Testing
  {
  }

  lemma LoopFact(s: TaskState, events: seq<Event>, e: Event)
    requires Clean(s) && Run(s, events).Some? && e.Reject? && Retryable(Run(s, events).value.stage)
    ensures
      var t, ms := Run(s, events).value, Journal(s, events);
      var epoch := RetryOf(t.stage);
      LoopDetected(t, e, Some(Implementing)) <==>
        e.source == Agent && epoch != Implementing && Bounces(ms, epoch) + 1 >= t.limits.rejectionLoop
  {
    hide Run, Journal, Advance, Bounces, LoopAgrees;
    var t, ms := Run(s, events).value, Journal(s, events);
    LoopIsCountedBounces(s, events);
    if e.source == Agent && Bucket(t.stage) != Some(ImplementingStage) {
      NextBounce(t, e, Bounces(ms, Testing), Bounces(ms, Accepting));
    }
  }

  lemma HookFact(s: TaskState, events: seq<Event>, e: Event)
    requires Clean(s) && Run(s, events).Some? && e.Reject? && Honest(Run(s, events).value, e)
    ensures e.source == Hook ==> e.hook.Some?
    ensures
      var t, ms := Run(s, events).value, Journal(s, events);
      HookLoopDetected(t, e) <==>
        e.source == Hook && Streak(ms, e.hook.value.fingerprint) + 1 >= t.limits.sameHookReject
  {
    hide Run, Journal, Streak, HookId;
    var t := Run(s, events).value;
    var count := id => Streak(Journal(s, events), id);
    StreakIsCountedRejects(s, events);
    if e.source == Hook {
      StreakCarried(t, count, e);
    }
  }

  /**
    * Over every run from a launch, what a reject leads to is decided by the journal and the limits: bounced, handed
    * on, or failed with a given reason.
    */
  lemma RejectsAreDecidedByTheJournal(s: TaskState, events: seq<Event>, e: Event)
    requires Launched(s) && Run(s, events).Some?
    requires
      var t := Run(s, events).value;
      Honest(t, e) && e.Reject? && (Retryable(t.stage) || Final(t.stage))
    ensures e.source == Hook ==> e.hook.Some?
    ensures
      var t := Run(s, events).value;
      && Advance(t, e).Some?
      && Executes(Judge(s.limits, Journal(s, events), t.stage, e), Advance(t, e).value)
  {
    hide Run, Journal, Advance, Bounces, Streak, SpentRetries, FactsOf, Executes, RetryOf, Honest, Decided, Judge;
    LaunchedIsClean(s);
    hide Launched, Clean;
    var t := Run(s, events).value;
    ReasonExactlyWhenFailed(s, events);
    HookFact(s, events, e);
    RejectStep(t, e);
    if Retryable(t.stage) {
      FactsAreJournal(s, events, e);
    } else {
      FinalFact(t, e, s.limits, Journal(s, events));
    }
  }

  lemma LaunchedIsClean(s: TaskState)
    requires Launched(s)
    ensures Clean(s) && s.stageRetry == map[]
  {
  }

  lemma FinalFact(t: TaskState, e: Event, limits: Limits, ms: seq<Move>)
    requires !Retryable(t.stage) && e.Reject? && (e.source == Hook ==> e.hook.Some?)
    ensures Decided(t.stage, FactsOf(t, e)) == FailedFor(SemanticReject) == Judge(limits, ms, t.stage, e)
  {
    hide FactsOf, SpentRetries, Bounces, Streak;
  }

  // ----- every failure ------------------------------------------------------------------

  /** The reason an event other than a reject fails a task for. */
  function ReasonTold(p: PipelineState, e: Event): FailedReason {
    match e
    case Blocked(_) | Crash(_, _) | Timeout =>
      if p == Recovering || p == RecoveringPreExec then RecoveryCrashed else RecoveryBudgetHitReason
    case TaskTimeBudgetExceeded(_) => TimeBudgetExceeded
    case RecoverySucceeded(_, _) => RecoveryMissingTargetStage
    case RecoveryFailed(_) => RecoveryExhausted
    case RecoveryBudgetHit => RecoveryBudgetHitReason
    case PreExecRecoveryFailed(_) | PreExecRecoveryBudgetHit => PreExecRecoveryFailedReason
    case _ => UnrecoverableError
  }

  /** What the failed task tells about the event. */
  function Told(e: Event): string {
    match e
    case Reject(_, reason, _, _, _, _) => reason
    case Blocked(blockage) => blockage
    case Crash(_, message) => message
    case StageRetryLimitHit(p) => "Stage retry limit exhausted for " + Name(p)
    case OverallRetryLimitHit => "Overall retry limit exhausted"
    case TaskTimeBudgetExceeded(rendered) => rendered
    case RecoveryFailed(explanation) => explanation
    case _ => ""
  }

  lemma FailingRowReason(p: PipelineState, k: EventKind, x: Facts, e: Event)
    requires k == KindOf(e) && k != OnReject && Route(p, k, x).Some? && Route(p, k, x).value.target == To(Failed)
    ensures ReasonOf(Route(p, k, x).value.effect) == Some(ReasonTold(p, e))
  {
    hide RejectRow, PassRow, HookOkRow, BreakdownRow, IsStagePhase;
    NoFailureOnSuccess(p, x);
    BreakdownReason(p, x);
  }

  lemma NoFailureOnSuccess(p: PipelineState, x: Facts)
    ensures PassRow(p).Some? ==> PassRow(p).value.target != To(Failed)
    ensures HookOkRow(p, x).Some? ==> HookOkRow(p, x).value.target != To(Failed)
  {
  }

  lemma BreakdownReason(p: PipelineState, x: Facts)
    ensures BreakdownRow(p, x).Some? && BreakdownRow(p, x).value.target == To(Failed) ==>
      ReasonOf(BreakdownRow(p, x).value.effect) ==
        Some(if p == Recovering || p == RecoveringPreExec then RecoveryCrashed else RecoveryBudgetHitReason)
  {
  }

  lemma MessageDelta(f: Effect, s: TaskState, e: Event)
    requires ReasonOf(f).Some? && (f.FailRejectionLoop? ==> e.Reject?)
    ensures EffectDelta(f, s, e).failedMessage == Some(Told(e))
  {
    hide HookDelta, LoopDelta, TerminalVerdict, ReasonName, FingerprintOf, RejectReasonCode, TriggerKind, FailureSource;
    hide Name;
    if f.FailRejectionLoop? {
      assert FailureMessage(e) == Told(e);
    }
  }

  lemma FailureStep(s: TaskState, e: Event, t: TaskState)
    requires Advance(s, e) == Some(t) && t.stage == Failed && !NamesTarget(e)
    ensures t.failedMessage == Some(Told(e))
    ensures !e.Reject? ==> t.failedReason == Some(ReasonTold(s.stage, e))
  {
    hide Settled, Apply, Route, Advance, EffectDelta, FactsOf, LoopDetected, HookLoopDetected, Told, ReasonTold;
    var row := Fired(s, e, t);
    GuardFacts(s, e);
    FailureRowShape(s.stage, KindOf(e), FactsOf(s, e));
    FailingRowShape(s.stage, KindOf(e), FactsOf(s, e));
    if !e.Reject? {
      FailingRowReason(s.stage, KindOf(e), FactsOf(s, e), e);
    }
    MessageDelta(row.effect, s, e);
    ReasonDelta(row.effect, s, e);
    SettledFields(s, EffectDelta(row.effect, s, e), s.stage, t.stage, e);
    SettledTexts(s, EffectDelta(row.effect, s, e), s.stage, t.stage, e);
  }

  /** Every failed task says why, and says it as the last move of its journal has it. */
  lemma FailuresAreExplainedByTheJournal(s: TaskState, events: seq<Event>)
    requires Launched(s) && Run(s, events).Some? && Run(s, events).value.stage == Failed
    ensures
      var t, ms := Run(s, events).value, Journal(s, events);
      var n := |ms| - 1;
      && n >= 0
      && (!NamesTarget(ms[n].event) ==>
            && t.failedMessage == Some(Told(ms[n].event))
            && (!ms[n].event.Reject? ==> t.failedReason == Some(ReasonTold(ms[n].from, ms[n].event)))
            && (ms[n].event.Reject? && ms[n].event.source == Hook ==> ms[n].event.hook.Some?)
            && (ms[n].event.Reject? ==>
                  Judge(s.limits, ms[..n], ms[n].from, ms[n].event).FailedFor?
                  && t.failedReason == Some(Judge(s.limits, ms[..n], ms[n].from, ms[n].event).reason)))
  {
    hide Run, Journal, Advance, Honest, NamesTarget, Told, ReasonTold, Judge, Retryable, Final;
    RunStarts(s);
    assert events != [];
    hide Launched;
    JournalGrows(s, events);
    var before, e := events[..|events| - 1], events[|events| - 1];
    var t := Run(s, before).value;
    if !NamesTarget(e) {
      FailureStep(t, e, Run(s, events).value);
      if e.Reject? {
        AnyReject(s, before, e);
        RejectsAreDecidedByTheJournal(s, before, e);
      }
    }
  }

  lemma AnyReject(s: TaskState, events: seq<Event>, e: Event)
    requires Run(s, events).Some? && e.Reject? && Advance(Run(s, events).value, e).Some?
    ensures Retryable(Run(s, events).value.stage) || Final(Run(s, events).value.stage)
  {
    hide Run, FactsOf, Fire, Retryable, Final;
    var t := Run(s, events).value;
    RejectRowDecides(t.stage, FactsOf(t, e));
  }
}
