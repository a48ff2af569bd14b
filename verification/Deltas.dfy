/** Effects and the state patches they produce (litehive/domain/lifecycle_deltas.py). */
module Deltas {
  import opened Common
  import opened Recovery
  import opened Events
  import opened TaskStates
  import Text

  datatype StateDelta = StateDelta(
    incStageRetry: Option<PipelineState> := None,
    resetStageRetry: Option<PipelineState> := None,
    setTrigger: Option<RecoveryTrigger> := None,
    clearTrigger: bool := false,
    appendOutcome: Option<RecoveryOutcome> := None,
    incPreExec: bool := false,
    setMergeContext: Option<MergeContext> := None,
    clearMergeContext: bool := false,
    setLoop: Option<RejectionLoop> := None,
    clearLoop: bool := false,
    setHookStreak: Option<int> := None,
    setHookFingerprint: Option<HookFingerprint> := None,
    clearHookTracking: bool := false,
    setHookRecoveryInvoked: Option<bool> := None,
    failedReason: Option<FailedReason> := None,
    failedMessage: Option<string> := None,
    setExplanation: Option<Explanation> := None,
    clearExplanation: bool := false)

  const EMPTY_DELTA: StateDelta := StateDelta()

  /** The identity of a fully described hook reject. */
  function HookIdentity(e: Event): Option<HookFingerprint> {
    if e.Reject? && e.source == Hook && e.hook.Some? && e.hook.value.point.Some?
       && e.hook.value.command != "" && e.hook.value.fingerprint != ""
    then
      var h := e.hook.value;
      Some(HookFingerprint(h.point.value, h.command, h.description, h.fingerprint))
    else None
  }

  predicate HookLoopDetected(s: TaskState, e: Event) {
    e.Reject? && e.source == Hook && e.streak.Some? && e.streak.value >= s.limits.sameHookReject
  }

  function RejectReasonCode(s: TaskState, e: Event): Option<string> {
    if !e.Reject? then None
    else if HookLoopDetected(s, e) then Some("hook_reject_loop")
    else
      var code := if e.reasonCode.Some? && e.reasonCode.value != "" then e.reasonCode else e.classification;
      if code.Some? && Text.Strip(code.value) != "" then Some(Text.Strip(code.value)) else None
  }

  /** Python's `a or b` on optional text. */
  function OrElse(a: Option<string>, b: Option<string>): Option<string> {
    if a.Some? && a.value != "" then a else b
  }

  function FingerprintOf(s: TaskState, e: Event): FailureFingerprint {
    if HookIdentity(e).Some? then
      FailureFingerprint(HookIdentity(e).value.id, Some("hook_reject"))
    else match e
      case Reject(source, reason, classification, _, _, _) =>
        FailureFingerprint(
          SourceName(source) + ":" + reason,
          OrElse(OrElse(classification, RejectReasonCode(s, e)), Some(SourceName(source) + "_reject")))
      case Crash(excType, message) => FailureFingerprint(excType + ":" + message, Some(excType))
      case Blocked(blockage) => FailureFingerprint("blocked:" + blockage, Some("blocked"))
      case Timeout => FailureFingerprint("timeout", Some("timeout"))
      case StageRetryLimitHit(p) => FailureFingerprint("stage_retry_limit:" + Name(p), Some("stage_retry_limit"))
      case OverallRetryLimitHit => FailureFingerprint("retry_limit", Some("retry_limit"))
      case _ => FailureFingerprint(ClassName(e), None)
  }

  function TriggerFrom(s: TaskState, e: Event): RecoveryTrigger {
    RecoveryTrigger(
      Some(s.stage), TriggerKind(e), FingerprintOf(s, e), FailureSource(e), RejectReasonCode(s, e), FailureMessage(e))
  }

  /** The slice of a patch that tracks "is the same hook rejecting over and over". */
  function HookDelta(s: TaskState, e: Event, invoked: Option<bool>): StateDelta {
    match HookIdentity(e)
    case None =>
      StateDelta(
        clearHookTracking := true,
        setHookRecoveryInvoked := Some(if invoked.Some? then invoked.value else false))
    case Some(hook) =>
      var same := s.hookFingerprint.Some? && s.hookFingerprint.value.id == hook.id;
      StateDelta(
        setHookStreak := Some(if same then s.hookStreak + 1 else 1),
        setHookFingerprint := Some(hook),
        setHookRecoveryInvoked := Some(if invoked.Some? then invoked.value else s.hookRecoveryInvoked))
  }

  /** The reviewer-bounce counter after this event, or None when the event is no such bounce. */
  function NextLoop(s: TaskState, e: Event, target: Option<PipelineState>): Option<RejectionLoop> {
    if !e.Reject? || e.source != Agent then None
    else if Bucket(s.stage) != Some(TestingStage) && Bucket(s.stage) != Some(AcceptingStage) then None
    else if target.None? || Bucket(target.value) != Some(ImplementingStage) then None
    else
      var stage := RetryCounterState(Bucket(s.stage).value);
      var again := s.loop.Some? && s.loop.value.rejectionStage == stage && s.loop.value.retryTarget == Implementing;
      Some(RejectionLoop(stage, Implementing, if again then s.loop.value.count + 1 else 1))
  }

  predicate LoopDetected(s: TaskState, e: Event, target: Option<PipelineState>) {
    var next := NextLoop(s, e, target);
    next.Some? && next.value.count >= s.limits.rejectionLoop
  }

  function LoopDelta(s: TaskState, e: Event, target: Option<PipelineState>): StateDelta {
    match NextLoop(s, e, target)
    case None => StateDelta(clearLoop := true)
    case Some(loop) => StateDelta(setLoop := Some(loop))
  }

  /** Counter bucket of a stage label; positions outside every phase own a bucket of their own. */
  function RetryCounterStage(p: Option<PipelineState>): Option<PipelineState> {
    match p
    case None => None
    case Some(q) => if Bucket(q).Some? then Some(RetryCounterState(Bucket(q).value)) else Some(q)
  }

  function EnterRecoveryDelta(s: TaskState, e: Event): StateDelta {
    HookDelta(s, e, if HookLoopDetected(s, e) then Some(true) else None)
    .(setTrigger := Some(TriggerFrom(s, e)), clearLoop := true, clearExplanation := true)
  }

  /** True when a hook-loop recovery moved the task off the looping stage. */
  predicate HookRecoveryProgressed(trigger: Option<RecoveryTrigger>, e: Event) {
    && trigger.Some? && trigger.value.reasonCode == Some("hook_reject_loop") && e.RecoverySucceeded?
    && e.resume.Some?
    && (|| e.resume.value == Done
        || trigger.value.originStage.None?
        || KeyOf(e.resume.value) != KeyOf(trigger.value.originStage.value))
  }

  function HintName(h: DispositionHint): string {
    match h
    case ResumeHint => "resume"
    case AdvanceHint => "advance"
    case DoneHint => "done"
  }

  function HintDisposition(h: DispositionHint): Disposition {
    match h
    case ResumeHint => Resumed
    case AdvanceHint => Advanced
    case DoneHint => Completed
  }

  function RecoverySuccessDelta(s: TaskState, e: Event): StateDelta {
    var outcome :=
      if e.RecoverySucceeded? && s.trigger.Some? then
        Some(RecoveryOutcome(
          s.trigger.value, HintName(e.hint), HintDisposition(e.hint), None,
          "Recovery " + HintName(e.hint) + "d task via " + (if e.resume.Some? then Name(e.resume.value) else "")))
      else None;
    var preserve :=
      s.trigger.Some? && s.trigger.value.reasonCode == Some("hook_reject_loop")
      && !HookRecoveryProgressed(s.trigger, e);
    StateDelta(
      resetStageRetry := RetryCounterStage(if s.trigger.Some? then s.trigger.value.originStage else None),
      clearTrigger := true,
      appendOutcome := outcome,
      clearHookTracking := !preserve,
      setHookRecoveryInvoked := Some(preserve),
      clearLoop := true,
      clearExplanation := true)
  }

  /** Shared body of the retry and remember effects. */
  function RejectionTrackingDelta(
    s: TaskState, e: Event, stage: PipelineState, increment: bool, target: Option<PipelineState>): StateDelta
  {
    var hook := HookDelta(s, e, Some(false));
    var loop := LoopDelta(s, e, target);
    hook.(incStageRetry := if increment then Some(stage) else None,
          setLoop := loop.setLoop, clearLoop := loop.clearLoop)
  }

  function FailRejectionLoopDelta(s: TaskState, e: Event, target: PipelineState): StateDelta {
    LoopDelta(s, e, Some(target))
    .(failedReason := Some(RejectionLoopDetected), failedMessage := Some(if e.Reject? then e.reason else ""))
  }

  /** A pass wipes the loop only when the passing stage is the tracked one. */
  function ClearCompletedLoopDelta(s: TaskState): StateDelta {
    if s.loop.Some? && KeySpells(KeyOf(s.stage), s.loop.value.rejectionStage)
    then StateDelta(clearLoop := true) else EMPTY_DELTA
  }

  function StashConflictsDelta(s: TaskState, e: Event): StateDelta {
    if !e.MergeConflictDetected? then EMPTY_DELTA
    else StateDelta(setMergeContext := Some(MergeContext(
      e.conflictFiles, (if s.mergeContext.Some? then s.mergeContext.value.attempt else 0) + 1)))
  }

  function FailDelta(s: TaskState, e: Event, reason: FailedReason): StateDelta {
    var hook := if e.Reject? then HookDelta(s, e, None) else EMPTY_DELTA;
    var ended := s.stage == Recovering && s.trigger.Some?;
    var message := FailureMessage(e);
    hook.(
      failedReason := Some(reason),
      failedMessage := Some(message),
      appendOutcome :=
        if ended then
          Some(RecoveryOutcome(
            s.trigger.value,
            if TerminalVerdict(e).Some? then TerminalVerdict(e).value else ReasonName(reason),
            Terminated, Some(reason), message))
        else None,
      clearTrigger := s.stage == Recovering,
      clearLoop := true,
      setExplanation := if ended then Some(Explanation(s.trigger.value, reason, message)) else None)
  }

  const BUDGET_HIT_VERDICT := "budget_hit"

  function ExhaustBudgetDelta(s: TaskState, e: Event): StateDelta {
    var trigger := TriggerFrom(s, e);
    StateDelta(
      failedReason := Some(RecoveryBudgetHitReason),
      failedMessage := Some(trigger.message),
      appendOutcome := Some(RecoveryOutcome(
        trigger, BUDGET_HIT_VERDICT, Terminated, Some(RecoveryBudgetHitReason), trigger.message)),
      setExplanation := Some(Explanation(trigger, RecoveryBudgetHitReason, trigger.message)),
      clearLoop := true)
  }

  datatype Effect =
    | NoEffect
    | EnterPreExecRecovery
    | ClearCompletedRejectionLoop
    | StashConflictFiles
    | IncStageRetry(stage: PipelineState, retryTarget: PipelineState)
    | RememberRejection(owner: PipelineState)
    | FailRejectionLoop(target: PipelineState)
    | Fail(reason: FailedReason)
    | EnterRecovery
    | ExhaustRecoveryBudget
    | RecordRecoverySuccess

  function EffectDelta(f: Effect, s: TaskState, e: Event): StateDelta {
    match f
    case NoEffect => EMPTY_DELTA
    case EnterPreExecRecovery => StateDelta(incPreExec := true)
    case ClearCompletedRejectionLoop => ClearCompletedLoopDelta(s)
    case StashConflictFiles => StashConflictsDelta(s, e)
    case IncStageRetry(stage, target) => RejectionTrackingDelta(s, e, stage, true, Some(target))
    case RememberRejection(stage) => RejectionTrackingDelta(s, e, stage, false, None)
    case FailRejectionLoop(target) => FailRejectionLoopDelta(s, e, target)
    case Fail(reason) => FailDelta(s, e, reason)
    case EnterRecovery => EnterRecoveryDelta(s, e)
    case ExhaustRecoveryBudget => ExhaustBudgetDelta(s, e)
    case RecordRecoverySuccess => RecoverySuccessDelta(s, e)
  }

  /** Tracking a hook touches nothing but the hook fields. */
  lemma HookDeltaIsNarrow(s: TaskState, e: Event, invoked: Option<bool>)
    ensures
      var d := HookDelta(s, e, invoked);
      && d.setTrigger == None && !d.clearTrigger && d.appendOutcome == None
      && d.incStageRetry == None && d.resetStageRetry == None
  {
    hide HookIdentity;
  }

  lemma LoopDeltaIsNarrow(s: TaskState, e: Event, target: Option<PipelineState>)
    ensures
      var d := LoopDelta(s, e, target);
      && d.setTrigger == None && !d.clearTrigger && d.appendOutcome == None
      && d.incStageRetry == None && d.resetStageRetry == None
  {
    hide NextLoop;
  }

  lemma FailDeltaIsNarrow(s: TaskState, e: Event, reason: FailedReason)
    ensures
      var d := FailDelta(s, e, reason);
      && d.setTrigger == None && d.incStageRetry == None && d.resetStageRetry == None
      && (s.stage != Recovering ==> !d.clearTrigger && d.appendOutcome == None)
  {
    hide HookDelta, FailureMessage, TerminalVerdict, ReasonName;
    HookDeltaIsNarrow(s, e, None);
  }

  lemma TrackingDeltaIsNarrow(
    s: TaskState, e: Event, stage: PipelineState, increment: bool, target: Option<PipelineState>)
    ensures
      var d := RejectionTrackingDelta(s, e, stage, increment, target);
      && d.setTrigger == None && !d.clearTrigger && d.appendOutcome == None
      && d.incStageRetry == (if increment then Some(stage) else None) && d.resetStageRetry == None
  {
    hide HookDelta, LoopDelta;
    HookDeltaIsNarrow(s, e, Some(false));
  }

  lemma LoopFailureIsNarrow(s: TaskState, e: Event, target: PipelineState)
    ensures
      var d := FailRejectionLoopDelta(s, e, target);
      && d.setTrigger == None && !d.clearTrigger && d.appendOutcome == None
      && d.incStageRetry == None && d.resetStageRetry == None
  {
    hide LoopDelta;
    LoopDeltaIsNarrow(s, e, Some(target));
  }
}
