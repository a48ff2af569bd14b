/** Recovery vocabulary: what failed, what sent the task into recovery, how it ended
  * (litehive/domain/recovery.py). */
module Recovery {
  import opened Common
  import Text

  datatype TriggerEventKind =
    | RejectKind | SemanticRejectKind | BlockedKind | CrashKind | TimeoutKind
    | StageRetryLimitKind | RetryLimitKind | UnknownKind

  datatype Disposition = Resumed | Advanced | Completed | Terminated

  /** Terminal failure categories (litehive/lifecycle/types.py). */
  datatype FailedReason =
    | HookRejectLoop | RejectionLoopDetected | SemanticReject | RecoveryExhausted | RecoveryBudgetHitReason
    | RecoveryCrashed | RecoveryMissingTargetStage | PreExecRecoveryFailedReason | TimeBudgetExceeded
    | UnrecoverableError

  function ReasonName(r: FailedReason): string {
    match r
    case HookRejectLoop => "hook_reject_loop"
    case RejectionLoopDetected => "rejection_loop_detected"
    case SemanticReject => "semantic_reject"
    case RecoveryExhausted => "recovery_exhausted"
    case RecoveryBudgetHitReason => "recovery_budget_hit"
    case RecoveryCrashed => "recovery_crashed"
    case RecoveryMissingTargetStage => "recovery_missing_target_stage"
    case PreExecRecoveryFailedReason => "pre_exec_recovery_failed"
    case TimeBudgetExceeded => "time_budget_exceeded"
    case UnrecoverableError => "unrecoverable_error"
  }

  datatype FailureFingerprint = FailureFingerprint(fingerprint: string, classification: Option<string>) {
    /** A non-empty classification wins over the raw fingerprint. */
    function BudgetKey(): string {
      if classification.Some? && classification.value != "" then classification.value else fingerprint
    }
  }

  datatype RecoveryTrigger = RecoveryTrigger(
    originStage: Option<PipelineState>,
    kind: TriggerEventKind,
    failure: FailureFingerprint,
    source: Option<string>,
    reasonCode: Option<string>,
    message: string)
  {
    function Origin(): string {
      if originStage.Some? then Name(originStage.value) else "<unknown>"
    }

    /** Budgets are scoped to the stage that failed. */
    function BudgetKey(): string {
      Origin() + [':'] + failure.BudgetKey()
    }
  }

  datatype RecoveryOutcome = RecoveryOutcome(
    trigger: RecoveryTrigger,
    verdict: string,
    disposition: Disposition,
    reasonCode: Option<FailedReason>,
    message: string)

  /** What the operator-facing failure sentence is rendered from. */
  datatype Explanation = Explanation(trigger: RecoveryTrigger, reason: FailedReason, message: string)

  lemma NamesAreDistinct(p: PipelineState, q: PipelineState)
    requires Name(p) == Name(q)
    ensures p == q
  {
  }

  /** No key separator occurs in the text. */
  predicate Plain(s: string) {
    forall k :: 0 <= k < |s| ==> s[k] != ':' && s[k] != '|' && s[k] != '<'
  }

  predicate IsPreHook(p: PipelineState) {
    p == BeforeGrooming || p == BeforeImplementing || p == BeforeTesting || p == BeforeAccepting
  }

  lemma PreHookNamesArePlain(p: PipelineState)
    requires IsPreHook(p)
    ensures Plain(Name(p))
  {
  }

  lemma PostHookNamesArePlain(p: PipelineState)
    requires IsHookPhase(p) && !IsPreHook(p)
    ensures Plain(Name(p))
  {
  }

  lemma WorkStageNamesArePlain(p: PipelineState)
    requires IsStagePhase(p) && !IsHookPhase(p)
    ensures Plain(Name(p))
  {
  }

  lemma NamesArePlain(p: PipelineState)
    ensures Plain(Name(p))
  {
    if IsPreHook(p) {
      PreHookNamesArePlain(p);
    } else if IsHookPhase(p) {
      PostHookNamesArePlain(p);
    } else if IsStagePhase(p) {
      WorkStageNamesArePlain(p);
    }
  }

  /**
    * Two triggers compete for the same budget exactly when they failed in the same stage
    * and share the fingerprint's own key: composed keys never collide.
    */
  lemma BudgetKeysDoNotCollide(a: RecoveryTrigger, b: RecoveryTrigger)
    ensures a.BudgetKey() == b.BudgetKey() <==>
            a.originStage == b.originStage && a.failure.BudgetKey() == b.failure.BudgetKey()
  {
    if a.BudgetKey() == b.BudgetKey() {
      if a.originStage.Some? { NamesArePlain(a.originStage.value); }
      if b.originStage.Some? { NamesArePlain(b.originStage.value); }
      assert "<unknown>"[0] == '<';
      Text.SeparatorSplits(a.Origin(), b.Origin(), ':', a.failure.BudgetKey(), b.failure.BudgetKey());
      if a.originStage.Some? && b.originStage.Some? {
        NamesAreDistinct(a.originStage.value, b.originStage.value);
      }
    }
  }
}
