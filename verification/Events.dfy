/** The event vocabulary of the pipeline state machine (litehive/lifecycle/events.py). */
module Events {
  import opened Common
  import opened Recovery

  datatype Source = Agent | Hook | Guard | System

  /** The hook description a hook node puts into a reject's metadata. */
  datatype HookMeta = HookMeta(
    point: Option<PipelineState>, command: string, description: string, fingerprint: string)

  datatype DispositionHint = ResumeHint | AdvanceHint | DoneHint

  /**
    * Rejects carry the metadata entries the lifecycle layer reads. A missing `resume`
    * stands for a blank resume target. The time-budget event carries its rendered message.
    */
  datatype Event =
    | Pass(filesChanged: Option<int>, testsAdded: Option<int>)
    | HookOk
    | CleanState
    | NeedsPreExecRecovery
    | Reject(
        source: Source, reason: string, classification: Option<string>,
        reasonCode: Option<string>, hook: Option<HookMeta>, streak: Option<int>)
    | MergeConflictDetected(conflictFiles: seq<string>)
    | Blocked(blockage: string)
    | Crash(excType: string, message: string)
    | Timeout
    | StageRetryLimitHit(exhausted: PipelineState)
    | OverallRetryLimitHit
    | TaskTimeBudgetExceeded(rendered: string)
    | RecoverySucceeded(resume: Option<PipelineState>, hint: DispositionHint)
    | RecoveryFailed(explanation: string)
    | RecoveryBudgetHit
    | PreExecRecoverySucceeded(resumeStage: PipelineState)
    | PreExecRecoveryFailed(cause: string)
    | PreExecRecoveryBudgetHit

  const SEMANTIC_REJECT_CLASSIFICATION := "semantic_reject"

  function SourceName(s: Source): string {
    match s
    case Agent => "agent"
    case Hook => "hook"
    case Guard => "guard"
    case System => "system"
  }

  function TriggerKind(e: Event): TriggerEventKind {
    match e
    case Reject(_, _, classification, _, _, _) =>
      if classification == Some(SEMANTIC_REJECT_CLASSIFICATION) then SemanticRejectKind else RejectKind
    case Blocked(_) => BlockedKind
    case Crash(_, _) => CrashKind
    case Timeout => TimeoutKind
    case StageRetryLimitHit(_) => StageRetryLimitKind
    case OverallRetryLimitHit => RetryLimitKind
    case _ => UnknownKind
  }

  function FailureMessage(e: Event): string {
    match e
    case Reject(_, reason, _, _, _, _) => reason
    case Blocked(blockage) => blockage
    case Crash(_, message) => message
    case StageRetryLimitHit(p) => "Stage retry limit exhausted for " + Name(p)
    case OverallRetryLimitHit => "Overall retry limit exhausted"
    case TaskTimeBudgetExceeded(rendered) => rendered
    case RecoveryFailed(explanation) => explanation
    case _ => ""
  }

  function FailureSource(e: Event): Option<string> {
    if e.Reject? then Some(SourceName(e.source)) else None
  }

  /** The verdict label of an event that ends a recovery, when it has one of its own. */
  function TerminalVerdict(e: Event): Option<string> {
    match e
    case Crash(_, _) => Some("crash")
    case Timeout => Some("timeout")
    case RecoveryFailed(_) => Some("failed")
    case RecoveryBudgetHit => Some("budget_hit")
    case _ => None
  }

  /** Lower-cased class name, the fingerprint of events without one of their own. */
  function ClassName(e: Event): string {
    match e
    case Pass(_, _) => "pass"
    case HookOk => "hookok"
    case CleanState => "cleanstate"
    case NeedsPreExecRecovery => "needspreexecrecovery"
    case Reject(_, _, _, _, _, _) => "reject"
    case MergeConflictDetected(_) => "mergeconflictdetected"
    case Blocked(_) => "blocked"
    case Crash(_, _) => "crash"
    case Timeout => "timeout"
    case StageRetryLimitHit(_) => "stageretrylimithit"
    case OverallRetryLimitHit => "overallretrylimithit"
    case TaskTimeBudgetExceeded(_) => "tasktimebudgetexceeded"
    case RecoverySucceeded(_, _) => "recoverysucceeded"
    case RecoveryFailed(_) => "recoveryfailed"
    case RecoveryBudgetHit => "recoverybudgethit"
    case PreExecRecoverySucceeded(_) => "preexecrecoverysucceeded"
    case PreExecRecoveryFailed(_) => "preexecrecoveryfailed"
    case PreExecRecoveryBudgetHit => "preexecrecoverybudgethit"
  }
}
