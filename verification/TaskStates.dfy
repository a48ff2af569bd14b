/** The cursor the machine reads and writes (litehive/lifecycle/persistence.py). */
module TaskStates {
  import opened Common
  import opened Recovery
  import opened Events

  datatype Limits = Limits(stageRetry: int, sameHookReject: int, rejectionLoop: int)

  datatype LastReport = LastReport(filesChanged: int, testsAdded: int, hookOk: bool)

  /** Identity of a hook that rejected; two rejects are the same hook iff `id` agrees. */
  datatype HookFingerprint = HookFingerprint(
    point: PipelineState, command: string, description: string, id: string)

  datatype MergeContext = MergeContext(conflictFiles: seq<string>, attempt: int)

  datatype RejectionLoop = RejectionLoop(
    rejectionStage: PipelineState, retryTarget: PipelineState, count: int)

  datatype TaskState = TaskState(
    stage: PipelineState,
    mode: PipelineMode,
    entryStage: Option<PipelineState>,
    stageRetry: map<PipelineState, nat>,
    trigger: Option<RecoveryTrigger>,
    history: seq<RecoveryOutcome>,
    budgetStart: int,
    preExecAttempt: int,
    mergeContext: Option<MergeContext>,
    report: LastReport,
    loop: Option<RejectionLoop>,
    hookStreak: int,
    hookFingerprint: Option<HookFingerprint>,
    hookRecoveryInvoked: bool,
    failedReason: Option<FailedReason>,
    failedMessage: Option<string>,
    explanation: Option<Explanation>,
    limits: Limits)
  {
    function Retries(p: PipelineState): nat {
      if p in stageRetry then stageRetry[p] else 0
    }

    /** The slice of the history that counts toward the current budget window. */
    function Window(): seq<RecoveryOutcome> {
      var start := if budgetStart < 0 then 0 else budgetStart;
      if start <= |history| then history[start..] else []
    }

    function BudgetAvailable(t: RecoveryTrigger): bool {
      if t.reasonCode == Some("hook_reject_loop") then
        !hookRecoveryInvoked
      else
        WindowUnconsumed(Window(), t.BudgetKey())
    }
  }

  /** No outcome of the window was spent on this budget key. */
  predicate WindowUnconsumed(window: seq<RecoveryOutcome>, key: string) {
    forall i :: 0 <= i < |window| ==> window[i].trigger.BudgetKey() != key
  }

  /**
    * A launch: a fresh cursor that keeps the recovery history of earlier runs but opens
    * a new budget window after it (litehive/lifecycle/launch_state.py).
    */
  function Launch(
    mode: PipelineMode, entryStage: Option<PipelineState>, history: seq<RecoveryOutcome>, limits: Limits): TaskState
  {
    TaskState(Ready, mode, entryStage, map[], None, history, |history|, 0, None,
              LastReport(0, 0, false), None, 0, None, false, None, None, None, limits)
  }
}
