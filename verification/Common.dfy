/** Stage vocabulary shared by the lifecycle modules (litehive/domain/common.py). */
module Common {

  datatype Option<+T> = None | Some(value: T)

  /** Canonical positions of the pipeline state machine. */
  datatype PipelineState =
    | Ready | WorktreeSync | RecoveringPreExec
    | BeforeGrooming | Grooming | AfterGrooming
    | BeforeImplementing | Implementing | AfterImplementing
    | BeforeTesting | Testing | AfterTesting
    | BeforeAccepting | Accepting | AfterAccepting
    | Commit | AfterCommit | MergeResolving
    | Recovering | Done | Failed

  /** Operator-facing work phases. */
  datatype TaskStage = GroomingStage | ImplementingStage | TestingStage | AcceptingStage | CommitStage

  datatype PipelineMode = Single | Full

  function Name(p: PipelineState): string {
    match p
    case Ready => "ready"
    case WorktreeSync => "worktree_sync"
    case RecoveringPreExec => "recovering_pre_exec"
    case BeforeGrooming => "before_grooming"
    case Grooming => "grooming"
    case AfterGrooming => "after_grooming"
    case BeforeImplementing => "before_implementing"
    case Implementing => "implementing"
    case AfterImplementing => "after_implementing"
    case BeforeTesting => "before_testing"
    case Testing => "testing"
    case AfterTesting => "after_testing"
    case BeforeAccepting => "before_accepting"
    case Accepting => "accepting"
    case AfterAccepting => "after_accepting"
    case Commit => "commit"
    case AfterCommit => "after_commit"
    case MergeResolving => "merge_resolving"
    case Recovering => "recovering"
    case Done => "done"
    case Failed => "failed"
  }

  /** The work phase that owns a position; note that RECOVERING is filed under grooming. */
  function Bucket(p: PipelineState): Option<TaskStage> {
    match p
    case BeforeGrooming | Grooming | AfterGrooming | Recovering => Some(GroomingStage)
    case BeforeImplementing | Implementing | AfterImplementing => Some(ImplementingStage)
    case BeforeTesting | Testing | AfterTesting => Some(TestingStage)
    case BeforeAccepting | Accepting | AfterAccepting => Some(AcceptingStage)
    case Commit | AfterCommit | MergeResolving => Some(CommitStage)
    case Ready | WorktreeSync | RecoveringPreExec | Done | Failed => None
  }

  function RetryCounterState(t: TaskStage): PipelineState {
    match t
    case GroomingStage => Grooming
    case ImplementingStage => Implementing
    case TestingStage => Testing
    case AcceptingStage => Accepting
    case CommitStage => Commit
  }

  /**
    * The coarse key of a position: its work phase, or the position itself when it
    * belongs to none.
    */
  datatype StageKey = Phase(stage: TaskStage) | Raw(state: PipelineState)

  function KeyOf(p: PipelineState): StageKey {
    match Bucket(p)
    case Some(t) => Phase(t)
    case None => Raw(p)
  }

  /** Keys and positions are compared by their spelling; "commit_to_git" spells no position. */
  predicate KeySpells(k: StageKey, p: PipelineState) {
    match k
    case Phase(t) => t != CommitStage && RetryCounterState(t) == p
    case Raw(q) => q == p
  }

  /** The executable stage that owns a phase. */
  function Primary(p: PipelineState): PipelineState {
    match p
    case BeforeGrooming | AfterGrooming | Recovering => Grooming
    case BeforeImplementing | AfterImplementing => Implementing
    case BeforeTesting | AfterTesting => Testing
    case BeforeAccepting | AfterAccepting => Accepting
    case AfterCommit => Commit
    case _ => p
  }

  /** Stages a launch or a recovery may name; each is entered through its pre-hook phase. */
  predicate InStages(p: PipelineState) {
    p == Grooming || p == Implementing || p == Testing || p == Accepting || p == Commit
  }

  function EntryPhase(p: PipelineState): PipelineState
    requires InStages(p)
  {
    match p
    case Grooming => BeforeGrooming
    case Implementing => BeforeImplementing
    case Testing => BeforeTesting
    case Accepting => BeforeAccepting
    case _ => Commit
  }

  /** The wildcard set ALL_STAGE_PHASES. */
  predicate IsStagePhase(p: PipelineState) {
    match p
    case Ready | WorktreeSync | RecoveringPreExec | MergeResolving | Recovering | Done | Failed => false
    case _ => true
  }

  predicate IsHookPhase(p: PipelineState) {
    match p
    case BeforeGrooming | AfterGrooming | BeforeImplementing | AfterImplementing
       | BeforeTesting | AfterTesting | BeforeAccepting | AfterAccepting | AfterCommit => true
    case _ => false
  }

  predicate IsAgentStage(p: PipelineState) {
    p == Grooming || p == Implementing || p == Testing || p == Accepting
  }

  predicate IsTerminal(p: PipelineState) {
    p == Done || p == Failed
  }
}
