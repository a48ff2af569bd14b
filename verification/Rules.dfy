/**
  * The transition rule table and its evaluation
  * (litehive/lifecycle/rules.py, guards.py and transitions.py).
  */
module Rules {
  import opened Common
  import opened Recovery
  import opened Events
  import opened TaskStates
  import opened Deltas

  datatype EventKind =
    | OnPass | OnHookOk | OnCleanState | OnNeedsPreExecRecovery | OnReject | OnMergeConflict | OnBlocked
    | OnCrash | OnTimeout | OnStageRetryLimit | OnOverallRetryLimit | OnTimeBudget
    | OnRecoverySucceeded | OnRecoveryFailed | OnRecoveryBudgetHit
    | OnPreExecSucceeded | OnPreExecFailed | OnPreExecBudgetHit

  function KindOf(e: Event): EventKind {
    match e
    case Pass(_, _) => OnPass
    case HookOk => OnHookOk
    case CleanState => OnCleanState
    case NeedsPreExecRecovery => OnNeedsPreExecRecovery
    case Reject(_, _, _, _, _, _) => OnReject
    case MergeConflictDetected(_) => OnMergeConflict
    case Blocked(_) => OnBlocked
    case Crash(_, _) => OnCrash
    case Timeout => OnTimeout
    case StageRetryLimitHit(_) => OnStageRetryLimit
    case OverallRetryLimitHit => OnOverallRetryLimit
    case TaskTimeBudgetExceeded(_) => OnTimeBudget
    case RecoverySucceeded(_, _) => OnRecoverySucceeded
    case RecoveryFailed(_) => OnRecoveryFailed
    case RecoveryBudgetHit => OnRecoveryBudgetHit
    case PreExecRecoverySucceeded(_) => OnPreExecSucceeded
    case PreExecRecoveryFailed(_) => OnPreExecFailed
    case PreExecRecoveryBudgetHit => OnPreExecBudgetHit
  }

  datatype FromState = At(state: PipelineState) | AnyStagePhase

  datatype GuardSpec =
    | Always
    | ModeIs(mode: PipelineMode)
    | SingleWithoutChanges
    | RetriesRemaining(stage: PipelineState)
    | RetriesExhausted(stage: PipelineState)
    | RetriesExhaustedHooksGreen(stage: PipelineState)
    | HookLoopFound
    | RejectionLoopFound
    | BudgetLeft
    | BudgetSpent
    | ResumeIsConcrete

  datatype Target = To(state: PipelineState) | EntryFromWorktreeSync | ResumeFromOrigin | ResumeFromPreExec

  datatype Rule = Rule(from: FromState, on: EventKind, target: Target, guard: GuardSpec, effect: Effect)

  predicate FromMatches(f: FromState, current: PipelineState) {
    match f
    case At(p) => p == current
    case AnyStagePhase => IsStagePhase(current)
  }

  /** Everything the guards read of a state and an event. */
  datatype Facts = Facts(
    mode: PipelineMode,
    noChanges: bool,
    retries: map<PipelineState, nat>,
    retryLimit: int,
    hooksGreen: bool,
    hookLoop: bool,
    rejectionLoop: bool,
    budgetLeft: bool,
    concrete: bool)
  {
    predicate Exhausted(p: PipelineState) {
      (if p in retries then retries[p] else 0) >= retryLimit
    }
  }

  /** Rejections only ever bounce to implementing, so that is the loop the guards look for. */
  function FactsOf(s: TaskState, e: Event): Facts {
    Facts(
      s.mode,
      s.report.filesChanged == 0 && s.report.testsAdded == 0,
      s.stageRetry,
      s.limits.stageRetry,
      s.report.hookOk,
      HookLoopDetected(s, e),
      LoopDetected(s, e, Some(Implementing)),
      s.BudgetAvailable(TriggerFrom(s, e)),
      e.RecoverySucceeded? && e.resume.Some?)
  }

  predicate Holds(g: GuardSpec, x: Facts) {
    match g
    case Always => true
    case ModeIs(m) => x.mode == m
    case SingleWithoutChanges => x.mode == Single && x.noChanges
    case RetriesRemaining(p) => !x.Exhausted(p)
    case RetriesExhausted(p) => x.Exhausted(p)
    case RetriesExhaustedHooksGreen(p) => x.Exhausted(p) && x.hooksGreen
    case HookLoopFound => x.hookLoop
    case RejectionLoopFound => x.rejectionLoop
    case BudgetLeft => x.budgetLeft
    case BudgetSpent => !x.budgetLeft
    case ResumeIsConcrete => x.concrete
  }

  predicate Matches(r: Rule, p: PipelineState, k: EventKind, x: Facts) {
    FromMatches(r.from, p) && r.on == k && Holds(r.guard, x)
  }

  /** The position a rule leads to; None where the source raises instead. */
  function Resolve(t: Target, s: TaskState, e: Event): Option<PipelineState> {
    match t
    case To(p) => Some(p)
    case EntryFromWorktreeSync =>
      if s.entryStage.Some? then Some(EntryOf(s.entryStage.value))
      else Some(if s.mode == Single then BeforeImplementing else BeforeGrooming)
    case ResumeFromOrigin =>
      if !e.RecoverySucceeded? then None
      else if e.resume.Some? then Some(EntryOf(e.resume.value))
      else if s.trigger.Some? && s.trigger.value.originStage.Some? && InStages(s.trigger.value.originStage.value)
      then Some(EntryPhase(s.trigger.value.originStage.value))
      else None
    case ResumeFromPreExec =>
      if e.PreExecRecoverySucceeded? then Some(EntryOf(e.resumeStage)) else None
  }

  /** A stage name enters through its pre-hook phase; any other position is entered directly. */
  function EntryOf(p: PipelineState): PipelineState {
    if InStages(p) then EntryPhase(p) else p
  }

  // ----- the table ---------------------------------------------------------------------

  /** A table from the top row down. */
  datatype RuleList = End | Then(rule: Rule, rest: RuleList)

  /** The first rule, top to bottom, that accepts the position, the event and the guards' facts. */
  function FirstMatch(rules: RuleList, p: PipelineState, k: EventKind, x: Facts): Option<Rule> {
    match rules
    case End => None
    case Then(rule, rest) => if Matches(rule, p, k, x) then Some(rule) else FirstMatch(rest, p, k, x)
  }

  datatype Row = Row(target: Target, effect: Effect)

  /** Where the rules lead and with which effect. */
  function Decide(rules: RuleList, p: PipelineState, k: EventKind, x: Facts): Option<Row> {
    match FirstMatch(rules, p, k, x)
    case None => None
    case Some(rule) => Some(Row(rule.target, rule.effect))
  }

  /** The decision of one rule, falling through to what comes after it. */
  function Try(r: Rule, p: PipelineState, k: EventKind, x: Facts, rest: Option<Row>): Option<Row> {
    if Matches(r, p, k, x) then Some(Row(r.target, r.effect)) else rest
  }

  // Short runs of rows. Each decides by its rows in order and falls through to the rest.

  function Rows1(a: Rule, rest: RuleList): (rs: RuleList)
    ensures forall p, k, x :: Decide(rs, p, k, x) == Try(a, p, k, x, Decide(rest, p, k, x))
  {
    Then(a, rest)
  }

  function Rows2(a: Rule, b: Rule, rest: RuleList): (rs: RuleList)
    ensures forall p, k, x :: Decide(rs, p, k, x) == Try(a, p, k, x, Try(b, p, k, x, Decide(rest, p, k, x)))
  {
    Rows1(a, Rows1(b, rest))
  }

  function Rows3(a: Rule, b: Rule, c: Rule, rest: RuleList): (rs: RuleList)
    ensures forall p, k, x ::
      Decide(rs, p, k, x) == Try(a, p, k, x, Try(b, p, k, x, Try(c, p, k, x, Decide(rest, p, k, x))))
  {
    Rows1(a, Rows2(b, c, rest))
  }

  function Rows4(a: Rule, b: Rule, c: Rule, d: Rule, rest: RuleList): (rs: RuleList)
    ensures forall p, k, x ::
      Decide(rs, p, k, x) ==
      Try(a, p, k, x, Try(b, p, k, x, Try(c, p, k, x, Try(d, p, k, x, Decide(rest, p, k, x)))))
  {
    Rows1(a, Rows3(b, c, d, rest))
  }

  function RecoveryRules(from: FromState, on: EventKind, rest: RuleList): RuleList {
    Rows2(
      Rule(from, on, To(Failed), BudgetSpent, ExhaustRecoveryBudget),
      Rule(from, on, To(Recovering), BudgetLeft, EnterRecovery),
      rest)
  }

  function TerminalReject(p: PipelineState): Rule {
    Rule(At(p), OnReject, To(Failed), Always, Fail(SemanticReject))
  }

  /** The four reject rows of one phase of a retryable epoch; retries go to implementing. */
  function RetryRules(counter: PipelineState, phase: PipelineState, rest: RuleList): RuleList {
    Rows4(
      Rule(At(phase), OnReject, To(Failed), RejectionLoopFound, FailRejectionLoop(Implementing)),
      Rule(At(phase), OnReject, To(Failed), HookLoopFound, Fail(HookRejectLoop)),
      Rule(At(phase), OnReject, To(Implementing), RetriesRemaining(counter), IncStageRetry(counter, Implementing)),
      Rule(At(phase), OnReject, To(Failed), RetriesExhausted(counter), Fail(SemanticReject)),
      rest)
  }

  /** Reject rows of a whole retryable epoch. */
  function RetryEpochRules(
    counter: PipelineState, before: PipelineState, work: PipelineState, after: PipelineState, rest: RuleList): RuleList
  {
    RetryRules(counter, before, RetryRules(counter, work, RetryRules(counter, after, rest)))
  }

  function Step(p: PipelineState, on: EventKind, to: PipelineState, f: Effect): Rule {
    Rule(At(p), on, To(to), Always, f)
  }

  /** Entry probe and worktree sync. */
  function EntryRules(rest: RuleList): RuleList {
    Rows4(
      Step(Ready, OnCleanState, WorktreeSync, NoEffect),
      Step(Ready, OnNeedsPreExecRecovery, RecoveringPreExec, EnterPreExecRecovery),
      Rule(At(WorktreeSync), OnPass, EntryFromWorktreeSync, Always, NoEffect),
      TerminalReject(WorktreeSync),
      RecoveryRules(At(WorktreeSync), OnCrash,
      RecoveryRules(At(WorktreeSync), OnTimeout, rest)))
  }

  function PreExecRules(rest: RuleList): RuleList {
    Rows3(
      Rule(At(RecoveringPreExec), OnPreExecSucceeded, ResumeFromPreExec, Always, NoEffect),
      Step(RecoveringPreExec, OnPreExecFailed, Failed, Fail(PreExecRecoveryFailedReason)),
      Step(RecoveringPreExec, OnPreExecBudgetHit, Failed, Fail(PreExecRecoveryFailedReason)),
      Rows2(
        Step(RecoveringPreExec, OnCrash, Failed, Fail(RecoveryCrashed)),
        Step(RecoveringPreExec, OnTimeout, Failed, Fail(RecoveryCrashed)),
        rest))
  }

  function GroomingRules(rest: RuleList): RuleList {
    Rows3(
      Step(BeforeGrooming, OnHookOk, Grooming, NoEffect),
      Step(Grooming, OnPass, AfterGrooming, ClearCompletedRejectionLoop),
      Step(AfterGrooming, OnHookOk, BeforeImplementing, NoEffect),
      rest)
  }

  function ImplementingRules(rest: RuleList): RuleList {
    Rows2(
      Step(BeforeImplementing, OnHookOk, Implementing, NoEffect),
      Step(Implementing, OnPass, AfterImplementing, ClearCompletedRejectionLoop),
      Rows3(
        Rule(At(AfterImplementing), OnHookOk, To(Done), SingleWithoutChanges, NoEffect),
        Rule(At(AfterImplementing), OnHookOk, To(Commit), ModeIs(Single), NoEffect),
        Rule(At(AfterImplementing), OnHookOk, To(BeforeTesting), ModeIs(Full), NoEffect),
        rest))
  }

  function TestingRules(rest: RuleList): RuleList {
    Rows3(
      Step(BeforeTesting, OnHookOk, Testing, NoEffect),
      Step(Testing, OnPass, AfterTesting, ClearCompletedRejectionLoop),
      Step(AfterTesting, OnHookOk, BeforeAccepting, NoEffect),
      rest)
  }

  function AcceptingRules(rest: RuleList): RuleList {
    Rows3(
      Step(BeforeAccepting, OnHookOk, Accepting, NoEffect),
      Step(Accepting, OnPass, AfterAccepting, ClearCompletedRejectionLoop),
      Step(AfterAccepting, OnHookOk, Commit, NoEffect),
      rest)
  }

  function CommitRules(rest: RuleList): RuleList {
    Rows2(
      Step(Commit, OnPass, AfterCommit, NoEffect),
      Step(AfterCommit, OnHookOk, Done, NoEffect),
      rest)
  }

  function MergeRules(rest: RuleList): RuleList {
    Rows3(
      Step(Commit, OnMergeConflict, MergeResolving, StashConflictFiles),
      Step(MergeResolving, OnPass, AfterCommit, NoEffect),
      TerminalReject(MergeResolving),
      RecoveryRules(At(MergeResolving), OnBlocked,
      RecoveryRules(At(MergeResolving), OnCrash,
      RecoveryRules(At(MergeResolving), OnTimeout, rest))))
  }

  function GroomingRejectRules(rest: RuleList): RuleList {
    Rows3(TerminalReject(BeforeGrooming), TerminalReject(Grooming), TerminalReject(AfterGrooming), rest)
  }

  function ImplementingRejectRules(rest: RuleList): RuleList {
    RetryEpochRules(Implementing, BeforeImplementing, Implementing, AfterImplementing, rest)
  }

  /** A QA reject may be handed to the reviewer once its retries are spent and hooks are green. */
  function TestingRejectRules(rest: RuleList): RuleList {
    Rows1(
      Rule(At(Testing), OnReject, To(Accepting), RetriesExhaustedHooksGreen(Testing), RememberRejection(Accepting)),
      RetryEpochRules(Testing, BeforeTesting, Testing, AfterTesting, rest))
  }

  function AcceptingRejectRules(rest: RuleList): RuleList {
    RetryEpochRules(Accepting, BeforeAccepting, Accepting, AfterAccepting, rest)
  }

  function CommitRejectRules(rest: RuleList): RuleList {
    Rows2(TerminalReject(Commit), TerminalReject(AfterCommit), rest)
  }

  function BlockedRules(rest: RuleList): RuleList {
    RecoveryRules(At(Grooming), OnBlocked,
    RecoveryRules(At(Implementing), OnBlocked,
    RecoveryRules(At(Testing), OnBlocked,
    RecoveryRules(At(Accepting), OnBlocked, rest))))
  }

  function EscalationRules(rest: RuleList): RuleList {
    Rows4(
      Rule(AnyStagePhase, OnStageRetryLimit, To(Failed), Always, Fail(UnrecoverableError)),
      Rule(AnyStagePhase, OnOverallRetryLimit, To(Failed), Always, Fail(UnrecoverableError)),
      Rule(AnyStagePhase, OnTimeBudget, To(Failed), Always, Fail(TimeBudgetExceeded)),
      Step(Recovering, OnTimeBudget, Failed, Fail(TimeBudgetExceeded)),
      rest)
  }

  function RecoveringRules(rest: RuleList): RuleList {
    Rows2(
      Rule(At(Recovering), OnRecoverySucceeded, ResumeFromOrigin, ResumeIsConcrete, RecordRecoverySuccess),
      Step(Recovering, OnRecoverySucceeded, Failed, Fail(RecoveryMissingTargetStage)),
      Rows4(
        Step(Recovering, OnRecoveryFailed, Failed, Fail(RecoveryExhausted)),
        Step(Recovering, OnRecoveryBudgetHit, Failed, Fail(RecoveryBudgetHitReason)),
        Step(Recovering, OnCrash, Failed, Fail(RecoveryCrashed)),
        Step(Recovering, OnTimeout, Failed, Fail(RecoveryCrashed)),
        rest))
  }

  function WildcardRules(rest: RuleList): RuleList {
    RecoveryRules(AnyStagePhase, OnCrash, RecoveryRules(AnyStagePhase, OnTimeout, rest))
  }

  // The rule table, top to bottom, in three parts.

  function HappyPathRules(rest: RuleList): RuleList {
    EntryRules(PreExecRules(GroomingRules(ImplementingRules(TestingRules(AcceptingRules(CommitRules(rest)))))))
  }

  function RejectionRules(rest: RuleList): RuleList {
    MergeRules(GroomingRejectRules(ImplementingRejectRules(TestingRejectRules(
      AcceptingRejectRules(CommitRejectRules(rest))))))
  }

  function FailureRules(rest: RuleList): RuleList {
    BlockedRules(EscalationRules(RecoveringRules(WildcardRules(rest))))
  }

  function Table(): RuleList {
    HappyPathRules(RejectionRules(FailureRules(End)))
  }

  // ----- evaluation --------------------------------------------------------------------

  datatype Transition = Transition(next: PipelineState, delta: StateDelta)

  /** What a matched rule does; None where resolving its target raises. */
  function Fire(target: Target, effect: Effect, s: TaskState, e: Event): Option<Transition> {
    match Resolve(target, s, e)
    case None => None
    case Some(next) => Some(Transition(next, EffectDelta(effect, s, e)))
  }

  /** Walks the rules in order and fires the first that accepts. */
  method Evaluate(rules: RuleList, s: TaskState, e: Event) returns (t: Option<Transition>)
    ensures
      match FirstMatch(rules, s.stage, KindOf(e), FactsOf(s, e))
      case None => t == None
      case Some(r) => t == Fire(r.target, r.effect, s, e)
  {
    var p, k, x := s.stage, KindOf(e), FactsOf(s, e);
    var rest := rules;
    while rest.Then?
      invariant FirstMatch(rules, p, k, x) == FirstMatch(rest, p, k, x)
      decreases rest
    {
      if Matches(rest.rule, p, k, x) {
        return Fire(rest.rule.target, rest.rule.effect, s, e);
      }
      rest := rest.rest;
    }
    return None;
  }

  // ----- the table as a decision -------------------------------------------------------

  function RecoveryRow(x: Facts): Row {
    if x.budgetLeft then Row(To(Recovering), EnterRecovery) else Row(To(Failed), ExhaustRecoveryBudget)
  }

  function RetryRow(counter: PipelineState, x: Facts): Row {
    if x.rejectionLoop then Row(To(Failed), FailRejectionLoop(Implementing))
    else if x.hookLoop then Row(To(Failed), Fail(HookRejectLoop))
    else if !x.Exhausted(counter) then Row(To(Implementing), IncStageRetry(counter, Implementing))
    else Row(To(Failed), Fail(SemanticReject))
  }

  function PassRow(p: PipelineState): Option<Row> {
    match p
    case WorktreeSync => Some(Row(EntryFromWorktreeSync, NoEffect))
    case Grooming => Some(Row(To(AfterGrooming), ClearCompletedRejectionLoop))
    case Implementing => Some(Row(To(AfterImplementing), ClearCompletedRejectionLoop))
    case Testing => Some(Row(To(AfterTesting), ClearCompletedRejectionLoop))
    case Accepting => Some(Row(To(AfterAccepting), ClearCompletedRejectionLoop))
    case Commit | MergeResolving => Some(Row(To(AfterCommit), NoEffect))
    case _ => None
  }

  function HookOkRow(p: PipelineState, x: Facts): Option<Row> {
    match p
    case BeforeGrooming => Some(Row(To(Grooming), NoEffect))
    case AfterGrooming => Some(Row(To(BeforeImplementing), NoEffect))
    case BeforeImplementing => Some(Row(To(Implementing), NoEffect))
    case AfterImplementing =>
      Some(Row(To(if x.mode == Full then BeforeTesting else if x.noChanges then Done else Commit), NoEffect))
    case BeforeTesting => Some(Row(To(Testing), NoEffect))
    case AfterTesting => Some(Row(To(BeforeAccepting), NoEffect))
    case BeforeAccepting => Some(Row(To(Accepting), NoEffect))
    case AfterAccepting => Some(Row(To(Commit), NoEffect))
    case AfterCommit => Some(Row(To(Done), NoEffect))
    case _ => None
  }

  function RejectRow(p: PipelineState, x: Facts): Option<Row> {
    match p
    case WorktreeSync | MergeResolving | BeforeGrooming | Grooming | AfterGrooming | Commit | AfterCommit =>
      Some(Row(To(Failed), Fail(SemanticReject)))
    case BeforeImplementing | Implementing | AfterImplementing => Some(RetryRow(Implementing, x))
    case Testing =>
      if x.Exhausted(Testing) && x.hooksGreen then Some(Row(To(Accepting), RememberRejection(Accepting)))
      else Some(RetryRow(Testing, x))
    case BeforeTesting | AfterTesting => Some(RetryRow(Testing, x))
    case BeforeAccepting | Accepting | AfterAccepting => Some(RetryRow(Accepting, x))
    case _ => None
  }

  /** Crashes and timeouts. */
  function BreakdownRow(p: PipelineState, x: Facts): Option<Row> {
    if p == RecoveringPreExec || p == Recovering then Some(Row(To(Failed), Fail(RecoveryCrashed)))
    else if p == WorktreeSync || p == MergeResolving || IsStagePhase(p) then Some(RecoveryRow(x))
    else None
  }

  function OnlyAt(b: bool, target: Target, f: Effect): Option<Row> {
    if b then Some(Row(target, f)) else None
  }

  /** What the table decides, read by event instead of by row. */
  function Route(p: PipelineState, k: EventKind, x: Facts): Option<Row> {
    match k
    case OnCleanState => OnlyAt(p == Ready, To(WorktreeSync), NoEffect)
    case OnNeedsPreExecRecovery => OnlyAt(p == Ready, To(RecoveringPreExec), EnterPreExecRecovery)
    case OnPass => PassRow(p)
    case OnHookOk => HookOkRow(p, x)
    case OnReject => RejectRow(p, x)
    case OnMergeConflict => OnlyAt(p == Commit, To(MergeResolving), StashConflictFiles)
    case OnBlocked => if p == MergeResolving || IsAgentStage(p) then Some(RecoveryRow(x)) else None
    case OnCrash => BreakdownRow(p, x)
    case OnTimeout => BreakdownRow(p, x)
    case OnStageRetryLimit => OnlyAt(IsStagePhase(p), To(Failed), Fail(UnrecoverableError))
    case OnOverallRetryLimit => OnlyAt(IsStagePhase(p), To(Failed), Fail(UnrecoverableError))
    case OnTimeBudget => OnlyAt(IsStagePhase(p) || p == Recovering, To(Failed), Fail(TimeBudgetExceeded))
    case OnRecoverySucceeded =>
      if p != Recovering then None
      else if x.concrete then Some(Row(ResumeFromOrigin, RecordRecoverySuccess))
      else Some(Row(To(Failed), Fail(RecoveryMissingTargetStage)))
    case OnRecoveryFailed => OnlyAt(p == Recovering, To(Failed), Fail(RecoveryExhausted))
    case OnRecoveryBudgetHit => OnlyAt(p == Recovering, To(Failed), Fail(RecoveryBudgetHitReason))
    case OnPreExecSucceeded => OnlyAt(p == RecoveringPreExec, ResumeFromPreExec, NoEffect)
    case OnPreExecFailed => OnlyAt(p == RecoveringPreExec, To(Failed), Fail(PreExecRecoveryFailedReason))
    case OnPreExecBudgetHit => OnlyAt(p == RecoveringPreExec, To(Failed), Fail(PreExecRecoveryFailedReason))
  }
}
