/** Route answers exactly what the first matching row of the rule table answers. */
module RouteProof {
  import opened Common
  import opened Recovery
  import opened Deltas
  import opened Rules

  lemma RecoveryBlock(from: FromState, on: EventKind, rest: RuleList, p: PipelineState, k: EventKind, x: Facts)
    ensures Decide(RecoveryRules(from, on, rest), p, k, x) ==
            if FromMatches(from, p) && on == k then Some(RecoveryRow(x)) else Decide(rest, p, k, x)
  {
    hide Decide, FirstMatch, Rows1, Rows2, Rows3, Rows4;
  }

  lemma RetryBlock(
      counter: PipelineState, phase: PipelineState, rest: RuleList, p: PipelineState, k: EventKind, x: Facts)
    ensures Decide(RetryRules(counter, phase, rest), p, k, x) ==
            if p == phase && k == OnReject then Some(RetryRow(counter, x)) else Decide(rest, p, k, x)
  {
    hide Decide, FirstMatch, Rows1, Rows2, Rows3, Rows4;
  }

  lemma RetryEpochBlock(
    counter: PipelineState, before: PipelineState, work: PipelineState, after: PipelineState, rest: RuleList,
    p: PipelineState, k: EventKind, x: Facts)
    ensures Decide(RetryEpochRules(counter, before, work, after, rest), p, k, x) ==
            if k == OnReject && (p == before || p == work || p == after)
            then Some(RetryRow(counter, x)) else Decide(rest, p, k, x)
  {
    hide Decide, FirstMatch, Route;
    var last := RetryRules(counter, after, rest);
    var middle := RetryRules(counter, work, last);
    RetryBlock(counter, before, middle, p, k, x);
    RetryBlock(counter, work, last, p, k, x);
    RetryBlock(counter, after, rest, p, k, x);
  }

  // A section answers for its own positions and events and passes everything else on.

  function Within(b: bool, p: PipelineState, k: EventKind, x: Facts, rest: Option<Row>): Option<Row> {
    if b then Route(p, k, x) else rest
  }

  predicate InEntry(p: PipelineState, k: EventKind) {
    || (p == Ready && (k == OnCleanState || k == OnNeedsPreExecRecovery))
    || (p == WorktreeSync && (k == OnPass || k == OnReject || k == OnCrash || k == OnTimeout))
  }

  lemma EntrySection(rest: RuleList, p: PipelineState, k: EventKind, x: Facts)
    ensures Decide(EntryRules(rest), p, k, x) == Within(InEntry(p, k), p, k, x, Decide(rest, p, k, x))
  {
    hide Decide, FirstMatch, Rows1, Rows2, Rows3, Rows4;
    var timeouts := RecoveryRules(At(WorktreeSync), OnTimeout, rest);
    RecoveryBlock(At(WorktreeSync), OnCrash, timeouts, p, k, x);
    RecoveryBlock(At(WorktreeSync), OnTimeout, rest, p, k, x);
  }

  predicate InPreExec(p: PipelineState, k: EventKind) {
    && p == RecoveringPreExec
    && (k == OnPreExecSucceeded || k == OnPreExecFailed || k == OnPreExecBudgetHit || k == OnCrash || k == OnTimeout)
  }

  lemma PreExecSection(rest: RuleList, p: PipelineState, k: EventKind, x: Facts)
    ensures Decide(PreExecRules(rest), p, k, x) == Within(InPreExec(p, k), p, k, x, Decide(rest, p, k, x))
  {
    hide Decide, FirstMatch, Rows1, Rows2, Rows3, Rows4;
  }

  predicate InGrooming(p: PipelineState, k: EventKind) {
    (k == OnHookOk && (p == BeforeGrooming || p == AfterGrooming)) || (k == OnPass && p == Grooming)
  }

  lemma GroomingSection(rest: RuleList, p: PipelineState, k: EventKind, x: Facts)
    ensures Decide(GroomingRules(rest), p, k, x) == Within(InGrooming(p, k), p, k, x, Decide(rest, p, k, x))
  {
    hide Decide, FirstMatch, Rows1, Rows2, Rows3, Rows4;
  }

  predicate InImplementing(p: PipelineState, k: EventKind) {
    || (k == OnHookOk && (p == BeforeImplementing || p == AfterImplementing))
    || (k == OnPass && p == Implementing)
  }

  lemma ImplementingSection(rest: RuleList, p: PipelineState, k: EventKind, x: Facts)
    ensures Decide(ImplementingRules(rest), p, k, x) == Within(InImplementing(p, k), p, k, x, Decide(rest, p, k, x))
  {
    hide Decide, FirstMatch, Rows1, Rows2, Rows3, Rows4;
  }

  predicate InTesting(p: PipelineState, k: EventKind) {
    (k == OnHookOk && (p == BeforeTesting || p == AfterTesting)) || (k == OnPass && p == Testing)
  }

  lemma TestingSection(rest: RuleList, p: PipelineState, k: EventKind, x: Facts)
    ensures Decide(TestingRules(rest), p, k, x) == Within(InTesting(p, k), p, k, x, Decide(rest, p, k, x))
  {
    hide Decide, FirstMatch, Rows1, Rows2, Rows3, Rows4;
  }

  predicate InAccepting(p: PipelineState, k: EventKind) {
    (k == OnHookOk && (p == BeforeAccepting || p == AfterAccepting)) || (k == OnPass && p == Accepting)
  }

  lemma AcceptingSection(rest: RuleList, p: PipelineState, k: EventKind, x: Facts)
    ensures Decide(AcceptingRules(rest), p, k, x) == Within(InAccepting(p, k), p, k, x, Decide(rest, p, k, x))
  {
    hide Decide, FirstMatch, Rows1, Rows2, Rows3, Rows4;
  }

  predicate InCommit(p: PipelineState, k: EventKind) {
    (k == OnHookOk && p == AfterCommit) || (k == OnPass && p == Commit)
  }

  lemma CommitSection(rest: RuleList, p: PipelineState, k: EventKind, x: Facts)
    ensures Decide(CommitRules(rest), p, k, x) == Within(InCommit(p, k), p, k, x, Decide(rest, p, k, x))
  {
    hide Decide, FirstMatch, Rows1, Rows2, Rows3, Rows4;
  }

  predicate InMerge(p: PipelineState, k: EventKind) {
    || (k == OnMergeConflict && p == Commit)
    || (p == MergeResolving && (k == OnPass || k == OnReject || k == OnBlocked || k == OnCrash || k == OnTimeout))
  }

  lemma MergeSection(rest: RuleList, p: PipelineState, k: EventKind, x: Facts)
    ensures Decide(MergeRules(rest), p, k, x) == Within(InMerge(p, k), p, k, x, Decide(rest, p, k, x))
  {
    hide Decide, FirstMatch, Rows1, Rows2, Rows3, Rows4;
    var timeouts := RecoveryRules(At(MergeResolving), OnTimeout, rest);
    var crashes := RecoveryRules(At(MergeResolving), OnCrash, timeouts);
    RecoveryBlock(At(MergeResolving), OnBlocked, crashes, p, k, x);
    RecoveryBlock(At(MergeResolving), OnCrash, timeouts, p, k, x);
    RecoveryBlock(At(MergeResolving), OnTimeout, rest, p, k, x);
  }

  predicate InGroomingReject(p: PipelineState, k: EventKind) {
    k == OnReject && (p == BeforeGrooming || p == Grooming || p == AfterGrooming)
  }

  lemma GroomingRejectSection(rest: RuleList, p: PipelineState, k: EventKind, x: Facts)
    ensures Decide(GroomingRejectRules(rest), p, k, x) == Within(InGroomingReject(p, k), p, k, x, Decide(rest, p, k, x))
  {
    hide Decide, FirstMatch, Rows1, Rows2, Rows3, Rows4;
  }

  predicate InImplementingReject(p: PipelineState, k: EventKind) {
    k == OnReject && Bucket(p) == Some(ImplementingStage)
  }

  lemma ImplementingRejectSection(rest: RuleList, p: PipelineState, k: EventKind, x: Facts)
    ensures Decide(ImplementingRejectRules(rest), p, k, x) ==
      Within(InImplementingReject(p, k), p, k, x, Decide(rest, p, k, x))
  {
    hide Decide, FirstMatch, Rows1, Rows2, Rows3, Rows4;
    RetryEpochBlock(Implementing, BeforeImplementing, Implementing, AfterImplementing, rest, p, k, x);
  }

  predicate InTestingReject(p: PipelineState, k: EventKind) {
    k == OnReject && Bucket(p) == Some(TestingStage)
  }

  lemma TestingRejectSection(rest: RuleList, p: PipelineState, k: EventKind, x: Facts)
    ensures Decide(TestingRejectRules(rest), p, k, x) == Within(InTestingReject(p, k), p, k, x, Decide(rest, p, k, x))
  {
    hide Decide, FirstMatch, Rows1, Rows2, Rows3, Rows4;
    RetryEpochBlock(Testing, BeforeTesting, Testing, AfterTesting, rest, p, k, x);
  }

  predicate InAcceptingReject(p: PipelineState, k: EventKind) {
    k == OnReject && Bucket(p) == Some(AcceptingStage)
  }

  lemma AcceptingRejectSection(rest: RuleList, p: PipelineState, k: EventKind, x: Facts)
    ensures Decide(AcceptingRejectRules(rest), p, k, x) ==
      Within(InAcceptingReject(p, k), p, k, x, Decide(rest, p, k, x))
  {
    hide Decide, FirstMatch, Rows1, Rows2, Rows3, Rows4;
    RetryEpochBlock(Accepting, BeforeAccepting, Accepting, AfterAccepting, rest, p, k, x);
  }

  predicate InCommitReject(p: PipelineState, k: EventKind) {
    k == OnReject && (p == Commit || p == AfterCommit)
  }

  lemma CommitRejectSection(rest: RuleList, p: PipelineState, k: EventKind, x: Facts)
    ensures Decide(CommitRejectRules(rest), p, k, x) == Within(InCommitReject(p, k), p, k, x, Decide(rest, p, k, x))
  {
    hide Decide, FirstMatch, Rows1, Rows2, Rows3, Rows4;
  }

  predicate InBlocked(p: PipelineState, k: EventKind) {
    k == OnBlocked && IsAgentStage(p)
  }

  lemma BlockedSection(rest: RuleList, p: PipelineState, k: EventKind, x: Facts)
    ensures Decide(BlockedRules(rest), p, k, x) == Within(InBlocked(p, k), p, k, x, Decide(rest, p, k, x))
  {
    hide Decide, FirstMatch, Rows1, Rows2, Rows3, Rows4;
    var accepting := RecoveryRules(At(Accepting), OnBlocked, rest);
    var testing := RecoveryRules(At(Testing), OnBlocked, accepting);
    var implementing := RecoveryRules(At(Implementing), OnBlocked, testing);
    RecoveryBlock(At(Accepting), OnBlocked, rest, p, k, x);
    RecoveryBlock(At(Testing), OnBlocked, accepting, p, k, x);
    RecoveryBlock(At(Implementing), OnBlocked, testing, p, k, x);
    RecoveryBlock(At(Grooming), OnBlocked, implementing, p, k, x);
  }

  predicate InEscalation(p: PipelineState, k: EventKind) {
    || (IsStagePhase(p) && (k == OnStageRetryLimit || k == OnOverallRetryLimit || k == OnTimeBudget))
    || (p == Recovering && k == OnTimeBudget)
  }

  lemma EscalationSection(rest: RuleList, p: PipelineState, k: EventKind, x: Facts)
    ensures Decide(EscalationRules(rest), p, k, x) == Within(InEscalation(p, k), p, k, x, Decide(rest, p, k, x))
  {
    hide Decide, FirstMatch, Rows1, Rows2, Rows3, Rows4;
  }

  predicate InRecovering(p: PipelineState, k: EventKind) {
    && p == Recovering
    && (k == OnRecoverySucceeded || k == OnRecoveryFailed || k == OnRecoveryBudgetHit || k == OnCrash || k == OnTimeout)
  }

  lemma RecoveringSection(rest: RuleList, p: PipelineState, k: EventKind, x: Facts)
    ensures Decide(RecoveringRules(rest), p, k, x) == Within(InRecovering(p, k), p, k, x, Decide(rest, p, k, x))
  {
    hide Decide, FirstMatch, Rows1, Rows2, Rows3, Rows4;
  }

  predicate InWildcard(p: PipelineState, k: EventKind) {
    IsStagePhase(p) && (k == OnCrash || k == OnTimeout)
  }

  lemma WildcardSection(rest: RuleList, p: PipelineState, k: EventKind, x: Facts)
    ensures Decide(WildcardRules(rest), p, k, x) == Within(InWildcard(p, k), p, k, x, Decide(rest, p, k, x))
  {
    hide Decide, FirstMatch, Rows1, Rows2, Rows3, Rows4;
    RecoveryBlock(AnyStagePhase, OnCrash, RecoveryRules(AnyStagePhase, OnTimeout, rest), p, k, x);
    RecoveryBlock(AnyStagePhase, OnTimeout, rest, p, k, x);
  }

  predicate InHappyPath(p: PipelineState, k: EventKind) {
    || InEntry(p, k)
    || InPreExec(p, k)
    || InGrooming(p, k)
    || InImplementing(p, k)
    || InTesting(p, k)
    || InAccepting(p, k)
    || InCommit(p, k)
  }

  lemma HappyPathPart(rest: RuleList, p: PipelineState, k: EventKind, x: Facts)
    ensures Decide(HappyPathRules(rest), p, k, x) == Within(InHappyPath(p, k), p, k, x, Decide(rest, p, k, x))
  {
    hide Decide, FirstMatch, Route;
    var r6 := CommitRules(rest);
    var r5 := AcceptingRules(r6);
    var r4 := TestingRules(r5);
    var r3 := ImplementingRules(r4);
    var r2 := GroomingRules(r3);
    var r1 := PreExecRules(r2);
    EntrySection(r1, p, k, x);
    PreExecSection(r2, p, k, x);
    GroomingSection(r3, p, k, x);
    ImplementingSection(r4, p, k, x);
    TestingSection(r5, p, k, x);
    AcceptingSection(r6, p, k, x);
    CommitSection(rest, p, k, x);
  }

  predicate InRejection(p: PipelineState, k: EventKind) {
    || InMerge(p, k)
    || InGroomingReject(p, k)
    || InImplementingReject(p, k)
    || InTestingReject(p, k)
    || InAcceptingReject(p, k)
    || InCommitReject(p, k)
  }

  lemma RejectionPart(rest: RuleList, p: PipelineState, k: EventKind, x: Facts)
    ensures Decide(RejectionRules(rest), p, k, x) == Within(InRejection(p, k), p, k, x, Decide(rest, p, k, x))
  {
    hide Decide, FirstMatch, Route;
    var r5 := CommitRejectRules(rest);
    var r4 := AcceptingRejectRules(r5);
    var r3 := TestingRejectRules(r4);
    var r2 := ImplementingRejectRules(r3);
    var r1 := GroomingRejectRules(r2);
    MergeSection(r1, p, k, x);
    GroomingRejectSection(r2, p, k, x);
    ImplementingRejectSection(r3, p, k, x);
    TestingRejectSection(r4, p, k, x);
    AcceptingRejectSection(r5, p, k, x);
    CommitRejectSection(rest, p, k, x);
  }

  predicate InFailure(p: PipelineState, k: EventKind) {
    || InBlocked(p, k)
    || InEscalation(p, k)
    || InRecovering(p, k)
    || InWildcard(p, k)
  }

  lemma FailurePart(rest: RuleList, p: PipelineState, k: EventKind, x: Facts)
    ensures Decide(FailureRules(rest), p, k, x) == Within(InFailure(p, k), p, k, x, Decide(rest, p, k, x))
  {
    hide Decide, FirstMatch, Route;
    var r3 := WildcardRules(rest);
    var r2 := RecoveringRules(r3);
    var r1 := EscalationRules(r2);
    BlockedSection(r1, p, k, x);
    EscalationSection(r2, p, k, x);
    RecoveringSection(r3, p, k, x);
    WildcardSection(rest, p, k, x);
  }

  lemma NoOtherPass(p: PipelineState, x: Facts)
    requires !InHappyPath(p, OnPass) && !InRejection(p, OnPass)
    ensures Route(p, OnPass, x) == None
  {
  }

  lemma NoOtherHookOk(p: PipelineState, x: Facts)
    requires !InHappyPath(p, OnHookOk)
    ensures Route(p, OnHookOk, x) == None
  {
  }

  lemma NoOtherReject(p: PipelineState, x: Facts)
    requires !InHappyPath(p, OnReject) && !InRejection(p, OnReject)
    ensures Route(p, OnReject, x) == None
  {
  }

  lemma NoOtherEvent(p: PipelineState, k: EventKind, x: Facts)
    requires k != OnPass && k != OnHookOk && k != OnReject
    requires !InHappyPath(p, k) && !InRejection(p, k) && !InFailure(p, k)
    ensures Route(p, k, x) == None
  {
    hide PassRow, HookOkRow, RejectRow, Bucket;
  }

  /** For every position, event and guard outcome the ordered table decides what Route says. */
  lemma TableDecidesRoute(p: PipelineState, k: EventKind, x: Facts)
    ensures Decide(Table(), p, k, x) == Route(p, k, x)
  {
    hide HappyPathRules, RejectionRules, FailureRules, Route, InHappyPath, InRejection, InFailure;
    var failures := FailureRules(End);
    HappyPathPart(RejectionRules(failures), p, k, x);
    RejectionPart(failures, p, k, x);
    FailurePart(End, p, k, x);
    if !InHappyPath(p, k) && !InRejection(p, k) && !InFailure(p, k) {
      match k {
        case OnPass => NoOtherPass(p, x);
        case OnHookOk => NoOtherHookOk(p, x);
        case OnReject => NoOtherReject(p, x);
        case _ => NoOtherEvent(p, k, x);
      }
    }
  }
}
