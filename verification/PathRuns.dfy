/** The path work takes: which position follows which, what was reported on the way, and how a task lands. */
module PathRuns {
  import opened Common
  import opened Recovery
  import opened Events
  import opened TaskStates
  import opened Deltas
  import opened Patches
  import opened Rules
  import opened Runner
  import opened Runs
  import opened RecoveryRuns
  import opened LoopRuns
  import opened ReachableLoops

  /** The pipeline in order. */
  const PATH: seq<PipelineState> := [
    BeforeGrooming, Grooming, AfterGrooming, BeforeImplementing, Implementing, AfterImplementing,
    BeforeTesting, Testing, AfterTesting, BeforeAccepting, Accepting, AfterAccepting, Commit, AfterCommit, Done]

  // ----- names --------------------------------------------------------------------------

  /** A work stage is entered through its before-hooks, any other position directly. */
  predicate EntersThrough(target: PipelineState, p: PipelineState) {
    if IsAgentStage(target) then Name(p) == "before_" + Name(target) else p == target
  }

  lemma EntryGoesThroughHooks(target: PipelineState)
    ensures EntersThrough(target, EntryOf(target))
  {
    match target {
      case Grooming => assert "before_" + "grooming" == "before_grooming";
      case Implementing => assert "before_" + "implementing" == "before_implementing";
      case Testing => assert "before_" + "testing" == "before_testing";
      case Accepting => assert "before_" + "accepting" == "before_accepting";
      case _ =>
    }
  }

  predicate NamedAfter(p: PipelineState, c: PipelineState) {
    Name(p) == Name(c) || Name(p) == "before_" + Name(c) || Name(p) == "after_" + Name(c)
  }

  lemma EarlyEpochs(p: PipelineState)
    requires p in {BeforeGrooming, Grooming, AfterGrooming, BeforeImplementing, Implementing, AfterImplementing}
    ensures IsAgentStage(RetryOf(p)) && NamedAfter(p, RetryOf(p))
  {
    match p {
      case BeforeGrooming => assert "before_" + "grooming" == "before_grooming";
      case AfterGrooming => assert "after_" + "grooming" == "after_grooming";
      case BeforeImplementing => assert "before_" + "implementing" == "before_implementing";
      case AfterImplementing => assert "after_" + "implementing" == "after_implementing";
      case _ =>
    }
  }

  lemma LateEpochs(p: PipelineState)
    requires p in {BeforeTesting, Testing, AfterTesting, BeforeAccepting, Accepting, AfterAccepting}
    ensures IsAgentStage(RetryOf(p)) && NamedAfter(p, RetryOf(p))
  {
    match p {
      case BeforeTesting => assert "before_" + "testing" == "before_testing";
      case AfterTesting => assert "after_" + "testing" == "after_testing";
      case BeforeAccepting => assert "before_" + "accepting" == "before_accepting";
      case AfterAccepting => assert "after_" + "accepting" == "after_accepting";
      case _ =>
    }
  }

  /** The epoch of a work phase is the stage its name is made of. */
  lemma EpochIsTheName(p: PipelineState)
    requires IsStagePhase(p) && p != Commit && p != AfterCommit
    ensures IsAgentStage(RetryOf(p)) && NamedAfter(p, RetryOf(p))
  {
    hide NamedAfter, RetryOf;
    if p in {BeforeGrooming, Grooming, AfterGrooming, BeforeImplementing, Implementing, AfterImplementing} {
      EarlyEpochs(p);
    } else {
      LateEpochs(p);
    }
  }

  // ----- what was reported --------------------------------------------------------------

  /** The files count of the last pass that reported one. */
  function FilesReported(ms: seq<Move>, initial: int): int {
    if ms == [] then initial
    else
      var e := ms[|ms| - 1].event;
      if e.Pass? && e.filesChanged.Some? then e.filesChanged.value else FilesReported(ms[..|ms| - 1], initial)
  }

  function TestsReported(ms: seq<Move>, initial: int): int {
    if ms == [] then initial
    else
      var e := ms[|ms| - 1].event;
      if e.Pass? && e.testsAdded.Some? then e.testsAdded.value else TestsReported(ms[..|ms| - 1], initial)
  }

  /** Whether the last hook that ran was green. */
  function HooksGreen(ms: seq<Move>, initial: bool): bool {
    if ms == [] then initial
    else
      var e := ms[|ms| - 1].event;
      if e.HookOk? then true
      else if e.Reject? && e.source == Hook then false
      else HooksGreen(ms[..|ms| - 1], initial)
  }

  lemma ReportStep(s: TaskState, e: Event, t: TaskState)
    requires Advance(s, e) == Some(t)
    ensures t.report == Reported(s.report, e)
  {
    hide Settled, Apply, Route, Advance, EffectDelta, FactsOf, Reported;
    var row := Fired(s, e, t);
    SettledReport(s, EffectDelta(row.effect, s, e), s.stage, t.stage, e);
  }

  /** The report bits guards read are the last ones the journal carries. */
  lemma {:induction false} ReportIsJournal(s: TaskState, events: seq<Event>)
    requires Run(s, events).Some?
    ensures
      var r, ms := Run(s, events).value.report, Journal(s, events);
      && r.filesChanged == FilesReported(ms, s.report.filesChanged)
      && r.testsAdded == TestsReported(ms, s.report.testsAdded)
      && r.hookOk == HooksGreen(ms, s.report.hookOk)
  {
    hide Advance, Honest, Run, Journal;
    if events == [] {
      RunStarts(s);
    } else {
      JournalGrows(s, events);
      var before := events[..|events| - 1];
      ReportIsJournal(s, before);
      ReportStep(Run(s, before).value, events[|events| - 1], Run(s, events).value);
    }
  }

  // ----- success moves on ---------------------------------------------------------------

  predicate Succeeds(e: Event) {
    e.Pass? || e.HookOk?
  }

  predicate OnPath(p: PipelineState, i: nat) {
    i + 1 < |PATH| && PATH[i] == p
  }

  lemma PassMovesOn(p: PipelineState, i: nat, x: Facts)
    requires OnPath(p, i) && Route(p, OnPass, x).Some?
    ensures !IsHookPhase(p) && Route(p, OnPass, x).value.target == To(PATH[i + 1])
  {
  }

  lemma HookOkMovesOn(p: PipelineState, i: nat, x: Facts)
    requires OnPath(p, i) && Route(p, OnHookOk, x).Some?
    ensures IsHookPhase(p)
    ensures Route(p, OnHookOk, x).value.target ==
      if p == AfterImplementing && x.mode == Single then To(if x.noChanges then Done else Commit) else To(PATH[i + 1])
  {
  }

  lemma NoChangesFact(s: TaskState, e: Event)
    ensures FactsOf(s, e).noChanges <==> s.report.filesChanged == 0 && s.report.testsAdded == 0
    ensures FactsOf(s, e).mode == s.mode
  {
    hide HookLoopDetected, LoopDetected, TriggerFrom;
  }

  /** A success leads to the next position of the path; single mode leaves it after implementing. */
  lemma SuccessMovesOn(s: TaskState, e: Event, t: TaskState, i: nat)
    requires Advance(s, e) == Some(t) && Succeeds(e) && OnPath(s.stage, i)
    ensures e.HookOk? <==> IsHookPhase(s.stage)
    ensures t.stage ==
      if s.stage == AfterImplementing && s.mode == Single
      then (if s.report.filesChanged == 0 && s.report.testsAdded == 0 then Done else Commit)
      else PATH[i + 1]
  {
    hide Settled, Apply, Route, Advance, EffectDelta, FactsOf;
    var row := Fired(s, e, t);
    NoChangesFact(s, e);
    if e.Pass? {
      PassMovesOn(s.stage, i, FactsOf(s, e));
    } else {
      HookOkMovesOn(s.stage, i, FactsOf(s, e));
    }
  }

  /** A launch enters where it says; without an entry stage full mode grooms first and single mode implements. */
  lemma LaunchEntry(s: TaskState, e: Event, t: TaskState)
    requires Advance(s, e) == Some(t) && Honest(s, e)
    requires (s.stage == WorktreeSync && e.Pass?) || (s.stage == RecoveringPreExec && e.PreExecRecoverySucceeded?)
    ensures
      match s.entryStage
      case Some(p) => EntersThrough(p, t.stage)
      case None => t.stage == if s.mode == Single then BeforeImplementing else BeforeGrooming
  {
    hide Settled, Apply, Route, Advance, EffectDelta, FactsOf, EntersThrough;
    var row := Fired(s, e, t);
    EntryRowShape(s.stage, KindOf(e), FactsOf(s, e));
    if s.entryStage.Some? {
      EntryGoesThroughHooks(s.entryStage.value);
    }
  }

  lemma EntryRowShape(p: PipelineState, k: EventKind, x: Facts)
    requires Route(p, k, x).Some?
    ensures p == WorktreeSync && k == OnPass ==> Route(p, k, x).value.target == EntryFromWorktreeSync
    ensures p == RecoveringPreExec && k == OnPreExecSucceeded ==> Route(p, k, x).value.target == ResumeFromPreExec
    ensures p == Ready && k == OnCleanState ==> Route(p, k, x).value.target == To(WorktreeSync)
    ensures p == Ready && k == OnNeedsPreExecRecovery ==> Route(p, k, x).value.target == To(RecoveringPreExec)
    ensures p == Commit && k == OnMergeConflict ==> Route(p, k, x).value.target == To(MergeResolving)
    ensures p == MergeResolving && k == OnPass ==> Route(p, k, x).value.target == To(AfterCommit)
  {
  }

  /** A clean checkout is synchronised first, a dirty one repaired; a conflict goes to the merge agent and back. */
  lemma SideSteps(s: TaskState, e: Event, t: TaskState)
    requires Advance(s, e) == Some(t)
    ensures s.stage == Ready && e.CleanState? ==> t.stage == WorktreeSync
    ensures s.stage == Ready && e.NeedsPreExecRecovery? ==> t.stage == RecoveringPreExec
    ensures s.stage == Commit && e.MergeConflictDetected? ==> t.stage == MergeResolving
    ensures s.stage == MergeResolving && e.Pass? ==> t.stage == AfterCommit
  {
    hide Settled, Apply, Route, Advance, EffectDelta, FactsOf;
    var row := Fired(s, e, t);
    EntryRowShape(s.stage, KindOf(e), FactsOf(s, e));
  }

  /** A recovery resumes where its report says, through the hooks of a work stage. */
  lemma ResumeGoesThroughHooks(s: TaskState, e: Event, t: TaskState)
    requires Advance(s, e) == Some(t) && s.stage == Recovering && e.RecoverySucceeded? && e.resume.Some?
    ensures EntersThrough(e.resume.value, t.stage)
  {
    hide Settled, Apply, Route, Advance, EffectDelta, FactsOf, EntersThrough;
    var row := Fired(s, e, t);
    GuardFacts(s, e);
    RecoveryRowShape(s.stage, KindOf(e), FactsOf(s, e));
    ConcreteResume(s.stage, KindOf(e), FactsOf(s, e));
    EntryGoesThroughHooks(e.resume.value);
  }

  lemma ConcreteResume(p: PipelineState, k: EventKind, x: Facts)
    requires Route(p, k, x).Some? && p == Recovering && k == OnRecoverySucceeded && x.concrete
    ensures Route(p, k, x).value.target == ResumeFromOrigin
  {
  }

  // ----- landing ------------------------------------------------------------------------

  /** A recovery or the launch sent the task there. */
  predicate Sent(m: Move) {
    m.from == Recovering || m.from == WorktreeSync || m.from == RecoveringPreExec
  }

  predicate Commits(m: Move) {
    m.event.Pass? && (m.from == Commit || m.from == MergeResolving)
  }

  lemma LandingTargets(p: PipelineState, k: EventKind, x: Facts)
    requires Route(p, k, x).Some?
    ensures Route(p, k, x).value.target == To(Done) ==>
      k == OnHookOk && (p == AfterCommit || (p == AfterImplementing && x.mode == Single && x.noChanges))
    ensures Route(p, k, x).value.target == To(AfterCommit) ==> k == OnPass && (p == Commit || p == MergeResolving)
    ensures !Route(p, k, x).value.target.To? ==> p == Recovering || p == WorktreeSync || p == RecoveringPreExec
  {
  }

  lemma LandingStep(s: TaskState, e: Event, t: TaskState)
    requires Advance(s, e) == Some(t)
    ensures
      var m := Move(s.stage, e, t.stage);
      && (t.stage == AfterCommit ==> Commits(m) || Sent(m))
      && (t.stage == Done ==>
            || Sent(m)
            || (e.HookOk? && s.stage == AfterCommit)
            || (e.HookOk? && s.stage == AfterImplementing && s.mode == Single
                && s.report.filesChanged == 0 && s.report.testsAdded == 0))
  {
    hide Settled, Apply, Route, Advance, EffectDelta, FactsOf;
    var row := Fired(s, e, t);
    NoChangesFact(s, e);
    LandingTargets(s.stage, KindOf(e), FactsOf(s, e));
  }

  /**
    * A task is done only in one of three ways: its green after-commit hooks follow a pass of the commit or of the
    * merge agent; or in single mode its green after-implementing hooks follow reports that leave no changed file and
    * no added test; or a recovery or the launch sent it.
    */
  lemma LandsOnlyByCommit(s: TaskState, events: seq<Event>)
    requires s.stage == Ready && Run(s, events).Some? && Run(s, events).value.stage == Done
    ensures
      var ms := Journal(s, events);
      var n := |ms| - 1;
      && n >= 0
      && (|| Sent(ms[n])
          || (ms[n].event.HookOk? && ms[n].from == AfterCommit && n > 0 && ms[n - 1].to == AfterCommit
              && (Commits(ms[n - 1]) || Sent(ms[n - 1])))
          || (ms[n].event.HookOk? && ms[n].from == AfterImplementing && s.mode == Single
              && FilesReported(ms[..n], s.report.filesChanged) == 0
              && TestsReported(ms[..n], s.report.testsAdded) == 0))
  {
    hide Advance, Honest, Run, Journal, FilesReported, TestsReported, Sent, Commits;
    RunStarts(s);
    assert events != [];
    JournalGrows(s, events);
    var before, e := events[..|events| - 1], events[|events| - 1];
    JournalLength(s, before);
    ReportIsJournal(s, before);
    RunKeepsSettings(s, before);
    var t := Run(s, before).value;
    LandingStep(t, e, Run(s, events).value);
    if t.stage == AfterCommit {
      assert before != [];
      JournalGrows(s, before);
      LandingStep(Run(s, before[..|before| - 1]).value, before[|before| - 1], t);
      assert Journal(s, events)[|before| - 1] == Journal(s, before)[|before| - 1];
    }
  }

  /**
    * In single mode, green after-implementing hooks send the task to commit exactly when something was reported; a
    * launch starts with nothing reported.
    */
  lemma SingleModeCommitsChanges(s: TaskState, events: seq<Event>)
    requires s.mode == Single && Run(s, events).Some? && Run(s, events).value.stage == AfterImplementing
    ensures
      var t, ms := Run(s, events).value, Journal(s, events);
      var untouched := FilesReported(ms, s.report.filesChanged) == 0 && TestsReported(ms, s.report.testsAdded) == 0;
      && Advance(t, HookOk).Some? && Advance(t, HookOk).value.stage == (if untouched then Done else Commit)
      && (Launched(s) ==> (untouched <==> FilesReported(ms, 0) == 0 && TestsReported(ms, 0) == 0))
  {
    hide Advance, Honest, Run, Journal, FilesReported, TestsReported, Answers;
    ReportIsJournal(s, events);
    RunKeepsSettings(s, events);
    var t := Run(s, events).value;
    assert Answers(t, HookOk) by { HookAnswer(t); }
    AnswersAdvanceExceptEarlyBudget(t, HookOk);
    assert OnPath(t.stage, 5);
    SuccessMovesOn(t, HookOk, Advance(t, HookOk).value, 5);
  }

  lemma HookAnswer(t: TaskState)
    requires IsHookPhase(t.stage)
    ensures Answers(t, HookOk)
  {
  }

  // ----- where events are taken, and what success forgets -------------------------------

  /** The positions at which an event has a rule. */
  predicate Taken(p: PipelineState, e: Event) {
    match e
    case CleanState | NeedsPreExecRecovery => p == Ready
    case Pass(_, _) => IsAgentStage(p) || p == WorktreeSync || p == Commit || p == MergeResolving
    case HookOk => IsHookPhase(p)
    case Reject(_, _, _, _, _, _) => IsStagePhase(p) || p == WorktreeSync || p == MergeResolving
    case MergeConflictDetected(_) => p == Commit
    case Blocked(_) => IsAgentStage(p) || p == MergeResolving
    case Crash(_, _) | Timeout => p != Ready && p != Done && p != Failed
    case StageRetryLimitHit(_) | OverallRetryLimitHit => IsStagePhase(p)
    case TaskTimeBudgetExceeded(_) => IsStagePhase(p) || p == Recovering
    case RecoverySucceeded(_, _) | RecoveryFailed(_) | RecoveryBudgetHit => p == Recovering
    case PreExecRecoverySucceeded(_) | PreExecRecoveryFailed(_) | PreExecRecoveryBudgetHit => p == RecoveringPreExec
  }

  lemma PassTaken(p: PipelineState)
    ensures PassRow(p).Some? <==> IsAgentStage(p) || p == WorktreeSync || p == Commit || p == MergeResolving
  {
  }

  lemma HookOkTaken(p: PipelineState, x: Facts)
    ensures HookOkRow(p, x).Some? <==> IsHookPhase(p)
  {
  }

  lemma RejectTaken(p: PipelineState, x: Facts)
    ensures RejectRow(p, x).Some? <==> IsStagePhase(p) || p == WorktreeSync || p == MergeResolving
  {
    hide RetryRow, Facts.Exhausted;
  }

  lemma BreakdownTaken(p: PipelineState, x: Facts)
    ensures BreakdownRow(p, x).Some? <==> p != Ready && p != Done && p != Failed
  {
    hide RecoveryRow;
  }

  lemma TakenRow(p: PipelineState, e: Event, x: Facts)
    ensures Route(p, KindOf(e), x).Some? <==> Taken(p, e)
  {
    hide PassRow, HookOkRow, RejectRow, BreakdownRow, RecoveryRow, IsStagePhase, IsHookPhase, IsAgentStage;
    PassTaken(p);
    HookOkTaken(p, x);
    RejectTaken(p, x);
    BreakdownTaken(p, x);
  }

  /** The machine takes an event exactly at the positions named; anywhere else evaluation raises. */
  lemma EventsAreTakenExactly(s: TaskState, e: Event)
    ensures Advance(s, e).Some? <==> Taken(s.stage, e)
  {
    hide FactsOf, Route, Taken, EffectDelta, Apply, Settled;
    GuardFacts(s, e);
    var x := FactsOf(s, e);
    TakenRow(s.stage, e, x);
    if Route(s.stage, KindOf(e), x).Some? {
      RowsResolve(s.stage, s, e, x);
    }
  }

  predicate LeavesStage(p: PipelineState) {
    || p == AfterGrooming || p == AfterImplementing || p == AfterTesting || p == AfterAccepting || p == AfterCommit
    || p == Commit || p == MergeResolving
  }

  /** Success that leaves a work stage, or commits, forgets hook tracking; success within a stage keeps it. */
  lemma SuccessForgetsHooks(s: TaskState, e: Event, t: TaskState)
    requires Advance(s, e) == Some(t) && Succeeds(e) && s.stage != WorktreeSync
    ensures
      if LeavesStage(s.stage) then t.hookStreak == 0 && t.hookFingerprint == None && !t.hookRecoveryInvoked
      else t.hookStreak == s.hookStreak && t.hookFingerprint == s.hookFingerprint
  {
    hide Settled, Apply, Route, Advance, EffectDelta, FactsOf, Progress;
    var row := Fired(s, e, t);
    SuccessRow(s.stage, KindOf(e), FactsOf(s, e), e);
    KeepsHooks(row.effect, s, e);
    var d := EffectDelta(row.effect, s, e);
    SettledHookFields(s, d, s.stage, t.stage, e);
    SettledFlag(s, d, s.stage, t.stage, e);
  }

  lemma SuccessRow(p: PipelineState, k: EventKind, x: Facts, e: Event)
    requires k == KindOf(e) && Succeeds(e) && p != WorktreeSync && Route(p, k, x).Some?
    ensures
      var row := Route(p, k, x).value;
      && (row.effect == NoEffect || row.effect == ClearCompletedRejectionLoop)
      && row.target.To?
      && (Progress(p, row.target.state, e) <==> LeavesStage(p))
  {
  }

  lemma KeepsHooks(f: Effect, s: TaskState, e: Event)
    requires f == NoEffect || f == ClearCompletedRejectionLoop
    ensures
      var d := EffectDelta(f, s, e);
      d.setHookStreak == None && d.setHookFingerprint == None && !d.clearHookTracking
  {
    hide KeySpells;
  }
}
