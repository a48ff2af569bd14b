/** Whole runs: what the nodes may answer, and the trace a list of answers leaves behind. */
module Runs {
  import opened Common
  import opened Recovery
  import opened Events
  import opened TaskStates
  import opened Deltas
  import opened Patches
  import opened Rules
  import opened Runner

  // ----- node answers (litehive/lifecycle/nodes, litehive/roles/recovery.py) -------------

  function HookId(point: PipelineState, command: string, description: string): string {
    Name(point) + ['|'] + command + ['|'] + description
  }

  function NextStreak(s: TaskState, id: string): int {
    if s.hookFingerprint.Some? && s.hookFingerprint.value.id == id then s.hookStreak + 1 else 1
  }

  /** The reject a hook node builds for a failed command: it carries the streak it continues. */
  function HookReject(s: TaskState, command: string, description: string, reason: string): Event {
    var id := HookId(s.stage, command, description);
    Reject(Hook, reason, None, None, Some(HookMeta(Some(s.stage), command, description, id)), Some(NextStreak(s, id)))
  }

  predicate IsHookAnswer(s: TaskState, e: Event) {
    && e.Reject? && e.source == Hook && e.hook.Some?
    && e == HookReject(s, e.hook.value.command, e.hook.value.description, e.reason)
  }

  function PreExecResume(s: TaskState): PipelineState {
    if s.entryStage.Some? then s.entryStage.value else if s.mode == Single then Implementing else Grooming
  }

  predicate CommitReached(p: PipelineState) {
    p == Commit || p == AfterCommit || p == MergeResolving
  }

  /** The targets a recovery report can carry that spell a position (see RecoveryVerdicts). */
  predicate ReportableTarget(p: PipelineState) {
    || p == Grooming || p == Implementing || p == Testing || p == Accepting
    || p == MergeResolving || p == Recovering || p == Done
  }

  /** The answers the node registered for the current position can give, plus the runner's own. */
  predicate Answers(s: TaskState, e: Event) {
    || (e.TaskTimeBudgetExceeded? && !CommitReached(s.stage) && !IsTerminal(s.stage))
    || match s.stage
       case Ready => e.CleanState? || e.NeedsPreExecRecovery?
       case WorktreeSync => e.Pass? || e.Crash? || (e.Reject? && e.source == System)
       case RecoveringPreExec =>
         if s.preExecAttempt > 1 then e.PreExecRecoveryBudgetHit?
         else e == PreExecRecoverySucceeded(PreExecResume(s))
       case Commit => e.Pass? || e.MergeConflictDetected? || e.Crash?
       case Recovering =>
         || (e.RecoverySucceeded? && e.resume.Some? && ReportableTarget(e.resume.value))
         || e.RecoveryFailed? || e.RecoveryBudgetHit? || e.Crash?
       case Done | Failed => false
       case Grooming | Implementing | Testing | Accepting | MergeResolving =>
         e.Pass? || e.Blocked? || e.Crash? || (e.Reject? && (e.source == Agent || e.source == Guard))
       case _ => e.HookOk? || IsHookAnswer(s, e)
  }

  /**
    * All that is needed of the environment: hook rejects come from the hook node of the
    * current phase, and pre-exec recovery resumes where the node says. Every other event
    * may come at any time; where no rule matches, it does not advance the run.
    */
  predicate Honest(s: TaskState, e: Event) {
    && (e.Reject? && e.source == Hook ==> IsHookPhase(s.stage) && IsHookAnswer(s, e))
    && (e.PreExecRecoverySucceeded? ==> e.resumeStage == PreExecResume(s))
  }

  lemma AnswersAreHonest(s: TaskState, e: Event)
    requires Answers(s, e)
    ensures Honest(s, e)
  {
  }

  predicate BeforeFirstPhase(p: PipelineState) {
    p == Ready || p == WorktreeSync || p == RecoveringPreExec
  }

  lemma AnswerHasRow(s: TaskState, e: Event, x: Facts)
    requires Answers(s, e)
    ensures Route(s.stage, KindOf(e), x).None? <==> e.TaskTimeBudgetExceeded? && BeforeFirstPhase(s.stage)
  {
  }

  lemma RowsResolve(p: PipelineState, s: TaskState, e: Event, x: Facts)
    requires Route(p, KindOf(e), x).Some? && (x.concrete <==> e.RecoverySucceeded? && e.resume.Some?)
    ensures Resolve(Route(p, KindOf(e), x).value.target, s, e).Some?
  {
  }

  /**
    * The table has a row for every answer of every node, with one family of exceptions:
    * the runner's time-budget event raises exactly before the first stage phase is entered.
    */
  lemma AnswersAdvanceExceptEarlyBudget(s: TaskState, e: Event)
    requires Answers(s, e)
    ensures Advance(s, e).None? <==> e.TaskTimeBudgetExceeded? && BeforeFirstPhase(s.stage)
  {
    var x := FactsOf(s, e);
    AnswerHasRow(s, e, x);
    if Route(s.stage, KindOf(e), x).Some? {
      RowsResolve(s.stage, s, e, x);
    }
  }

  // ----- runs ---------------------------------------------------------------------------

  function Run(s: TaskState, events: seq<Event>): Option<TaskState> {
    if events == [] then Some(s)
    else match Run(s, events[..|events| - 1])
      case None => None
      case Some(t) => if Honest(t, events[|events| - 1]) then Advance(t, events[|events| - 1]) else None
  }

  /** One entry of the transition journal. */
  datatype Move = Move(from: PipelineState, event: Event, to: PipelineState)

  function Journal(s: TaskState, events: seq<Event>): seq<Move>
    requires Run(s, events).Some?
  {
    if events == [] then []
    else
      var n := |events| - 1;
      Journal(s, events[..n]) + [Move(Run(s, events[..n]).value.stage, events[n], Run(s, events).value.stage)]
  }

  lemma JournalGrows(s: TaskState, events: seq<Event>)
    requires |events| > 0 && Run(s, events).Some?
    ensures Run(s, events[..|events| - 1]).Some?
    ensures
      var before := events[..|events| - 1];
      var ms := Journal(s, events);
      && ms[..|ms| - 1] == Journal(s, before) && |ms| == |events|
      && ms[|ms| - 1] == Move(Run(s, before).value.stage, events[|events| - 1], Run(s, events).value.stage)
      && Advance(Run(s, before).value, events[|events| - 1]) == Run(s, events)
      && Honest(Run(s, before).value, events[|events| - 1])
  {
    hide Advance, Honest;
    JournalLength(s, events[..|events| - 1]);
  }

  lemma {:induction false} JournalLength(s: TaskState, events: seq<Event>)
    requires Run(s, events).Some?
    ensures |Journal(s, events)| == |events|
  {
    hide Advance, Honest;
    if events != [] {
      JournalLength(s, events[..|events| - 1]);
    }
  }

  lemma RunStarts(s: TaskState)
    ensures Run(s, []) == Some(s) && Journal(s, []) == []
  {
  }

  lemma RunOneMore(s: TaskState, events: seq<Event>, e: Event)
    requires Run(s, events).Some?
    requires Honest(Run(s, events).value, e) && Advance(Run(s, events).value, e).Some?
    ensures
      var t := Run(s, events).value;
      var u := Advance(t, e).value;
      && Run(s, events + [e]) == Some(u)
      && Journal(s, events + [e]) == Journal(s, events) + [Move(t.stage, e, u.stage)]
  {
    hide Advance, Honest;
    assert (events + [e])[..|events|] == events;
  }

  // ----- runs of the program itself -----------------------------------------------------

  /** A run in which every event is an answer the node of its position can give. */
  predicate Answered(s: TaskState, events: seq<Event>) {
    && Run(s, events).Some?
    && (events == [] || (
          var n := |events| - 1;
          Answered(s, events[..n]) && Run(s, events[..n]).Some? && Answers(Run(s, events[..n]).value, events[n])))
  }

  lemma AnsweredGrows(s: TaskState, events: seq<Event>)
    requires Answered(s, events)
    ensures Run(s, events).Some?
    ensures events != [] ==>
      var before := events[..|events| - 1];
      Answered(s, before) && Run(s, before).Some? && Answers(Run(s, before).value, events[|events| - 1])
  {
    hide Run, Answers;
  }

  lemma AnswerOneMore(s: TaskState, events: seq<Event>, e: Event)
    requires Answered(s, events) && Answers(Run(s, events).value, e) && Advance(Run(s, events).value, e).Some?
    ensures Answered(s, events + [e]) && Run(s, events + [e]) == Advance(Run(s, events).value, e)
    ensures Journal(s, events + [e]) ==
      Journal(s, events) + [Move(Run(s, events).value.stage, e, Advance(Run(s, events).value, e).value.stage)]
  {
    hide Advance, Honest, Answers;
    AnswersAreHonest(Run(s, events).value, e);
    RunOneMore(s, events, e);
    assert (events + [e])[..|events|] == events;
  }

  /** Only the recovery node could send a task back before its first phase, and no report names such a place. */
  lemma FirstPhaseIsFinal(s: TaskState, e: Event, t: TaskState)
    requires Answers(s, e) && Advance(s, e) == Some(t) && !BeforeFirstPhase(s.stage)
    ensures !BeforeFirstPhase(t.stage)
  {
    hide Settled, Apply, Route, FactsOf, Advance, EffectDelta, IsHookAnswer;
    var row := Fired(s, e, t);
    GuardFacts(s, e);
    EarlyRowShape(s.stage, KindOf(e), FactsOf(s, e));
  }

  lemma EarlyRowShape(p: PipelineState, k: EventKind, x: Facts)
    requires Route(p, k, x).Some? && !BeforeFirstPhase(p)
    ensures
      var row := Route(p, k, x).value;
      || (row.target.To? && !BeforeFirstPhase(row.target.state))
      || (row.target == ResumeFromOrigin && p == Recovering && k == OnRecoverySucceeded && x.concrete)
  {
  }

  /** Nodes whose turns cost agent time. */
  predicate AgentBacked(p: PipelineState) {
    IsAgentStage(p) || p == MergeResolving || p == Recovering
  }

  predicate AgentRan(ms: seq<Move>) {
    exists i :: 0 <= i < |ms| && AgentBacked(ms[i].from)
  }

  lemma {:induction false} AgentsRunPastTheEntry(s: TaskState, events: seq<Event>)
    requires Answered(s, events) && AgentRan(Journal(s, events))
    ensures !BeforeFirstPhase(Run(s, events).value.stage)
  {
    hide Advance, Honest, Answers, Answered, Run, Journal;
    AnsweredGrows(s, events);
    var ms := Journal(s, events);
    JournalLength(s, events);
    JournalGrows(s, events);
    var n := |events| - 1;
    var t := Run(s, events[..n]).value;
    if !AgentBacked(ms[n].from) {
      var i :| 0 <= i < |ms| && AgentBacked(ms[i].from);
      assert ms[..n][i] == ms[i];
      AgentsRunPastTheEntry(s, events[..n]);
    }
    FirstPhaseIsFinal(t, events[n], Run(s, events).value);
  }

  /**
    * In the program's own runs the time-budget event, which needs agent time to have passed, always
    * finds a rule.
    */
  lemma BudgetEventsFindARule(s: TaskState, events: seq<Event>, rendered: string)
    requires Answered(s, events) && AgentRan(Journal(s, events))
    requires Answers(Run(s, events).value, TaskTimeBudgetExceeded(rendered))
    ensures Advance(Run(s, events).value, TaskTimeBudgetExceeded(rendered)).Some?
  {
    hide Advance, Honest, Run, Journal, Answered;
    AnsweredGrows(s, events);
    AgentsRunPastTheEntry(s, events);
    AnswersAdvanceExceptEarlyBudget(Run(s, events).value, TaskTimeBudgetExceeded(rendered));
  }

  // ----- taking one transition apart ----------------------------------------------------

  /** The state after firing an effect and moving on. */
  function After(s: TaskState, f: Effect, next: PipelineState, e: Event): TaskState {
    Settled(Apply(s, EffectDelta(f, s, e)), s.stage, next, e)
  }

  lemma Fired(s: TaskState, e: Event, t: TaskState) returns (row: Row)
    requires Advance(s, e) == Some(t)
    ensures Route(s.stage, KindOf(e), FactsOf(s, e)) == Some(row)
    ensures Resolve(row.target, s, e) == Some(t.stage)
    ensures t == After(s, row.effect, t.stage, e)
  {
    row := Route(s.stage, KindOf(e), FactsOf(s, e)).value;
  }

  /** What the guards read, fact by fact. */
  lemma GuardFacts(s: TaskState, e: Event)
    ensures
      var x := FactsOf(s, e);
      && x.hookLoop == HookLoopDetected(s, e)
      && x.rejectionLoop == LoopDetected(s, e, Some(Implementing))
      && x.concrete == (e.RecoverySucceeded? && e.resume.Some?)
      && (forall p :: x.Exhausted(p) <==> s.Retries(p) >= s.limits.stageRetry)
  {
    hide HookLoopDetected, LoopDetected, TriggerFrom;
  }

  /** A patched and settled state, field by field. */
  lemma SettledFields(s: TaskState, d: StateDelta, from: PipelineState, next: PipelineState, e: Event)
    ensures
      var t := Settled(Apply(s, d), from, next, e);
      var bumped := if d.incStageRetry.Some? then Bump(s.stageRetry, d.incStageRetry.value) else s.stageRetry;
      && t.stage == next && t.mode == s.mode && t.entryStage == s.entryStage && t.limits == s.limits
      && t.budgetStart == s.budgetStart
      && t.trigger == (if d.clearTrigger then None else if d.setTrigger.Some? then d.setTrigger else s.trigger)
      && t.history == (if d.appendOutcome.Some? then s.history + [d.appendOutcome.value] else s.history)
      && t.stageRetry == (if d.resetStageRetry.Some? then bumped - {d.resetStageRetry.value} else bumped)
      && t.loop == (if d.setLoop.Some? then d.setLoop else if d.clearLoop then None else s.loop)
      && t.failedReason == (if d.failedReason.Some? then d.failedReason else s.failedReason)
  {
    hide Reported, Progress, Bump;
  }

  lemma SettledHookFields(s: TaskState, d: StateDelta, from: PipelineState, next: PipelineState, e: Event)
    ensures
      var t := Settled(Apply(s, d), from, next, e);
      if Progress(from, next, e) then t.hookStreak == 0 && t.hookFingerprint == None
      else
        && t.hookStreak == (if d.setHookStreak.Some? then d.setHookStreak.value
                            else if d.clearHookTracking then 0 else s.hookStreak)
        && t.hookFingerprint == (if d.setHookFingerprint.Some? then d.setHookFingerprint
                                 else if d.clearHookTracking then None else s.hookFingerprint)
  {
    hide Reported, Progress, Bump;
  }

  lemma SettledAttempt(s: TaskState, d: StateDelta, from: PipelineState, next: PipelineState, e: Event)
    ensures Settled(Apply(s, d), from, next, e).preExecAttempt == s.preExecAttempt + if d.incPreExec then 1 else 0
  {
    hide Reported, Progress, Bump;
  }

  lemma SettledTexts(s: TaskState, d: StateDelta, from: PipelineState, next: PipelineState, e: Event)
    ensures
      var t := Settled(Apply(s, d), from, next, e);
      && t.failedMessage == (if d.failedMessage.Some? then d.failedMessage else s.failedMessage)
      && t.explanation == (if d.setExplanation.Some? then d.setExplanation
                           else if d.clearExplanation then None else s.explanation)
  {
    hide Reported, Progress, Bump;
  }

  lemma SettledMerge(s: TaskState, d: StateDelta, from: PipelineState, next: PipelineState, e: Event)
    ensures Settled(Apply(s, d), from, next, e).mergeContext ==
      if d.clearMergeContext then None else if d.setMergeContext.Some? then d.setMergeContext else s.mergeContext
  {
    hide Reported, Progress, Bump;
  }

  lemma SettledFlag(s: TaskState, d: StateDelta, from: PipelineState, next: PipelineState, e: Event)
    ensures Settled(Apply(s, d), from, next, e).hookRecoveryInvoked ==
      if Progress(from, next, e) then false
      else if d.setHookRecoveryInvoked.Some? then d.setHookRecoveryInvoked.value else s.hookRecoveryInvoked
  {
    hide Reported, Progress, Bump;
  }

  lemma TerminalStatesRest(s: TaskState, e: Event)
    requires IsTerminal(s.stage)
    ensures Advance(s, e).None?
  {
    hide FactsOf, Fire;
  }

  lemma FixedStep(s: TaskState, e: Event, t: TaskState)
    requires Advance(s, e) == Some(t)
    ensures t.budgetStart == s.budgetStart && t.entryStage == s.entryStage && t.mode == s.mode && t.limits == s.limits
  {
    hide Settled, Apply, Route, FactsOf, Advance, EffectDelta;
    var row := Fired(s, e, t);
    SettledFields(s, EffectDelta(row.effect, s, e), s.stage, t.stage, e);
  }

  lemma {:induction false} RunKeepsSettings(s: TaskState, events: seq<Event>)
    requires Run(s, events).Some?
    ensures
      var t := Run(s, events).value;
      t.limits == s.limits && t.entryStage == s.entryStage && t.mode == s.mode && t.budgetStart == s.budgetStart
  {
    hide Advance, Honest;
    if events != [] {
      JournalGrows(s, events);
      var before := events[..|events| - 1];
      RunKeepsSettings(s, before);
      FixedStep(Run(s, before).value, events[|events| - 1], Run(s, events).value);
    }
  }
}
