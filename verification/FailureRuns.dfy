/** Failure reasons over every run. */
module FailureRuns {
  import opened Common
  import opened Recovery
  import opened Events
  import opened TaskStates
  import opened Deltas
  import opened Patches
  import opened Rules
  import opened Runner
  import opened Runs
  import opened RecoveryRuns

  /** Effects that record a terminal reason. */
  function ReasonOf(f: Effect): Option<FailedReason> {
    match f
    case Fail(reason) => Some(reason)
    case FailRejectionLoop(_) => Some(RejectionLoopDetected)
    case ExhaustRecoveryBudget => Some(RecoveryBudgetHitReason)
    case _ => None
  }

  lemma ReasonDelta(f: Effect, s: TaskState, e: Event)
    ensures EffectDelta(f, s, e).failedReason == ReasonOf(f)
  {
    hide HookIdentity, NextLoop, TriggerFrom, HookRecoveryProgressed, HookLoopDetected, FailureMessage, TerminalVerdict;
  }

  lemma FailureRowShape(p: PipelineState, k: EventKind, x: Facts)
    requires Route(p, k, x).Some?
    ensures ReasonOf(Route(p, k, x).value.effect).Some? <==> Route(p, k, x).value.target == To(Failed)
    ensures
      || k == OnPass || k == OnPreExecSucceeded || (k == OnRecoverySucceeded && x.concrete)
      || Route(p, k, x).value.target.To?
  {
  }

  /** Events that report success and name, directly or through the launch, where to go next. */
  predicate NamesTarget(e: Event) {
    e.Pass? || e.PreExecRecoverySucceeded? || (e.RecoverySucceeded? && e.resume.Some?)
  }

  lemma ReasonStep(s: TaskState, e: Event, t: TaskState)
    requires Advance(s, e) == Some(t) && s.failedReason == None
    ensures t.failedReason.Some? ==> t.stage == Failed
    ensures t.stage == Failed && t.failedReason.None? ==> NamesTarget(e)
    ensures t.stage == Failed && NamesTarget(e) ==> t.failedReason.None?
  {
    hide Settled, Apply, Route, Advance, EffectDelta, FactsOf, LoopDetected, HookLoopDetected;
    var row := Fired(s, e, t);
    GuardFacts(s, e);
    FailureRowShape(s.stage, KindOf(e), FactsOf(s, e));
    if NamesTarget(e) {
      SuccessRowShape(s.stage, KindOf(e), FactsOf(s, e));
    }
    ReasonDelta(row.effect, s, e);
    SettledFields(s, EffectDelta(row.effect, s, e), s.stage, t.stage, e);
  }

  lemma SuccessRowShape(p: PipelineState, k: EventKind, x: Facts)
    requires Route(p, k, x).Some?
    requires k == OnPass || k == OnPreExecSucceeded || (k == OnRecoverySucceeded && x.concrete)
    ensures ReasonOf(Route(p, k, x).value.effect).None?
  {
  }

  /**
    * A reason is recorded exactly in failed tasks, with one exception: the task fails without
    * a reason exactly when its last event reported success and the place it was sent to is
    * FAILED itself.
    */
  lemma {:induction false} ReasonExactlyWhenFailed(s: TaskState, events: seq<Event>)
    requires s.stage == Ready && s.failedReason == None && Run(s, events).Some?
    ensures
      var t := Run(s, events).value;
      t.failedReason.Some? <==> t.stage == Failed && !NamesTarget(events[|events| - 1])
  {
    hide Advance, Honest, NamesTarget;
    if events != [] {
      JournalGrows(s, events);
      var before := events[..|events| - 1];
      ReasonExactlyWhenFailed(s, before);
      var t, e := Run(s, before).value, events[|events| - 1];
      if IsTerminal(t.stage) {
        TerminalStatesRest(t, e);
      }
      ReasonStep(t, e, Run(s, events).value);
    }
  }

  lemma SuccessStaysAlive(s: TaskState, e: Event, t: TaskState)
    requires Answers(s, e) && Advance(s, e) == Some(t) && NamesTarget(e) && s.entryStage != Some(Failed)
    ensures t.stage != Failed
  {
    hide Settled, Apply, Route, Advance, EffectDelta, FactsOf, LoopDetected, HookLoopDetected, HookReject;
    var row := Fired(s, e, t);
    GuardFacts(s, e);
    FailureRowShape(s.stage, KindOf(e), FactsOf(s, e));
    SuccessRowShape(s.stage, KindOf(e), FactsOf(s, e));
  }

  /** In the program's own runs, from a launch that does not enter at FAILED, every failed task has its reason. */
  lemma EveryFailureHasAReason(s: TaskState, events: seq<Event>)
    requires Clean(s) && s.entryStage != Some(Failed) && Answered(s, events)
    ensures
      var t := Run(s, events).value;
      t.failedReason.Some? <==> t.stage == Failed
  {
    hide Advance, Honest, Answers, NamesTarget;
    ReasonExactlyWhenFailed(s, events);
    if events != [] {
      JournalGrows(s, events);
      var before, e := events[..|events| - 1], events[|events| - 1];
      RunKeepsSettings(s, before);
      if NamesTarget(e) {
        SuccessStaysAlive(Run(s, before).value, e, Run(s, events).value);
      }
    }
  }
}
