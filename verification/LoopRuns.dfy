/** The reviewer-bounce counter over every run. */
module LoopRuns {
  import opened Common
  import opened Recovery
  import opened Events
  import opened TaskStates
  import opened Deltas
  import opened Patches
  import opened Rules
  import opened Runner
  import opened Runs
  import opened RecoveryRuns
  import opened FailureRuns

  // ----- the specification: one independent counter for each reviewing stage ------------

  /** An agent of the stage sent the work back to implementing. */
  predicate Bounce(m: Move, stage: PipelineState) {
    && m.event.Reject? && m.event.source == Agent && m.to == Implementing
    && Bucket(stage).Some? && Bucket(m.from) == Bucket(stage)
  }

  /** What ends a series of bounces: another reject, a pass of the stage itself, or recovery. */
  predicate EndsBounces(m: Move, stage: PipelineState) {
    || (m.event.Reject? && !Bounce(m, stage))
    || (m.event.Pass? && m.from == stage)
    || Enters(m)
    || m.from == Recovering
  }

  /** Bounces of the stage since the last move that ended a series. */
  function Bounces(ms: seq<Move>, stage: PipelineState): nat {
    if ms == [] then 0
    else
      var m := ms[|ms| - 1];
      if EndsBounces(m, stage) then 0
      else Bounces(ms[..|ms| - 1], stage) + if Bounce(m, stage) then 1 else 0
  }

  /** Positions outside the epochs a bounce leads through. */
  predicate Outside(p: PipelineState) {
    p == Ready || p == WorktreeSync || p == RecoveringPreExec || p == Recovering
  }

  /** The stored loop is the counter of the stage that is bouncing. */
  predicate LoopCounted(s: TaskState, testing: nat, accepting: nat) {
    match s.loop
    case None => testing == 0 && accepting == 0
    case Some(l) =>
      && l.retryTarget == Implementing && 0 < l.count && !Outside(s.stage)
      && (|| (l.rejectionStage == Testing && l.count == testing && accepting == 0)
          || (l.rejectionStage == Accepting && l.count == accepting && testing == 0))
  }

  predicate LoopBelowLimit(s: TaskState) {
    s.loop.Some? ==> s.loop.value.count < s.limits.rejectionLoop
  }

  predicate LoopAgrees(s: TaskState, testing: nat, accepting: nat) {
    LoopCounted(s, testing, accepting) && LoopBelowLimit(s)
  }

  /** A failed task keeps the loop exactly when the loop failed it, with the bounce that did. */
  predicate FailedLoopCounted(t: TaskState, from: PipelineState, count: nat) {
    t.loop ==
      if t.failedReason == Some(RejectionLoopDetected) then Some(RejectionLoop(RetryOf(from), Implementing, count + 1))
      else None
  }

  /** The bounces that fail a task: the limit, or the first one when the limit is lower still. */
  function FatalCount(s: TaskState): nat {
    if s.limits.rejectionLoop > 1 then s.limits.rejectionLoop else 1
  }

  /** And within one launch that bounce reached the limit exactly. */
  predicate FailedLoop(t: TaskState, from: PipelineState, count: nat) {
    FailedLoopCounted(t, from, count) && (t.failedReason == Some(RejectionLoopDetected) ==> count + 1 == FatalCount(t))
  }

  // ----- one transition -----------------------------------------------------------------

  lemma LoopRowShape(p: PipelineState, k: EventKind, x: Facts)
    requires Route(p, k, x).Some?
    ensures
      var row := Route(p, k, x).value;
      && (k == OnReject ==>
            || (row == Row(To(Implementing), IncStageRetry(RetryOf(p), Implementing))
                && !x.rejectionLoop && !x.hookLoop)
            || row == Row(To(Accepting), RememberRejection(Accepting))
            || row.target == To(Failed))
      && (k == OnPass ==> row.effect == if IsAgentStage(p) then ClearCompletedRejectionLoop else NoEffect)
      && (p == Recovering ==> row.target == To(Failed) || row.effect == RecordRecoverySuccess)
      && (p != Recovering && (k == OnBlocked || k == OnCrash || k == OnTimeout) ==>
            row == Row(To(Recovering), EnterRecovery) || row.target == To(Failed))
      && (p != Recovering && k !in {OnReject, OnPass, OnBlocked, OnCrash, OnTimeout} ==>
            row.effect in {NoEffect, EnterPreExecRecovery, StashConflictFiles} || row.target == To(Failed))
  {
  }

  function RetryOf(p: PipelineState): PipelineState {
    if Bucket(p).Some? then RetryCounterState(Bucket(p).value) else p
  }

  /** The loop field after a move that does not fail the task. */
  function LoopAfter(s: TaskState, e: Event, next: PipelineState): Option<RejectionLoop> {
    if s.stage == Recovering || (IsBreakdown(e) && next == Recovering) then None
    else if e.Reject? then (if next == Implementing then NextLoop(s, e, Some(Implementing)) else None)
    else if e.Pass? && IsAgentStage(s.stage) && s.loop.Some? && s.loop.value.rejectionStage == s.stage then None
    else s.loop
  }

  lemma LoopDeltas(f: Effect, s: TaskState, e: Event)
    ensures
      var d := EffectDelta(f, s, e);
      match f
      case IncStageRetry(_, target) =>
        d.setLoop == NextLoop(s, e, Some(target)) && d.clearLoop == NextLoop(s, e, Some(target)).None?
      case RememberRejection(_) => d.setLoop == None && d.clearLoop
      case EnterRecovery | RecordRecoverySuccess => d.setLoop == None && d.clearLoop
      case ClearCompletedRejectionLoop =>
        && d.setLoop == None
        && d.clearLoop == (s.loop.Some? && KeySpells(KeyOf(s.stage), s.loop.value.rejectionStage))
      case NoEffect | EnterPreExecRecovery | StashConflictFiles => d.setLoop == None && !d.clearLoop
      case FailRejectionLoop(target) =>
        d.setLoop == NextLoop(s, e, Some(target)) && d.clearLoop == NextLoop(s, e, Some(target)).None?
      case Fail(_) | ExhaustRecoveryBudget => d.setLoop == None && d.clearLoop
  {
    hide HookIdentity, TriggerFrom, HookRecoveryProgressed, HookLoopDetected, FailureMessage, RetryCounterStage;
  }

  lemma LoopStep(s: TaskState, e: Event, t: TaskState)
    requires Advance(s, e) == Some(t) && t.stage != Failed
    ensures t.loop == LoopAfter(s, e, t.stage)
    ensures e.Reject? && t.stage == Implementing ==> !LoopDetected(s, e, Some(Implementing))
  {
    hide Settled, Apply, Route, Advance, EffectDelta, FactsOf, NextLoop, LoopDetected, HookLoopDetected;
    var row := Fired(s, e, t);
    GuardFacts(s, e);
    LoopRowShape(s.stage, KindOf(e), FactsOf(s, e));
    LoopDeltas(row.effect, s, e);
    SettledFields(s, EffectDelta(row.effect, s, e), s.stage, t.stage, e);
  }

  lemma LoopCountedStep(s: TaskState, e: Event, t: TaskState, testing: nat, accepting: nat)
    requires Advance(s, e) == Some(t) && t.stage != Failed && LoopCounted(s, testing, accepting)
    ensures
      var m := Move(s.stage, e, t.stage);
      LoopCounted(t,
        (if EndsBounces(m, Testing) then 0 else testing + if Bounce(m, Testing) then 1 else 0),
        (if EndsBounces(m, Accepting) then 0 else accepting + if Bounce(m, Accepting) then 1 else 0))
  {
    hide Advance, LoopDetected;
    LoopStep(s, e, t);
    if !Outside(s.stage) {
      InsideStep(s, e, t);
    }
  }

  lemma LoopBelowLimitStep(s: TaskState, e: Event, t: TaskState)
    requires Advance(s, e) == Some(t) && t.stage != Failed && LoopBelowLimit(s)
    ensures LoopBelowLimit(t)
  {
    hide Advance;
    LoopStep(s, e, t);
    FixedStep(s, e, t);
  }

  /** Only a recovery leads back out, and it drops the loop. */
  lemma InsideStep(s: TaskState, e: Event, t: TaskState)
    requires Advance(s, e) == Some(t) && !Outside(s.stage)
    ensures Outside(t.stage) ==> IsBreakdown(e) && t.stage == Recovering
  {
    hide Settled, Apply, Route, Advance, EffectDelta, FactsOf;
    var row := Fired(s, e, t);
    InsideRowShape(s.stage, KindOf(e), FactsOf(s, e));
  }

  lemma InsideRowShape(p: PipelineState, k: EventKind, x: Facts)
    requires Route(p, k, x).Some? && !Outside(p)
    ensures
      var row := Route(p, k, x).value;
      row.target.To? && (Outside(row.target.state) ==>
                           row.target.state == Recovering && k in {OnBlocked, OnCrash, OnTimeout})
  {
  }

  lemma FailingRowShape(p: PipelineState, k: EventKind, x: Facts)
    requires Route(p, k, x).Some?
    ensures
      var row := Route(p, k, x).value;
      match row.effect
      case FailRejectionLoop(target) => target == Implementing && k == OnReject && x.rejectionLoop
      case Fail(reason) => reason != RejectionLoopDetected
      case _ => row.target != To(Failed) || row.effect == ExhaustRecoveryBudget
  {
  }

  /** What reaches FAILED: a found loop is stored, anything else drops the loop or never had one. */
  lemma FailingStep(s: TaskState, e: Event, t: TaskState)
    requires Advance(s, e) == Some(t) && t.stage == Failed && s.failedReason == None
    ensures t.limits == s.limits
    ensures t.failedReason == Some(RejectionLoopDetected) ==>
      LoopDetected(s, e, Some(Implementing)) && t.loop == NextLoop(s, e, Some(Implementing))
    ensures t.failedReason != Some(RejectionLoopDetected) ==> t.loop == None || (Outside(s.stage) && t.loop == s.loop)
  {
    hide Settled, Apply, Route, Advance, EffectDelta, FactsOf, HookLoopDetected, TriggerFrom, NextLoop, LoopDetected;
    var row := Fired(s, e, t);
    GuardFacts(s, e);
    FailingRowShape(s.stage, KindOf(e), FactsOf(s, e));
    LoopRowShape(s.stage, KindOf(e), FactsOf(s, e));
    if !Outside(s.stage) {
      InsideRowShape(s.stage, KindOf(e), FactsOf(s, e));
    }
    LoopDeltas(row.effect, s, e);
    ReasonDelta(row.effect, s, e);
    SettledFields(s, EffectDelta(row.effect, s, e), s.stage, t.stage, e);
  }

  lemma FailedLoopStep(s: TaskState, e: Event, t: TaskState, testing: nat, accepting: nat)
    requires Advance(s, e) == Some(t) && t.stage == Failed && s.failedReason == None
    requires LoopCounted(s, testing, accepting)
    ensures
      var count := if RetryOf(s.stage) == Testing then testing else accepting;
      FailedLoopCounted(t, s.stage, count) && (LoopBelowLimit(s) ==> FailedLoop(t, s.stage, count))
  {
    hide Advance;
    FailingStep(s, e, t);
  }

  /**
    * In every state of every run the stored loop is known from the journal. While the task has
    * not failed it is the count of bounces of each reviewing stage, and below the limit. A failed
    * task keeps it exactly when the loop failed it, with the count that reached the limit.
    */
  lemma {:induction false} LoopIsCountedBounces(s: TaskState, events: seq<Event>)
    requires Clean(s) && Run(s, events).Some?
    ensures
      var t, ms := Run(s, events).value, Journal(s, events);
      if t.stage != Failed then LoopAgrees(t, Bounces(ms, Testing), Bounces(ms, Accepting))
      else
        && ms != []
        && var m, before := ms[|ms| - 1], ms[..|ms| - 1];
           FailedLoop(t, m.from, Bounces(before, if RetryOf(m.from) == Testing then Testing else Accepting))
  {
    hide Advance, Honest, LoopCounted, LoopBelowLimit, FailedLoop, FailedLoopCounted;
    if events == [] {
      NothingBounced(s);
    } else {
      JournalGrows(s, events);
      var before := events[..|events| - 1];
      var t, e := Run(s, before).value, events[|events| - 1];
      if IsTerminal(t.stage) {
        TerminalStatesRest(t, e);
      }
      LoopIsCountedBounces(s, before);
      ReasonExactlyWhenFailed(s, before);
      var ms := Journal(s, before);
      if Run(s, events).value.stage == Failed {
        FailedLoopStep(t, e, Run(s, events).value, Bounces(ms, Testing), Bounces(ms, Accepting));
      } else {
        LoopCountedStep(t, e, Run(s, events).value, Bounces(ms, Testing), Bounces(ms, Accepting));
        LoopBelowLimitStep(t, e, Run(s, events).value);
      }
    }
  }

  lemma NothingBounced(s: TaskState)
    requires s.loop == None
    ensures LoopAgrees(s, 0, 0)
  {
  }

  /** A QA reject that is handed to the reviewer instead of being counted. */
  predicate Overridden(s: TaskState) {
    s.stage == Testing && s.Retries(Testing) >= s.limits.stageRetry && s.report.hookOk
  }

  lemma ReviewRow(p: PipelineState, x: Facts)
    requires Bucket(p) == Some(TestingStage) || Bucket(p) == Some(AcceptingStage)
    ensures Route(p, OnReject, x).Some? && Route(p, OnReject, x).value.target.To?
    ensures ReasonOf(Route(p, OnReject, x).value.effect) == Some(RejectionLoopDetected) <==>
      x.rejectionLoop && !(p == Testing && x.Exhausted(Testing) && x.hooksGreen)
  {
  }

  /**
    * In any live state of a run, an agent's reject in a reviewing epoch fails the task for a
    * rejection loop exactly when it is not handed on to the reviewer and the bounces of that
    * stage in the journal, with this one, reach the limit.
    */
  lemma RejectionLoopFailsExactlyAtLimit(s: TaskState, events: seq<Event>, e: Event)
    requires Clean(s) && Run(s, events).Some?
    requires
      var t := Run(s, events).value;
      && (Bucket(t.stage) == Some(TestingStage) || Bucket(t.stage) == Some(AcceptingStage))
      && e.Reject? && e.source == Agent
    ensures
      var t := Run(s, events).value;
      var count := Bounces(Journal(s, events), RetryOf(t.stage)) + 1;
      && Advance(t, e).Some?
      && (Advance(t, e).value.failedReason == Some(RejectionLoopDetected) <==>
          count >= t.limits.rejectionLoop && !Overridden(t))
  {
    hide Run, Journal, Bounces, Advance, LoopDetected, NextLoop, Overridden, RetryOf, LoopAgrees;
    var t := Run(s, events).value;
    ReasonExactlyWhenFailed(s, events);
    LoopIsCountedBounces(s, events);
    var ms := Journal(s, events);
    NextBounce(t, e, Bounces(ms, Testing), Bounces(ms, Accepting));
    ReviewReject(t, e);
  }

  /** The count a reviewing agent's reject carries on. */
  lemma NextBounce(t: TaskState, e: Event, testing: nat, accepting: nat)
    requires LoopAgrees(t, testing, accepting) && e.Reject? && e.source == Agent
    requires Bucket(t.stage) == Some(TestingStage) || Bucket(t.stage) == Some(AcceptingStage)
    ensures RetryOf(t.stage) == Testing || RetryOf(t.stage) == Accepting
    ensures
      var count := (if RetryOf(t.stage) == Testing then testing else accepting) + 1;
      LoopDetected(t, e, Some(Implementing)) <==> count >= t.limits.rejectionLoop
  {
  }

  lemma ReviewReject(t: TaskState, e: Event)
    requires Bucket(t.stage) == Some(TestingStage) || Bucket(t.stage) == Some(AcceptingStage)
    requires e.Reject? && t.failedReason == None
    ensures Advance(t, e).Some?
    ensures Advance(t, e).value.failedReason == Some(RejectionLoopDetected) <==>
      LoopDetected(t, e, Some(Implementing)) && !Overridden(t)
  {
    hide EffectDelta, TriggerFrom, Route, Settled, Apply, HookLoopDetected, LoopDetected;
    var x := FactsOf(t, e);
    ReviewRow(t.stage, x);
    var row := Route(t.stage, OnReject, x).value;
    ReasonDelta(row.effect, t, e);
    SettledFields(t, EffectDelta(row.effect, t, e), t.stage, row.target.state, e);
  }
}
