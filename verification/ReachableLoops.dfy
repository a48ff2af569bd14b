/** Whether a reviewer loop can fail a task at all: exact conditions on the limits of a launch. */
module ReachableLoops {
  import opened Common
  import opened Recovery
  import opened Events
  import opened TaskStates
  import opened Deltas
  import opened Patches
  import opened Rules
  import opened Runner
  import opened Runs
  import opened RecoveryRuns
  import opened FailureRuns
  import opened LoopRuns
  import opened BoundedRuns
  import opened FinishingRuns
  import opened ReachableRuns

  // ----- the last hook is green whenever QA runs ----------------------------------------

  lemma SettledReport(s: TaskState, d: StateDelta, from: PipelineState, next: PipelineState, e: Event)
    ensures Settled(Apply(s, d), from, next, e).report == Reported(s.report, e)
  {
    hide Reported, Progress, Bump;
  }

  lemma TestingRowShape(p: PipelineState, k: EventKind, x: Facts)
    requires Route(p, k, x).Some?
    ensures Route(p, k, x).value.target == To(Testing) ==> k == OnHookOk
  {
  }

  lemma TestingFollowsHooks(s: TaskState, e: Event, t: TaskState)
    requires Advance(s, e) == Some(t) && t.stage == Testing
    ensures t.report.hookOk
  {
    hide Settled, Apply, Route, Advance, EffectDelta, FactsOf;
    var row := Fired(s, e, t);
    TestingRowShape(s.stage, KindOf(e), FactsOf(s, e));
    SettledReport(s, EffectDelta(row.effect, s, e), s.stage, t.stage, e);
  }

  /** QA only ever runs on a green hook, so an exhausted QA reject is always handed on. */
  lemma HooksAreGreenAtTesting(s: TaskState, events: seq<Event>)
    requires s.stage == Ready && Run(s, events).Some? && Run(s, events).value.stage == Testing
    ensures
      var t := Run(s, events).value;
      t.report.hookOk && (Overridden(t) <==> t.Retries(Testing) >= t.limits.stageRetry)
  {
    hide Advance, Honest;
    assert events != [];
    JournalGrows(s, events);
    hide Run, Journal;
    TestingFollowsHooks(Run(s, events[..|events| - 1]).value, events[|events| - 1], Run(s, events).value);
  }

  // ----- a stored loop was paid for with retries ----------------------------------------

  /** The epochs from which a bounce can come. */
  predicate Reviewing(p: PipelineState) {
    Bucket(p) == Some(TestingStage) || Bucket(p) == Some(AcceptingStage)
  }

  /** Every bounce cost a retry of its stage; and single mode never reviews again what it bounced. */
  ghost predicate LoopPaid(t: TaskState) {
    t.loop.Some? ==>
      && t.loop.value.count <= t.Retries(t.loop.value.rejectionStage) <= t.limits.stageRetry
      && (t.mode == Single ==> !Reviewing(t.stage))
  }

  lemma SingleRowShape(p: PipelineState, k: EventKind, x: Facts)
    requires Route(p, k, x).Some? && x.mode == Single && !Reviewing(p) && !Outside(p)
    ensures Route(p, k, x).value.target.To? && !Reviewing(Route(p, k, x).value.target.state)
  {
  }

  lemma SingleStep(s: TaskState, e: Event, t: TaskState)
    requires Advance(s, e) == Some(t) && s.mode == Single && !Reviewing(s.stage) && !Outside(s.stage)
    ensures !Reviewing(t.stage)
  {
    hide Settled, Apply, Route, Advance, EffectDelta, FactsOf, Reviewing;
    var row := Fired(s, e, t);
    assert FactsOf(s, e).mode == s.mode by { ModeFact(s, e); }
    SingleRowShape(s.stage, KindOf(e), FactsOf(s, e));
  }

  lemma ModeFact(s: TaskState, e: Event)
    ensures FactsOf(s, e).mode == s.mode
  {
    hide HookLoopDetected, LoopDetected, TriggerFrom;
  }

  lemma LoopPaidStep(s: TaskState, e: Event, t: TaskState, testing: nat, accepting: nat)
    requires Advance(s, e) == Some(t) && t.stage != Failed && LoopPaid(s) && LoopAgrees(s, testing, accepting)
    ensures LoopPaid(t)
  {
    hide Advance, LoopDetected;
    LoopStep(s, e, t);
    FixedStep(s, e, t);
    RetryStep(s, e, t);
    if s.mode == Single && !Reviewing(s.stage) && !Outside(s.stage) {
      SingleStep(s, e, t);
    }
  }

  lemma {:induction false} LoopsArePaid(s: TaskState, events: seq<Event>)
    requires Clean(s) && Run(s, events).Some? && Run(s, events).value.stage != Failed
    ensures LoopPaid(Run(s, events).value)
  {
    hide Advance, Honest, LoopPaid, LoopAgrees;
    if events == [] {
      NoLoopPaid(s);
    } else {
      JournalGrows(s, events);
      var before := events[..|events| - 1];
      var t, e := Run(s, before).value, events[|events| - 1];
      if IsTerminal(t.stage) {
        TerminalStatesRest(t, e);
      }
      LoopsArePaid(s, before);
      LoopIsCountedBounces(s, before);
      var ms := Journal(s, before);
      LoopPaidStep(t, e, Run(s, events).value, Bounces(ms, Testing), Bounces(ms, Accepting));
    }
  }

  lemma NoLoopPaid(s: TaskState)
    requires s.loop == None
    ensures LoopPaid(s)
  {
  }

  // ----- a failing bounce was affordable ------------------------------------------------

  /** An agent's reject at this stage fails the task for a rejection loop. */
  ghost predicate FailsLoop(t: TaskState, e: Event) {
    && Answers(t, e) && e.Reject? && e.source == Agent && Advance(t, e).Some?
    && Advance(t, e).value.failedReason == Some(RejectionLoopDetected)
  }

  /** The limits under which a loop can fail the task at this stage. */
  predicate Affordable(s: TaskState, p: PipelineState) {
    && (s.mode == Full || s.limits.rejectionLoop <= 1)
    && (if p == Testing then Max(1, s.limits.rejectionLoop) <= s.limits.stageRetry
        else s.limits.rejectionLoop - 1 <= Max(0, s.limits.stageRetry))
  }

  lemma FailingBounceFacts(s: TaskState, t: TaskState, e: Event)
    requires Clean(s) && Reaches(s, t) && FailsLoop(t, e) && (t.stage == Testing || t.stage == Accepting)
    ensures t.mode == s.mode && t.limits == s.limits && LoopPaid(t)
    ensures t.stage == Testing ==> t.Retries(Testing) < t.limits.stageRetry
    ensures
      var again := t.loop.Some? && t.loop.value.rejectionStage == t.stage;
      (if again then t.loop.value.count else 0) + 1 >= s.limits.rejectionLoop
  {
    hide Advance, Honest, Answers, Run, Journal, LoopPaid;
    var events :| Answered(s, events) && Run(s, events) == Some(t);
    RunKeepsSettings(s, events);
    LoopsArePaid(s, events);
    LoopIsCountedBounces(s, events);
    RejectionLoopFailsExactlyAtLimit(s, events, e);
    if t.stage == Testing {
      HooksAreGreenAtTesting(s, events);
    }
  }

  lemma FailingWasAffordable(s: TaskState, t: TaskState, e: Event)
    requires Clean(s) && Reaches(s, t) && FailsLoop(t, e) && (t.stage == Testing || t.stage == Accepting)
    ensures Affordable(s, t.stage)
  {
    hide Advance, Reaches, FailsLoop;
    FailingBounceFacts(s, t, e);
  }

  // ----- an affordable loop can be run --------------------------------------------------

  const BOUNCE: Event := Reject(Agent, "", None, None, None, None)

  /** At the reviewing stage, with this many of its bounces counted and as many of its retries spent. */
  ghost predicate Bounced(s: TaskState, t: TaskState, p: PipelineState, k: nat) {
    && Reaches(s, t) && t.stage == p && Carries(s, t, p, k)
  }

  predicate Carries(s: TaskState, t: TaskState, p: PipelineState, k: nat) {
    && t.mode == s.mode && t.limits == s.limits && t.Retries(p) == k
    && t.loop == if k == 0 then None else Some(RejectionLoop(p, Implementing, k))
  }

  /** The stretch from implementing to a reviewing stage. */
  predicate OnTheWay(t: TaskState, p: PipelineState) {
    && (p == Testing || p == Accepting)
    && Rank(Implementing) <= Rank(t.stage) < Rank(p)
    && (t.mode == Full || Reviewing(t.stage))
  }

  lemma WayRow(p: PipelineState, x: Facts)
    requires Rank(Implementing) <= Rank(p) < Rank(Accepting) && (x.mode == Full || Reviewing(p))
    ensures
      var row := Route(p, KindOf(Smooth(p)), x);
      && row.Some? && row.value.target.To? && Rank(row.value.target.state) == Rank(p) + 1
      && (Reviewing(p) ==> Reviewing(row.value.target.state))
  {
    hide RejectRow, BreakdownRow, RecoveryRow;
  }

  lemma SmoothFires(t: TaskState, x: Facts)
    requires x == FactsOf(t, Smooth(t.stage)) && Route(t.stage, KindOf(Smooth(t.stage)), x).Some?
    requires Route(t.stage, KindOf(Smooth(t.stage)), x).value.target.To?
    ensures
      var row := Route(t.stage, KindOf(Smooth(t.stage)), x).value;
      Advance(t, Smooth(t.stage)) == Some(After(t, row.effect, row.target.state, Smooth(t.stage)))
  {
    hide FactsOf, EffectDelta, Apply, Settled, Route, Smooth;
  }

  /** One smooth answer on the way keeps the loop and the retries. */
  lemma WayStep(s: TaskState, t: TaskState, p: PipelineState, k: nat) returns (u: TaskState)
    requires Reaches(s, t) && OnTheWay(t, p) && Carries(s, t, p, k)
    ensures Reaches(s, u) && Carries(s, u, p, k) && Rank(u.stage) == Rank(t.stage) + 1
    ensures Reviewing(t.stage) ==> Reviewing(u.stage)
  {
    hide Advance, Reaches, FactsOf, EffectDelta, Apply, Settled, Route, Answers;
    var e := Smooth(t.stage);
    var x := FactsOf(t, e);
    ModeFact(t, e);
    WayRow(t.stage, x);
    SmoothFires(t, x);
    SmoothAnswers(t);
    u := Advance(t, e).value;
    assert u.stage == Route(t.stage, KindOf(e), x).value.target.state by {
      var row := Route(t.stage, KindOf(e), x).value;
      SettledFields(t, EffectDelta(row.effect, t, e), t.stage, row.target.state, e);
    }
    ReachesNext(s, t, e);
    FixedStep(t, e, u);
    LoopStep(t, e, u);
    RetryStep(t, e, u);
  }

  lemma {:induction false} WalkTo(s: TaskState, t: TaskState, p: PipelineState, k: nat) returns (u: TaskState)
    requires Reaches(s, t) && Carries(s, t, p, k) && (t.stage == p || OnTheWay(t, p))
    ensures Bounced(s, u, p, k)
    decreases Rank(p) - Rank(t.stage)
  {
    hide Reaches, Carries;
    if t.stage == p {
      u := t;
    } else {
      u := WayStep(s, t, p, k);
      assert u.mode == t.mode by { assert Carries(s, t, p, k) && Carries(s, u, p, k); SameMode(s, t, u, p, k); }
      RanksAreDistinct(u.stage, p);
      u := WalkTo(s, u, p, k);
    }
  }

  lemma SameMode(s: TaskState, t: TaskState, u: TaskState, p: PipelineState, k: nat)
    requires Carries(s, t, p, k) && Carries(s, u, p, k)
    ensures t.mode == u.mode
  {
  }

  lemma RanksAreDistinct(q: PipelineState, p: PipelineState)
    requires p == Testing || p == Accepting
    ensures Rank(q) == Rank(p) <==> q == p
  {
  }

  lemma BounceRow(p: PipelineState, x: Facts)
    requires (p == Testing || p == Accepting) && !x.rejectionLoop && !x.hookLoop && !x.Exhausted(p)
    ensures Route(p, OnReject, x) == Some(Row(To(Implementing), IncStageRetry(p, Implementing)))
  {
  }

  lemma BounceFacts(s: TaskState, t: TaskState, p: PipelineState, k: nat)
    requires Carries(s, t, p, k) && t.stage == p && (p == Testing || p == Accepting)
    ensures Answers(t, BOUNCE) && !HookLoopDetected(t, BOUNCE)
    ensures NextLoop(t, BOUNCE, Some(Implementing)) == Some(RejectionLoop(p, Implementing, k + 1))
    ensures LoopDetected(t, BOUNCE, Some(Implementing)) <==> k + 1 >= s.limits.rejectionLoop
  {
  }

  lemma BouncesAgain(s: TaskState, t: TaskState, p: PipelineState, k: nat) returns (u: TaskState)
    requires Bounced(s, t, p, k) && (p == Testing || p == Accepting)
    requires k + 1 < s.limits.rejectionLoop && k < s.limits.stageRetry
    ensures Reaches(s, u) && u.stage == Implementing && Carries(s, u, p, k + 1)
  {
    hide Advance, Honest, Answers, Reaches, EffectDelta, Apply, Settled, Route, HookLoopDetected, LoopDetected;
    hide NextLoop;
    BounceFacts(s, t, p, k);
    GuardFacts(t, BOUNCE);
    hide FactsOf;
    BounceRow(p, FactsOf(t, BOUNCE));
    RejectFires(t, BOUNCE);
    u := Advance(t, BOUNCE).value;
    SettledFields(t, EffectDelta(IncStageRetry(p, Implementing), t, BOUNCE), t.stage, Implementing, BOUNCE);
    ReachesNext(s, t, BOUNCE);
    LoopStep(t, BOUNCE, u);
    RetryStep(t, BOUNCE, u);
  }

  lemma {:induction false} BounceTo(s: TaskState, p: PipelineState, k: nat) returns (t: TaskState)
    requires Launched(s) && (p == Testing || p == Accepting)
    requires k == 0 || (s.mode == Full && k < s.limits.rejectionLoop && k <= s.limits.stageRetry)
    ensures Bounced(s, t, p, k)
  {
    hide Reaches, Launched;
    if k == 0 {
      var start := JumpTo(s, p);
      t := WalkTo(s, start, p, 0);
    } else {
      var before := BounceTo(s, p, k - 1);
      var u := BouncesAgain(s, before, p, k - 1);
      t := WalkTo(s, u, p, k);
    }
  }

  lemma FailsNow(s: TaskState, t: TaskState, p: PipelineState, k: nat)
    requires Clean(s) && Bounced(s, t, p, k) && (p == Testing || p == Accepting)
    requires k + 1 >= s.limits.rejectionLoop && (p == Testing ==> k < s.limits.stageRetry)
    ensures FailsLoop(t, BOUNCE)
  {
    hide Advance, Honest, Answers, Run, Journal, Bounces;
    var events :| Answered(s, events) && Run(s, events) == Some(t);
    BounceFacts(s, t, p, k);
    LoopIsCountedBounces(s, events);
    RejectionLoopFailsExactlyAtLimit(s, events, BOUNCE);
  }

  /**
    * From a launch, an agent's reject at QA or at the reviewer can ever fail the task for a
    * rejection loop exactly when the bounces before it can be paid for: at QA one retry must
    * still be left, since an exhausted reject is handed to the reviewer; in single mode only
    * the first reject can.
    */
  lemma RejectionLoopCanFailExactly(s: TaskState, p: PipelineState)
    requires Launched(s) && (p == Testing || p == Accepting)
    ensures (exists t, e :: Reaches(s, t) && t.stage == p && FailsLoop(t, e)) <==> Affordable(s, p)
  {
    LaunchIsClean(s.mode, s.entryStage, s.history, s.limits);
    assert Clean(s);
    hide Reaches, Launched, FailsLoop;
    if Affordable(s, p) {
      var k := Max(0, s.limits.rejectionLoop - 1);
      var t := BounceTo(s, p, k);
      FailsNow(s, t, p, k);
    }
    if exists t, e :: Reaches(s, t) && t.stage == p && FailsLoop(t, e) {
      var t, e :| Reaches(s, t) && t.stage == p && FailsLoop(t, e);
      FailingWasAffordable(s, t, e);
    }
  }
}
