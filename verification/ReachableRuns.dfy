/** Whether the two circuit breakers can fire at all: exact conditions on the limits of a launch. */
module ReachableRuns {
  import opened Common
  import opened Recovery
  import opened Events
  import opened TaskStates
  import opened Deltas
  import opened Patches
  import opened Rules
  import opened Runner
  import opened Runs
  import opened RecoveryRuns
  import opened FailureRuns
  import opened LoopRuns
  import opened HookRuns
  import opened BoundedRuns
  import opened EndlessRuns
  import opened WitnessRuns
  import opened FinishingRuns

  /** Some run of the program itself leads there. */
  ghost predicate Reaches(s: TaskState, t: TaskState) {
    exists events :: Answered(s, events) && Run(s, events) == Some(t)
  }

  function Max(a: int, b: int): int { if a >= b then a else b }

  lemma ReachesNext(s: TaskState, t: TaskState, e: Event)
    requires Reaches(s, t) && Answers(t, e) && Advance(t, e).Some?
    ensures Reaches(s, Advance(t, e).value)
  {
    hide Advance, Honest, Answers, Run, Answered;
    var events :| Answered(s, events) && Run(s, events) == Some(t);
    AnswerOneMore(s, events, e);
  }

  // ----- what retries cost --------------------------------------------------------------

  lemma RetryRowShape(p: PipelineState, k: EventKind, x: Facts)
    requires Route(p, k, x).Some?
    ensures
      var row := Route(p, k, x).value;
      && (k == OnReject && row.target == To(Implementing) ==>
            row.effect == IncStageRetry(RetryOf(p), Implementing) && !x.Exhausted(RetryOf(p)))
      && (row.effect.IncStageRetry? ==> k == OnReject)
      && (row.effect == RecordRecoverySuccess ==> p == Recovering)
  {
    hide Facts.Exhausted;
  }

  /** A bounce to implementing spends a retry of its own stage that was still there; nothing else spends one. */
  lemma RetryStep(s: TaskState, e: Event, t: TaskState)
    requires Advance(s, e) == Some(t)
    ensures e.Reject? && t.stage == Implementing ==>
      t.stageRetry == Bump(s.stageRetry, RetryOf(s.stage)) && s.Retries(RetryOf(s.stage)) < s.limits.stageRetry
    ensures !e.Reject? && s.stage != Recovering ==> t.stageRetry == s.stageRetry
    ensures !e.Reject? && s.stageRetry == map[] ==> t.stageRetry == map[]
  {
    hide Settled, Apply, Route, Advance, EffectDelta, FactsOf, LoopDetected, HookLoopDetected, Bump, RetryOf;
    var row := Fired(s, e, t);
    GuardFacts(s, e);
    RetryRowShape(s.stage, KindOf(e), FactsOf(s, e));
    FailureRowShape(s.stage, KindOf(e), FactsOf(s, e));
    if row.effect != RecordRecoverySuccess {
      RetryDelta(row.effect, s, e);
    } else {
      SuccessSpendsNothing(s, e);
    }
    SettledFields(s, EffectDelta(row.effect, s, e), s.stage, t.stage, e);
  }

  lemma SuccessSpendsNothing(s: TaskState, e: Event)
    ensures EffectDelta(RecordRecoverySuccess, s, e).incStageRetry == None
  {
    hide HookRecoveryProgressed, HintName, HintDisposition, RetryCounterStage;
  }

  lemma {:induction false} NoRejectsNoRetries(s: TaskState, events: seq<Event>)
    requires s.stageRetry == map[] && Run(s, events).Some?
    requires forall i :: 0 <= i < |events| ==> !events[i].Reject?
    ensures Run(s, events).value.stageRetry == map[]
  {
    hide Advance, Honest;
    if events != [] {
      JournalGrows(s, events);
      var before := events[..|events| - 1];
      NoRejectsNoRetries(s, before);
      RetryStep(Run(s, before).value, events[|events| - 1], Run(s, events).value);
    }
  }

  /** Every work stage can be entered with nothing tracked and nothing spent. */
  lemma JumpTo(s: TaskState, target: PipelineState) returns (t: TaskState)
    requires Launched(s) && IsAgentStage(target)
    ensures Reaches(s, t) && t.stage == EntryPhase(target) && t.mode == s.mode && t.limits == s.limits
    ensures t.loop == None && t.hookFingerprint == None && t.hookStreak == 0 && t.stageRetry == map[]
  {
    hide Advance, Honest, Answers, Run, Journal;
    LaunchIsClean(s.mode, s.entryStage, s.history, s.limits);
    var events := ResumesTo(s, target);
    t := Run(s, events).value;
    RunKeepsSettings(s, events);
    NoRejectsNoRetries(s, events);
    var ms := Journal(s, events);
    StreakIsCountedRejects(s, events);
    assert forall id :: Streak(ms, id) == 0;
    LoopIsCountedBounces(s, events);
    assert Bounces(ms, Testing) == 0 && Bounces(ms, Accepting) == 0;
  }

  // ----- the same-hook breaker ----------------------------------------------------------

  const COMMAND := "lint"

  function AgainBy(t: TaskState): Event {
    HookReject(t, COMMAND, "", "")
  }

  function AfterImplementingHook(): string {
    HookId(AfterImplementing, COMMAND, "")
  }

  lemma PlainTriggers(s: TaskState, t: TaskState)
    requires Launched(s) && Reaches(s, t)
    ensures t.trigger.Some? ==> t.trigger.value.reasonCode == None
  {
    hide Advance, Honest, Answers, Run;
    var events :| Answered(s, events) && Run(s, events) == Some(t);
    LaunchIsClean(s.mode, s.entryStage, s.history, s.limits);
    HookLoopRecoveryNeverRuns(s, events);
  }

  /** At the after-implementing hooks, with this many rejects of one hook counted and as many retries spent. */
  ghost predicate Climbed(s: TaskState, t: TaskState, k: nat) {
    && Reaches(s, t) && t.stage == AfterImplementing && t.limits == s.limits
    && t.Retries(Implementing) == k && NextStreak(t, AfterImplementingHook()) == k + 1
  }

  lemma HookAnswerFacts(t: TaskState)
    requires t.stage == AfterImplementing
    ensures
      var e := AgainBy(t);
      && Answers(t, e) && e.Reject? && e.source == Hook && HookIdentity(e).Some?
      && HookIdentity(e).value.id == AfterImplementingHook()
      && (HookLoopDetected(t, e) <==> NextStreak(t, AfterImplementingHook()) >= t.limits.sameHookReject)
      && !LoopDetected(t, e, Some(Implementing))
  {
    hide Name, NextStreak;
    assert AfterImplementingHook() != "";
  }

  lemma HookRejectTarget(x: Facts)
    requires !x.rejectionLoop
    ensures Route(AfterImplementing, OnReject, x) == Some(RetryRow(Implementing, x))
  {
  }

  lemma RejectsAgain(s: TaskState, t: TaskState, k: nat) returns (u: TaskState)
    requires Launched(s) && Climbed(s, t, k) && k + 1 < s.limits.sameHookReject && k < s.limits.stageRetry
    ensures Reaches(s, u) && u.stage == Implementing && u.limits == s.limits
    ensures u.Retries(Implementing) == k + 1
    ensures u.hookFingerprint.Some? && u.hookFingerprint.value.id == AfterImplementingHook() && u.hookStreak == k + 1
  {
    hide Advance, Honest, Answers, AgainBy, AfterImplementingHook, HookIdentity, HookLoopDetected, LoopDetected;
    hide Reaches;
    hide NextStreak, Launched, Progress;
    PlainTriggers(s, t);
    var e := AgainBy(t);
    HookAnswerFacts(t);
    AnswersAreHonest(t, e);
    assert Advance(t, e).Some? && Advance(t, e).value.stage == Implementing by {
      GuardFacts(t, e);
      hide FactsOf, EffectDelta, Apply, Settled, Route;
      HookRejectTarget(FactsOf(t, e));
      RejectFires(t, e);
    }
    u := Advance(t, e).value;
    ReachesNext(s, t, e);
    FixedStep(t, e, u);
    RetryStep(t, e, u);
    LiveHookStep(t, e, u);
    ProgressNeedsSuccess(t.stage, u.stage, e);
  }

  lemma RejectFires(t: TaskState, e: Event)
    requires e.Reject? && Route(t.stage, OnReject, FactsOf(t, e)).Some?
    requires Route(t.stage, OnReject, FactsOf(t, e)).value.target.To?
    ensures
      var row := Route(t.stage, OnReject, FactsOf(t, e)).value;
      Advance(t, e) == Some(After(t, row.effect, row.target.state, e))
  {
    hide FactsOf, EffectDelta, Apply, Settled, Route;
  }

  lemma PassFires(t: TaskState)
    requires t.stage == Implementing
    ensures Answers(t, PLAIN_PASS)
    ensures Advance(t, PLAIN_PASS).Some? && Advance(t, PLAIN_PASS).value.stage == AfterImplementing
  {
    hide FactsOf, EffectDelta, Apply, RejectRow, HookOkRow, BreakdownRow;
  }

  lemma HandsInAgain(s: TaskState, u: TaskState, k: nat) returns (t: TaskState)
    requires Launched(s) && Reaches(s, u) && u.stage == Implementing && u.limits == s.limits
    requires u.Retries(Implementing) == k > 0
    requires u.hookFingerprint.Some? && u.hookFingerprint.value.id == AfterImplementingHook() && u.hookStreak == k
    ensures Climbed(s, t, k)
  {
    hide Advance, Honest, Answers, AfterImplementingHook, Reaches, Launched;
    PlainTriggers(s, u);
    PassFires(u);
    AnswersAreHonest(u, PLAIN_PASS);
    t := Advance(u, PLAIN_PASS).value;
    ReachesNext(s, u, PLAIN_PASS);
    FixedStep(u, PLAIN_PASS, t);
    RetryStep(u, PLAIN_PASS, t);
    LiveHookStep(u, PLAIN_PASS, t);
  }

  lemma HookFires(t: TaskState)
    requires t.stage == BeforeImplementing
    ensures Answers(t, HookOk)
    ensures Advance(t, HookOk).Some? && Advance(t, HookOk).value.stage == Implementing
  {
    hide FactsOf, EffectDelta, Apply, RejectRow, PassRow, BreakdownRow;
  }

  /** The way to the after-implementing hooks: a report resumes implementing, its hooks pass, the work is handed in. */
  lemma FirstHandIn(s: TaskState) returns (t: TaskState)
    requires Launched(s)
    ensures Climbed(s, t, 0)
  {
    hide Advance, Honest, Answers, AfterImplementingHook, Reaches;
    var start := JumpTo(s, Implementing);
    HookFires(start);
    var u := Advance(start, HookOk).value;
    UntrackedStep(s, start, HookOk);
    PassFires(u);
    UntrackedStep(s, u, PLAIN_PASS);
    t := Advance(u, PLAIN_PASS).value;
  }

  lemma UntrackedStep(s: TaskState, t: TaskState, e: Event)
    requires Launched(s) && Reaches(s, t) && Answers(t, e) && Advance(t, e).Some? && !e.Reject? && t.stage != Recovering
    requires Advance(t, e).value.stage != Failed
    requires t.hookFingerprint == None && t.hookStreak == 0 && t.limits == s.limits
    ensures
      var u := Advance(t, e).value;
      && Reaches(s, u) && u.hookFingerprint == None && u.hookStreak == 0 && u.limits == s.limits
      && u.stageRetry == t.stageRetry
  {
    hide Advance, Honest, Answers, Reaches, Launched, Progress;
    var u := Advance(t, e).value;
    PlainTriggers(s, t);
    AnswersAreHonest(t, e);
    ReachesNext(s, t, e);
    FixedStep(t, e, u);
    RetryStep(t, e, u);
    LiveHookStep(t, e, u);
  }

  lemma {:induction false} Climb(s: TaskState, k: nat) returns (t: TaskState)
    requires Launched(s) && k <= Max(0, s.limits.stageRetry) && k <= Max(0, s.limits.sameHookReject - 1)
    ensures Climbed(s, t, k)
  {
    hide AfterImplementingHook, Reaches, Launched;
    if k == 0 {
      t := FirstHandIn(s);
    } else {
      var before := Climb(s, k - 1);
      var u := RejectsAgain(s, before, k - 1);
      t := HandsInAgain(s, u, k);
    }
  }

  lemma TripsNow(s: TaskState, t: TaskState, k: nat)
    requires Climbed(s, t, k) && k + 1 >= s.limits.sameHookReject
    ensures Answers(t, AgainBy(t)) && Advance(t, AgainBy(t)).Some?
    ensures Advance(t, AgainBy(t)).value.failedReason == Some(HookRejectLoop)
  {
    hide Advance, Honest, Answers, AgainBy, AfterImplementingHook, HookIdentity, HookLoopDetected, LoopDetected;
    hide Reaches;
    hide NextStreak;
    var e := AgainBy(t);
    HookAnswerFacts(t);
    GuardFacts(t, e);
    hide FactsOf, EffectDelta, Apply, Settled, Route;
    HookRejectTarget(FactsOf(t, e));
    RejectFires(t, e);
    ReasonDelta(Fail(HookRejectLoop), t, e);
    SettledFields(t, EffectDelta(Fail(HookRejectLoop), t, e), t.stage, Failed, e);
  }

  /** The run that trips it: one after-implementing hook rejects until the limit, with a pass in between. */
  lemma BreakerTripsAfterImplementing(s: TaskState) returns (t: TaskState, e: Event)
    requires Launched(s) && s.limits.sameHookReject - 1 <= Max(0, s.limits.stageRetry)
    ensures Reaches(s, t) && t.stage == AfterImplementing && Answers(t, e) && Advance(t, e).Some?
    ensures Advance(t, e).value.failedReason == Some(HookRejectLoop)
  {
    hide Advance, Honest, Answers, Reaches, Launched;
    var k := Max(0, s.limits.sameHookReject - 1);
    t := Climb(s, k);
    e := AgainBy(t);
    TripsNow(s, t, k);
  }

  /** A streak at the after-implementing hooks was paid for, reject by reject, with implementing retries. */
  ghost predicate HookPaid(t: TaskState) {
    t.hookFingerprint.Some? && t.hookFingerprint.value.point == AfterImplementing ==>
      t.hookStreak <= t.Retries(Implementing) <= t.limits.stageRetry
  }

  lemma HookPaidStep(s: TaskState, e: Event, t: TaskState)
    requires Advance(s, e) == Some(t) && Honest(s, e) && t.stage != Failed && HookPaid(s)
    requires StreakInPlace(s) && TracksInPlace(s) && (s.trigger.Some? ==> s.trigger.value.reasonCode == None)
    ensures HookPaid(t)
  {
    hide Advance, HookId, Progress, HookLoopDetected;
    LiveHookStep(s, e, t);
    FixedStep(s, e, t);
    RetryStep(s, e, t);
    if s.hookFingerprint.Some? && HookIdentity(e).Some? && HookIdentity(e).value.id == s.hookFingerprint.value.id {
      var h, again := s.hookFingerprint.value, e.hook.value;
      HookIdsNameTheirPoint(h.point, s.stage, h.command, h.description, again.command, again.description);
    }
  }

  lemma {:induction false} StreaksArePaid(s: TaskState, events: seq<Event>)
    requires Clean(s) && Run(s, events).Some? && Run(s, events).value.stage != Failed
    ensures HookPaid(Run(s, events).value)
  {
    hide Advance, Honest, HookPaid;
    if events == [] {
      NothingPaid(s);
    } else {
      JournalGrows(s, events);
      var before := events[..|events| - 1];
      var t, e := Run(s, before).value, events[|events| - 1];
      if IsTerminal(t.stage) {
        TerminalStatesRest(t, e);
      }
      StreaksArePaid(s, before);
      StreakIsCountedRejects(s, before);
      HookPaidStep(t, e, Run(s, events).value);
    }
  }

  lemma NothingPaid(s: TaskState)
    requires s.hookFingerprint == None
    ensures HookPaid(s)
  {
  }

  lemma HookLoopRowShape(p: PipelineState, k: EventKind, x: Facts)
    requires Route(p, k, x).Some? && Route(p, k, x).value.effect == Fail(HookRejectLoop)
    ensures k == OnReject && x.hookLoop
  {
  }

  lemma HookLoopStep(s: TaskState, e: Event, t: TaskState)
    requires Advance(s, e) == Some(t) && s.failedReason == None && t.failedReason == Some(HookRejectLoop)
    ensures HookLoopDetected(s, e)
  {
    hide Settled, Apply, Route, Advance, EffectDelta, FactsOf, HookLoopDetected, LoopDetected;
    var row := Fired(s, e, t);
    GuardFacts(s, e);
    ReasonDelta(row.effect, s, e);
    SettledFields(s, EffectDelta(row.effect, s, e), s.stage, t.stage, e);
    OnlyFailNamesHooks(row.effect);
    HookLoopRowShape(s.stage, KindOf(e), FactsOf(s, e));
  }

  lemma OnlyFailNamesHooks(f: Effect)
    ensures ReasonOf(f) == Some(HookRejectLoop) ==> f == Fail(HookRejectLoop)
  {
  }

  /** Where the breaker is about to trip past the first reject, that many retries were available. */
  lemma TrippingWasPaid(s: TaskState, events: seq<Event>, e: Event)
    requires Clean(s) && Run(s, events).Some? && s.limits.sameHookReject >= 2
    requires Honest(Run(s, events).value, e) && HookLoopDetected(Run(s, events).value, e)
    ensures s.limits.sameHookReject - 1 <= s.limits.stageRetry
  {
    hide Run, Journal, Streak;
    var t := Run(s, events).value;
    RunKeepsSettings(s, events);
    BreakerOnlyGuardsAfterImplementing(s, events, e);
    StreakIsCountedRejects(s, events);
    StreaksArePaid(s, events);
    var h := t.hookFingerprint.value;
    HookIdsNameTheirPoint(h.point, t.stage, h.command, h.description, e.hook.value.command, e.hook.value.description);
  }

  /**
    * A launch can ever fail for a hook loop exactly when its retries let one hook reject often
    * enough: one reject fewer than the limit has to be retried.
    */
  lemma HookBreakerCanTripExactly(s: TaskState)
    requires Launched(s)
    ensures (exists t :: Reaches(s, t) && t.failedReason == Some(HookRejectLoop)) <==>
      s.limits.sameHookReject - 1 <= Max(0, s.limits.stageRetry)
  {
    hide Advance, Honest, Answers, HookLoopDetected;
    LaunchIsClean(s.mode, s.entryStage, s.history, s.limits);
    assert Clean(s);
    hide Reaches, Launched;
    if s.limits.sameHookReject - 1 <= Max(0, s.limits.stageRetry) {
      var t, e := BreakerTripsAfterImplementing(s);
      ReachesNext(s, t, e);
    }
    if exists t :: Reaches(s, t) && t.failedReason == Some(HookRejectLoop) {
      var t :| Reaches(s, t) && t.failedReason == Some(HookRejectLoop);
      TrippedWasPaid(s, t);
    }
  }

  lemma TrippedWasPaid(s: TaskState, t: TaskState)
    requires Clean(s) && Reaches(s, t) && t.failedReason == Some(HookRejectLoop)
    ensures s.limits.sameHookReject - 1 <= Max(0, s.limits.stageRetry)
  {
    hide Advance, Honest, Answers, HookLoopDetected;
    var events :| Answered(s, events) && Run(s, events) == Some(t);
    assert events != [];
    JournalGrows(s, events);
    hide Run, Journal;
    var before, e := events[..|events| - 1], events[|events| - 1];
    var last := Run(s, before).value;
    ReasonExactlyWhenFailed(s, before);
    if IsTerminal(last.stage) {
      TerminalStatesRest(last, e);
    }
    HookLoopStep(last, e, t);
    if s.limits.sameHookReject >= 2 {
      TrippingWasPaid(s, before, e);
    }
  }
}
