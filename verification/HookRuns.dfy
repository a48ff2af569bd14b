/** The same-hook streak over every run, and where its circuit breaker can trip at all. */
module HookRuns {
  import opened Common
  import opened Recovery
  import opened Events
  import opened TaskStates
  import opened Deltas
  import opened Patches
  import opened Rules
  import opened Runner
  import opened Runs
  import opened RecoveryRuns
  import opened FailureRuns
  import Text

  // ----- the specification: one independent counter for each hook identity --------------

  /** The identified hook rejected. */
  predicate RejectedBy(m: Move, id: string) {
    HookIdentity(m.event).Some? && HookIdentity(m.event).value.id == id
  }

  /** What ends a streak: any other reject, green hooks after implementing, or recovery. */
  predicate EndsStreak(m: Move, id: string) {
    || (m.event.Reject? && !RejectedBy(m, id))
    || (m.event.HookOk? && m.from == AfterImplementing)
    || Enters(m)
    || m.from == Recovering
  }

  /** Rejects by this hook since the last move that ended its streak. */
  function Streak(ms: seq<Move>, id: string): nat {
    if ms == [] then 0
    else
      var m := ms[|ms| - 1];
      if EndsStreak(m, id) then 0
      else Streak(ms[..|ms| - 1], id) + if RejectedBy(m, id) then 1 else 0
  }

  /** Streaks only exist between a hook's reject and the end of the next implementing visit. */
  predicate MayTrack(p: PipelineState) {
    p == Implementing || p == AfterImplementing
  }

  /** The stored streak is the counter of the stored hook, and every other counter is zero. */
  ghost predicate StreakCounted(s: TaskState, count: string -> nat) {
    match s.hookFingerprint
    case None => s.hookStreak == 0 && forall id :: count(id) == 0
    case Some(h) => 0 < s.hookStreak == count(h.id) && forall id :: id != h.id ==> count(id) == 0
  }

  /** While the task lives, a streak is kept only around implementing, and past one only for its after-hooks. */
  ghost predicate StreakInPlace(s: TaskState) {
    s.hookFingerprint.Some? ==>
      var h := s.hookFingerprint.value;
      && MayTrack(s.stage)
      && h.id == HookId(h.point, h.command, h.description)
      && (s.hookStreak > 1 ==> h.point == AfterImplementing)
  }

  /** What holds of the streak whatever the limits are. */
  ghost predicate StreakKept(s: TaskState, count: string -> nat) {
    && StreakCounted(s, count)
    && (s.stage != Failed ==> StreakInPlace(s))
    && (s.trigger.Some? ==> s.trigger.value.reasonCode == None)
  }

  predicate StreakBelowLimit(s: TaskState) {
    s.hookFingerprint.Some? ==> s.hookStreak < s.limits.sameHookReject
  }

  ghost predicate StreakAgrees(s: TaskState, count: string -> nat) {
    StreakKept(s, count) && (s.stage != Failed ==> StreakBelowLimit(s))
  }

  // ----- one transition -----------------------------------------------------------------

  lemma HookRowShape(p: PipelineState, k: EventKind, x: Facts)
    requires Route(p, k, x).Some?
    ensures
      var row := Route(p, k, x).value;
      && (k == OnReject ==>
            || (row.effect.IncStageRetry? && row.target == To(Implementing) && !x.hookLoop)
            || (row.effect.RememberRejection? && row.target == To(Accepting) && p == Testing)
            || row.target == To(Failed))
      && (p == Recovering ==> row.target == To(Failed) || row.effect == RecordRecoverySuccess)
      && (p != Recovering && (k == OnBlocked || k == OnCrash || k == OnTimeout) ==>
            row == Row(To(Recovering), EnterRecovery) || row.target == To(Failed))
      && (p != Recovering && k !in {OnReject, OnBlocked, OnCrash, OnTimeout} ==>
            || row.effect in {NoEffect, EnterPreExecRecovery, StashConflictFiles, ClearCompletedRejectionLoop}
            || row.target == To(Failed))
      && (MayTrack(p) && k !in {OnReject, OnBlocked, OnCrash, OnTimeout} ==>
            || (p == Implementing && row.target == To(AfterImplementing) && k == OnPass)
            || (p == AfterImplementing && k == OnHookOk && row.target.To? && Primary(row.target.state) != Implementing)
            || row.target == To(Failed))
  {
  }

  lemma HookDeltas(f: Effect, s: TaskState, e: Event)
    ensures
      var d := EffectDelta(f, s, e);
      match f
      case IncStageRetry(_, _) | RememberRejection(_) =>
        if HookIdentity(e).Some?
        then d.setHookFingerprint == HookIdentity(e) && !d.clearHookTracking
             && d.setHookStreak == Some(NextStreak(s, HookIdentity(e).value.id))
        else d.setHookFingerprint == None && d.setHookStreak == None && d.clearHookTracking
      case EnterRecovery =>
        HookIdentity(e).None? ==> d.setHookFingerprint == None && d.setHookStreak == None && d.clearHookTracking
      case RecordRecoverySuccess =>
        && d.setHookFingerprint == None && d.setHookStreak == None
        && ((s.trigger.Some? && s.trigger.value.reasonCode == Some("hook_reject_loop")) || d.clearHookTracking)
      case NoEffect | EnterPreExecRecovery | StashConflictFiles | ClearCompletedRejectionLoop =>
        d.setHookFingerprint == None && d.setHookStreak == None && !d.clearHookTracking
      case FailRejectionLoop(_) | ExhaustRecoveryBudget =>
        d.setHookFingerprint == None && d.setHookStreak == None && !d.clearHookTracking
      case Fail(_) =>
        if HookIdentity(e).Some?
        then d.setHookFingerprint == HookIdentity(e) && !d.clearHookTracking
             && d.setHookStreak == Some(NextStreak(s, HookIdentity(e).value.id))
        else d.setHookFingerprint == None && d.setHookStreak == None && d.clearHookTracking == e.Reject?
  {
    assert HookIdentity(e).Some? ==> e.Reject?;
    hide HookIdentity, NextLoop, TriggerFrom, HookRecoveryProgressed, HookLoopDetected, FailureMessage;
    hide RetryCounterStage;
  }

  /** Where nothing can be tracked, nothing is. */
  predicate TracksInPlace(s: TaskState) {
    if s.hookFingerprint.Some? then MayTrack(s.stage) else s.hookStreak == 0
  }

  /** The hook fields after a move. */
  predicate HookFieldsFollow(s: TaskState, e: Event, t: TaskState) {
    var m := Move(s.stage, e, t.stage);
    if Progress(s.stage, t.stage, e) || s.stage == Recovering || Enters(m) || (e.Reject? && HookIdentity(e).None?)
    then t.hookStreak == 0 && t.hookFingerprint == None
    else if e.Reject?
    then t.hookFingerprint == HookIdentity(e) && t.hookStreak == NextStreak(s, HookIdentity(e).value.id)
    else t.hookStreak == s.hookStreak && t.hookFingerprint == s.hookFingerprint
  }

  lemma LiveRejectStep(s: TaskState, e: Event, t: TaskState)
    requires Advance(s, e) == Some(t) && Honest(s, e) && t.stage != Failed && e.Reject?
    ensures HookFieldsFollow(s, e, t)
    ensures HookIdentity(e).Some? ==> t.stage == Implementing && !HookLoopDetected(s, e)
  {
    hide Settled, Apply, Route, Advance, EffectDelta, FactsOf, NextLoop, LoopDetected, NextStreak, HookLoopDetected;
    IdentityIsHook(s, e);
    hide HookIdentity, Honest;
    var row := Fired(s, e, t);
    GuardFacts(s, e);
    HookRowShape(s.stage, KindOf(e), FactsOf(s, e));
    HookDeltas(row.effect, s, e);
    SettledHookFields(s, EffectDelta(row.effect, s, e), s.stage, t.stage, e);
  }

  lemma LiveCalmStep(s: TaskState, e: Event, t: TaskState)
    requires Advance(s, e) == Some(t) && Honest(s, e) && t.stage != Failed && !e.Reject?
    requires s.trigger.Some? ==> s.trigger.value.reasonCode == None
    ensures HookFieldsFollow(s, e, t)
    ensures MayTrack(s.stage) ==>
      || (s.stage == Implementing && t.stage == AfterImplementing && e.Pass?)
      || Progress(s.stage, t.stage, e) || Enters(Move(s.stage, e, t.stage))
    ensures MayTrack(s.stage) ==> (Progress(s.stage, t.stage, e) <==> s.stage == AfterImplementing && e.HookOk?)
  {
    hide Settled, Apply, Route, Advance, EffectDelta, FactsOf, NextLoop, LoopDetected, NextStreak, HookLoopDetected;
    IdentityIsHook(s, e);
    hide HookIdentity, Honest;
    var row := Fired(s, e, t);
    GuardFacts(s, e);
    HookRowShape(s.stage, KindOf(e), FactsOf(s, e));
    HookDeltas(row.effect, s, e);
    SettledHookFields(s, EffectDelta(row.effect, s, e), s.stage, t.stage, e);
  }

  lemma LiveHookStep(s: TaskState, e: Event, t: TaskState)
    requires Advance(s, e) == Some(t) && Honest(s, e) && t.stage != Failed
    requires s.trigger.Some? ==> s.trigger.value.reasonCode == None
    ensures HookFieldsFollow(s, e, t)
    ensures HookIdentity(e).Some? ==> t.stage == Implementing && !HookLoopDetected(s, e)
    ensures MayTrack(s.stage) && !e.Reject? ==>
      || (s.stage == Implementing && t.stage == AfterImplementing && e.Pass?)
      || Progress(s.stage, t.stage, e) || Enters(Move(s.stage, e, t.stage))
    ensures MayTrack(s.stage) && !e.Reject? ==>
      (Progress(s.stage, t.stage, e) <==> s.stage == AfterImplementing && e.HookOk?)
  {
    IdentityIsHook(s, e);
    hide Advance, Honest, HookFieldsFollow, HookIdentity, HookLoopDetected, Progress;
    if e.Reject? {
      LiveRejectStep(s, e, t);
    } else {
      LiveCalmStep(s, e, t);
    }
  }

  lemma IdentityIsHook(s: TaskState, e: Event)
    requires Honest(s, e)
    ensures HookIdentity(e).Some? ==> e.Reject? && IsHookPhase(s.stage)
  {
  }

  /** What leads to FAILED: a recorded failure, or a success that names FAILED from outside the epochs. */
  lemma FailedRowShape(p: PipelineState, k: EventKind, x: Facts)
    requires Route(p, k, x).Some?
    ensures
      var row := Route(p, k, x).value;
      && (row.target == To(Failed) ==>
            row.effect.Fail? || row.effect == ExhaustRecoveryBudget || row.effect == FailRejectionLoop(Implementing))
      && (row.effect == ExhaustRecoveryBudget ==> k != OnReject)
      && (row.effect == FailRejectionLoop(Implementing) ==> x.rejectionLoop)
      && (!row.target.To? ==> !MayTrack(p) && k != OnReject && (row.effect == NoEffect || p == Recovering))
      && (p == Recovering ==> k != OnReject)
      && (k == OnHookOk ==> row.target != To(Failed) && row.target.To?)
      && (MayTrack(p) && k == OnPass ==> row.target == To(AfterImplementing))
  {
  }

  lemma FailedHookStep(s: TaskState, e: Event, t: TaskState)
    requires Advance(s, e) == Some(t) && t.stage == Failed && TracksInPlace(s)
    requires s.trigger.Some? ==> s.trigger.value.reasonCode == None
    ensures HookFieldsFollow(s, e, t) && !e.HookOk?
    ensures MayTrack(s.stage) ==> !Progress(s.stage, t.stage, e)
  {
    hide Settled, Apply, Route, Advance, EffectDelta, FactsOf, NextLoop, LoopDetected, NextStreak, HookLoopDetected;
    assert HookIdentity(e).Some? ==> e.Reject?;
    hide HookIdentity;
    var row := Fired(s, e, t);
    GuardFacts(s, e);
    FailedRowShape(s.stage, KindOf(e), FactsOf(s, e));
    LoopsAreFoundByAgents(s, e);
    HookDeltas(row.effect, s, e);
    SettledHookFields(s, EffectDelta(row.effect, s, e), s.stage, t.stage, e);
  }

  lemma LoopsAreFoundByAgents(s: TaskState, e: Event)
    ensures LoopDetected(s, e, Some(Implementing)) ==> HookIdentity(e).None? && !MayTrack(s.stage)
  {
  }

  lemma TriggerReasonStep(s: TaskState, e: Event, t: TaskState)
    requires Advance(s, e) == Some(t) && (s.trigger.Some? ==> s.trigger.value.reasonCode == None)
    ensures t.trigger.Some? ==> t.trigger.value.reasonCode == None
  {
    hide Advance, Untried;
    if IsBreakdown(e) && HasRecovery(s.stage) {
      BreakdownStep(s, e, t);
    } else if s.stage == Recovering {
      RecoveringStep(s, e, t);
    } else {
      CalmStep(s, e, t);
    }
  }

  lemma HookIdsNameTheirPoint(p: PipelineState, q: PipelineState, c: string, d: string, c': string, d': string)
    requires HookId(p, c, d) == HookId(q, c', d')
    ensures p == q
  {
    hide Name;
    var x, y := c + ['|'] + d, c' + ['|'] + d';
    NamesArePlain(p);
    NamesArePlain(q);
    assert HookId(p, c, d) == Name(p) + ['|'] + x && HookId(q, c', d') == Name(q) + ['|'] + y;
    Text.SeparatorSplits(Name(p), Name(q), '|', x, y);
    NamesAreDistinct(p, q);
  }

  /** The counters after one more move. */
  ghost function Counted(count: string -> nat, m: Move): string -> nat {
    id => if EndsStreak(m, id) then 0 else count(id) + if RejectedBy(m, id) then 1 else 0
  }

  lemma StreakKeptStep(s: TaskState, e: Event, t: TaskState, count: string -> nat)
    requires Advance(s, e) == Some(t) && Honest(s, e) && s.stage != Failed && StreakKept(s, count)
    ensures StreakKept(t, Counted(count, Move(s.stage, e, t.stage)))
  {
    hide Advance, HookId, Progress;
    if t.stage == Failed {
      FailedHookStep(s, e, t);
    } else {
      LiveHookStep(s, e, t);
    }
    TriggerReasonStep(s, e, t);
    var m := Move(s.stage, e, t.stage);
    var after := Counted(count, m);
    if Progress(s.stage, t.stage, e) || s.stage == Recovering || Enters(m) || (e.Reject? && HookIdentity(e).None?) {
      if s.stage == Recovering || Enters(m) || (e.Reject? && HookIdentity(e).None?) {
        AllEnd(count, m);
      } else {
        ProgressIsNoReject(s.stage, t.stage, e);
        if s.hookFingerprint == None {
          NothingStarts(count, m);
        } else {
          AllEnd(count, m);
        }
      }
    } else if e.Reject? {
      var h := HookIdentity(e).value;
      OneContinues(count, m, h);
    } else {
      assert forall id :: after(id) == count(id);
    }
  }

  lemma ProgressIsNoReject(from: PipelineState, to: PipelineState, e: Event)
    requires Progress(from, to, e)
    ensures !e.Reject?
  {
  }

  lemma NothingStarts(count: string -> nat, m: Move)
    requires (forall id :: count(id) == 0) && !m.event.Reject?
    ensures forall id :: Counted(count, m)(id) == 0
  {
  }

  lemma AllEnd(count: string -> nat, m: Move)
    requires
      || m.from == Recovering || Enters(m) || (m.event.Reject? && HookIdentity(m.event).None?)
      || (m.event.HookOk? && m.from == AfterImplementing)
    ensures forall id :: Counted(count, m)(id) == 0
  {
    hide HookIdentity, Enters;
    var after := Counted(count, m);
    forall id ensures after(id) == 0 {
      assert EndsStreak(m, id);
    }
  }

  lemma OneContinues(count: string -> nat, m: Move, h: HookFingerprint)
    requires m.event.Reject? && HookIdentity(m.event) == Some(h) && m.from != Recovering && !Enters(m)
    ensures Counted(count, m)(h.id) == count(h.id) + 1
    ensures forall id :: id != h.id ==> Counted(count, m)(id) == 0
  {
    hide HookIdentity, Enters;
    var after := Counted(count, m);
    assert !EndsStreak(m, h.id) && RejectedBy(m, h.id);
    forall id | id != h.id ensures after(id) == 0 {
      assert EndsStreak(m, id);
    }
  }

  lemma BelowLimitStep(s: TaskState, e: Event, t: TaskState)
    requires Advance(s, e) == Some(t) && Honest(s, e) && t.stage != Failed && StreakBelowLimit(s)
    requires s.trigger.Some? ==> s.trigger.value.reasonCode == None
    ensures StreakBelowLimit(t)
  {
    hide Advance, HookId, Progress;
    LiveHookStep(s, e, t);
    FixedStep(s, e, t);
  }

  lemma StreakAgreesStep(s: TaskState, e: Event, t: TaskState, count: string -> nat)
    requires Advance(s, e) == Some(t) && Honest(s, e) && s.stage != Failed && StreakAgrees(s, count)
    ensures StreakAgrees(t, Counted(count, Move(s.stage, e, t.stage)))
  {
    hide Advance, Honest, StreakCounted, StreakInPlace, StreakBelowLimit, Counted;
    StreakKeptStep(s, e, t, count);
    if t.stage != Failed {
      BelowLimitStep(s, e, t);
    }
  }

  lemma ProgressNeedsSuccess(from: PipelineState, to: PipelineState, e: Event)
    requires e.Reject?
    ensures !Progress(from, to, e)
  {
  }

  /**
    * In every state of every run, failed ones included, the stored streak is what counting the
    * rejects of each hook in the journal gives, and it is positive exactly when a hook is stored.
    * While the task lives it is below the limit, and above one only for an after-implementing hook.
    */
  lemma {:induction false} StreakIsCountedRejects(s: TaskState, events: seq<Event>)
    requires s.stage == Ready && s.trigger == None && s.hookFingerprint == None && s.hookStreak == 0
    requires Run(s, events).Some?
    ensures StreakAgrees(Run(s, events).value, id => Streak(Journal(s, events), id))
  {
    hide Advance, Honest, HookId;
    var ms := Journal(s, events);
    if events != [] {
      JournalGrows(s, events);
      var before := events[..|events| - 1];
      var t, e := Run(s, before).value, events[|events| - 1];
      if IsTerminal(t.stage) {
        TerminalStatesRest(t, e);
      }
      StreakIsCountedRejects(s, before);
      var count := id => Streak(Journal(s, before), id);
      StreakAgreesStep(t, e, Run(s, events).value, count);
      var after := Counted(count, Move(t.stage, e, Run(s, events).value.stage));
      assert forall id :: after(id) == Streak(ms, id);
    }
  }

  lemma HookRejectRow(p: PipelineState, x: Facts)
    requires Bucket(p) in {Some(ImplementingStage), Some(TestingStage), Some(AcceptingStage)}
    requires IsHookPhase(p) && !x.rejectionLoop
    ensures Route(p, OnReject, x).Some? && Route(p, OnReject, x).value.target.To?
    ensures ReasonOf(Route(p, OnReject, x).value.effect) == Some(HookRejectLoop) <==> x.hookLoop
  {
  }

  lemma StreakCarried(s: TaskState, count: string -> nat, e: Event)
    requires StreakCounted(s, count) && IsHookAnswer(s, e)
    ensures e.streak == Some(count(e.hook.value.fingerprint) + 1)
  {
    hide HookId;
  }

  /**
    * In any live state, a hook reject of a retryable epoch fails the task for a hook loop
    * exactly when the rejects of that hook in the journal, with this one, reach the limit.
    */
  lemma BreakerTripsExactlyAtLimit(s: TaskState, events: seq<Event>, e: Event)
    requires Clean(s) && Run(s, events).Some?
    requires
      var t := Run(s, events).value;
      && Bucket(t.stage) in {Some(ImplementingStage), Some(TestingStage), Some(AcceptingStage)}
      && e.Reject? && e.source == Hook && Honest(t, e)
    ensures
      var t := Run(s, events).value;
      && Advance(t, e).Some?
      && (Advance(t, e).value.failedReason == Some(HookRejectLoop) <==>
          Streak(Journal(s, events), e.hook.value.fingerprint) + 1 >= t.limits.sameHookReject)
  {
    hide Run, Journal, Streak, EffectDelta, FactsOf, Route, Settled, Apply, HookId;
    var t := Run(s, events).value;
    var count := id => Streak(Journal(s, events), id);
    ReasonExactlyWhenFailed(s, events);
    StreakIsCountedRejects(s, events);
    StreakCarried(t, count, e);
    var x := FactsOf(t, e);
    GuardFacts(t, e);
    HookRejectRow(t.stage, x);
    var row := Route(t.stage, OnReject, x).value;
    ReasonDelta(row.effect, t, e);
    SettledFields(t, EffectDelta(row.effect, t, e), t.stage, row.target.state, e);
  }

  /**
    * With a limit of two or more, the breaker can only trip at the after-implementing hooks:
    * every other hook starts over at one each time, because its reject sends the task back to
    * implementing and leaving implementing again ends the streak.
    */
  lemma BreakerOnlyGuardsAfterImplementing(s: TaskState, events: seq<Event>, e: Event)
    requires Clean(s) && Run(s, events).Some? && s.limits.sameHookReject >= 2
    requires
      var t := Run(s, events).value;
      Honest(t, e) && HookLoopDetected(t, e)
    ensures Run(s, events).value.stage == AfterImplementing
  {
    hide Run, Journal, Streak, HookId;
    RunKeepsSettings(s, events);
    StreakIsCountedRejects(s, events);
  }

  // ----- recovery of a hook loop, effect by effect --------------------------------------

  /**
    * A recovery invoked for a hook loop keeps streak and identity exactly when it resumes
    * into the phase it came from; the next reject by that hook then goes on counting.
    */
  lemma HookLoopRecoverySticksExactlyInPlace(s: TaskState, e: Event, h: HookFingerprint, again: Event)
    requires s.trigger.Some? && s.trigger.value.reasonCode == Some("hook_reject_loop")
    requires s.trigger.value.originStage.Some? && e.RecoverySucceeded? && e.resume.Some?
    requires s.hookFingerprint == Some(h) && s.hookStreak > 0
    requires HookIdentity(again).Some? && HookIdentity(again).value.id == h.id
    ensures
      var t := Apply(s, EffectDelta(RecordRecoverySuccess, s, e));
      var sticks := KeyOf(e.resume.value) == KeyOf(s.trigger.value.originStage.value) && e.resume.value != Done;
      var u := Apply(t, EffectDelta(IncStageRetry(Implementing, Implementing), t, again));
      && (t.hookFingerprint == Some(h) <==> sticks)
      && (t.hookRecoveryInvoked <==> sticks)
      && u.hookStreak == if sticks then s.hookStreak + 1 else 1
  {
    hide HookIdentity, NextLoop, HintName, HintDisposition, RetryCounterStage, KeyOf, Bump;
  }
}
