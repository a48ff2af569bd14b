/** Every run is finite: how long a task can keep the machine busy. */
module BoundedRuns {
  import opened Common
  import opened Recovery
  import opened Events
  import opened TaskStates
  import opened Deltas
  import opened Patches
  import opened Rules
  import opened Runner
  import opened Runs
  import opened RecoveryRuns

  /** Positions in the order in which a run without retries and resumes visits them. */
  function Rank(p: PipelineState): nat {
    match p
    case Ready => 0
    case RecoveringPreExec => 1
    case WorktreeSync => 2
    case BeforeGrooming => 3
    case Grooming => 4
    case AfterGrooming => 5
    case BeforeImplementing => 6
    case Implementing => 7
    case AfterImplementing => 8
    case BeforeTesting => 9
    case Testing => 10
    case AfterTesting => 11
    case BeforeAccepting => 12
    case Accepting => 13
    case AfterAccepting => 14
    case Commit => 15
    case MergeResolving => 16
    case AfterCommit => 17
    case Recovering => 18
    case Done => 19
    case Failed => 19
  }

  const RANKS: nat := 20

  function Clamp(n: nat, limit: nat): nat {
    if n > limit then limit else n
  }

  function RetryLimit(s: TaskState): nat {
    if s.limits.stageRetry < 0 then 0 else s.limits.stageRetry
  }

  /** Retries already spent in the three retryable epochs. */
  function Spent(s: TaskState): nat {
    var limit := RetryLimit(s);
    Clamp(s.Retries(Implementing), limit) + Clamp(s.Retries(Testing), limit) + Clamp(s.Retries(Accepting), limit)
  }

  /** Upper bound on the moves that remain before the next resume. */
  function Potential(s: TaskState): int {
    (3 * RetryLimit(s) - Spent(s)) * RANKS + (RANKS - 1 - Rank(s.stage))
  }

  function Lap(s: TaskState): nat {
    (3 * RetryLimit(s) + 1) * RANKS
  }

  lemma PotentialRange(s: TaskState)
    ensures 0 <= Potential(s) < Lap(s)
  {
    var limit := RetryLimit(s);
    var left := 3 * limit - Spent(s);
    assert 0 <= left <= 3 * limit;
    assert 0 <= left * RANKS <= 3 * limit * RANKS;
  }

  /** Entry stages with which a launch makes headway. */
  predicate ForwardEntry(entry: Option<PipelineState>) {
    entry.Some? ==> !BeforeFirstPhase(entry.value)
  }

  /** A row either spends a retry, or moves the task forward, or sends it to a named place. */
  predicate Headway(p: PipelineState, x: Facts, row: Row) {
    && (row.effect.IncStageRetry? ==>
          && row.target == To(Implementing) && !x.Exhausted(row.effect.stage)
          && (row.effect.stage == Implementing || row.effect.stage == Testing || row.effect.stage == Accepting))
    && (!row.effect.IncStageRetry? && row.target.To? ==> Rank(row.target.state) > Rank(p))
    && (row.target == EntryFromWorktreeSync ==> p == WorktreeSync)
    && (row.target == ResumeFromPreExec ==> p == RecoveringPreExec)
    && row.target != ResumeFromOrigin
    && row.effect != RecordRecoverySuccess
  }

  lemma PassRowShape(p: PipelineState, x: Facts)
    requires Route(p, OnPass, x).Some?
    ensures Headway(p, x, Route(p, OnPass, x).value)
  {
  }

  lemma HookOkRowShape(p: PipelineState, x: Facts)
    requires Route(p, OnHookOk, x).Some?
    ensures Headway(p, x, Route(p, OnHookOk, x).value)
  {
  }

  lemma RejectRowShape(p: PipelineState, x: Facts)
    requires Route(p, OnReject, x).Some?
    ensures Headway(p, x, Route(p, OnReject, x).value)
  {
    hide Facts.Exhausted;
  }

  lemma OtherRowShape(p: PipelineState, k: EventKind, x: Facts)
    requires Route(p, k, x).Some? && k !in {OnRecoverySucceeded, OnPass, OnHookOk, OnReject}
    ensures Headway(p, x, Route(p, k, x).value)
  {
    hide PassRow, HookOkRow, RejectRow, Facts.Exhausted;
  }

  lemma MoveRowShape(p: PipelineState, k: EventKind, x: Facts)
    requires Route(p, k, x).Some? && k != OnRecoverySucceeded
    ensures Headway(p, x, Route(p, k, x).value)
  {
    hide Route, Headway;
    match k {
      case OnPass => PassRowShape(p, x);
      case OnHookOk => HookOkRowShape(p, x);
      case OnReject => RejectRowShape(p, x);
      case _ => OtherRowShape(p, k, x);
    }
  }

  lemma RetryDelta(f: Effect, s: TaskState, e: Event)
    requires f != RecordRecoverySuccess
    ensures
      var d := EffectDelta(f, s, e);
      d.resetStageRetry.None? && d.incStageRetry == if f.IncStageRetry? then Some(f.stage) else None
  {
    hide FailDelta, RejectionTrackingDelta, FailRejectionLoopDelta, RecoverySuccessDelta, KeySpells, HookDelta;
    hide TriggerFrom, HookLoopDetected;
    match f {
      case Fail(reason) => FailDeltaIsNarrow(s, e, reason);
      case FailRejectionLoop(target) => LoopFailureIsNarrow(s, e, target);
      case IncStageRetry(stage, target) => TrackingDeltaIsNarrow(s, e, stage, true, Some(target));
      case RememberRejection(stage) => TrackingDeltaIsNarrow(s, e, stage, false, None);
      case EnterRecovery => HookDeltaIsNarrow(s, e, if HookLoopDetected(s, e) then Some(true) else None);
      case _ =>
    }
  }

  lemma MoveStep(s: TaskState, e: Event, t: TaskState)
    requires Advance(s, e) == Some(t) && Honest(s, e) && ForwardEntry(s.entryStage) && !e.RecoverySucceeded?
    ensures
      || (t.stageRetry == s.stageRetry && Rank(t.stage) > Rank(s.stage))
      || (exists c ::
            && c in {Implementing, Testing, Accepting}
            && s.Retries(c) < s.limits.stageRetry && t.stageRetry == Bump(s.stageRetry, c) && t.stage == Implementing)
  {
    hide Settled, Apply, Route, Advance, EffectDelta, IsHookAnswer, FactsOf, LoopDetected, HookLoopDetected, Bump;
    hide Rank, Resolve, EntryOf;
    var row := Fired(s, e, t);
    GuardFacts(s, e);
    MoveRowShape(s.stage, KindOf(e), FactsOf(s, e));
    RetryDelta(row.effect, s, e);
    SettledFields(s, EffectDelta(row.effect, s, e), s.stage, t.stage, e);
    TargetOf(row.target, s, e);
    if row.effect.IncStageRetry? {
      var c := row.effect.stage;
      assert s.Retries(c) < s.limits.stageRetry && t.stageRetry == Bump(s.stageRetry, c);
    }
  }

  /** Where the targets of Headway lead. */
  lemma TargetOf(target: Target, s: TaskState, e: Event)
    requires Resolve(target, s, e).Some? && Honest(s, e) && ForwardEntry(s.entryStage)
    ensures target.To? ==> Resolve(target, s, e) == Some(target.state)
    ensures target == EntryFromWorktreeSync ==> Rank(Resolve(target, s, e).value) > Rank(WorktreeSync)
    ensures target == ResumeFromPreExec ==> Rank(Resolve(target, s, e).value) > Rank(RecoveringPreExec)
  {
    hide IsHookAnswer;
  }

  lemma RankRange(p: PipelineState)
    ensures Rank(p) < RANKS && Rank(Implementing) == 7
  {
  }

  lemma RetrySpendsOne(s: TaskState, t: TaskState, c: PipelineState)
    requires c in {Implementing, Testing, Accepting} && s.Retries(c) < s.limits.stageRetry
    requires t.stageRetry == Bump(s.stageRetry, c) && t.limits == s.limits
    ensures Spent(t) == Spent(s) + 1
  {
    assert forall p :: t.Retries(p) == if p == c then s.Retries(p) + 1 else s.Retries(p);
  }

  /** Every move except a resume brings the run closer to its end. */
  lemma PotentialDrops(s: TaskState, e: Event, t: TaskState)
    requires Advance(s, e) == Some(t) && Honest(s, e) && ForwardEntry(s.entryStage) && !e.RecoverySucceeded?
    ensures Potential(t) < Potential(s)
  {
    hide Advance, Honest, Rank, Bump;
    FixedStep(s, e, t);
    MoveStep(s, e, t);
    if !(t.stageRetry == s.stageRetry && Rank(t.stage) > Rank(s.stage)) {
      var c :| c in {Implementing, Testing, Accepting} && s.Retries(c) < s.limits.stageRetry
               && t.stageRetry == Bump(s.stageRetry, c) && t.stage == Implementing;
      RetrySpendsOne(s, t, c);
      RankRange(s.stage);
      RankRange(t.stage);
    }
  }

  // ----- counting over the journal ------------------------------------------------------

  function Resumes(ms: seq<Move>): nat {
    if ms == [] then 0 else Resumes(ms[..|ms| - 1]) + if ms[|ms| - 1].event.RecoverySucceeded? then 1 else 0
  }

  /** Resumes of the recovery agent into recovery itself. */
  function SelfResumes(ms: seq<Move>): nat {
    if ms == [] then 0
    else
      var m := ms[|ms| - 1];
      SelfResumes(ms[..|ms| - 1]) + if m.from == Recovering && m.to == Recovering then 1 else 0
  }

  lemma OneMoreLap(resumes: nat, lap: nat)
    ensures (resumes + 1) * lap == resumes * lap + lap
  {
  }

  lemma SameLap(s: TaskState, t: TaskState)
    requires s.limits == t.limits
    ensures Lap(s) == Lap(t)
  {
  }

  lemma {:induction false} LengthByResumes(s: TaskState, events: seq<Event>)
    requires ForwardEntry(s.entryStage) && Run(s, events).Some?
    ensures
      var t := Run(s, events).value;
      && t.limits == s.limits && t.entryStage == s.entryStage
      && |events| + Potential(t) <= Potential(s) + Resumes(Journal(s, events)) * Lap(s)
  {
    hide Advance, Honest, Potential, Lap, Run, Journal;
    RunKeepsSettings(s, events);
    if events == [] {
      RunStarts(s);
    } else {
      JournalGrows(s, events);
      var before := events[..|events| - 1];
      LengthByResumes(s, before);
      var ms := Journal(s, before);
      var t, e, u := Run(s, before).value, events[|events| - 1], Run(s, events).value;
      assert Resumes(Journal(s, events)) == Resumes(ms) + if e.RecoverySucceeded? then 1 else 0;
      hide Resumes;
      LengthStep(s, t, e, u, |before|, Resumes(ms));
    }
  }

  /** A resume starts a new lap; every other move uses up some of the current one. */
  lemma LengthStep(s: TaskState, t: TaskState, e: Event, u: TaskState, length: nat, resumes: nat)
    requires Advance(t, e) == Some(u) && Honest(t, e) && ForwardEntry(t.entryStage) && t.limits == s.limits
    requires length + Potential(t) <= Potential(s) + resumes * Lap(s)
    ensures
      var resumes' := resumes + if e.RecoverySucceeded? then 1 else 0;
      length + 1 + Potential(u) <= Potential(s) + resumes' * Lap(s)
  {
    hide Advance, Honest, Potential, Lap;
    FixedStep(t, e, u);
    SameLap(s, t);
    SameLap(s, u);
    if e.RecoverySucceeded? {
      PotentialRange(t);
      PotentialRange(u);
      OneMoreLap(resumes, Lap(s));
    } else {
      PotentialDrops(t, e, u);
    }
  }

  lemma ResumesOnlyWhileRecovering(s: TaskState, e: Event)
    requires e.RecoverySucceeded? && s.stage != Recovering
    ensures Advance(s, e).None?
  {
    hide FactsOf, Fire;
  }

  /** The task was sent to recovery by a launch whose entry stage is recovery. */
  predicate LaunchEnters(m: Move) {
    m.to == Recovering && (m.from == WorktreeSync || m.from == RecoveringPreExec) && !IsBreakdown(m.event)
  }

  function LaunchEntries(ms: seq<Move>): nat {
    if ms == [] then 0 else LaunchEntries(ms[..|ms| - 1]) + if LaunchEnters(ms[|ms| - 1]) then 1 else 0
  }

  /** Every resume leaves a recovery that a breakdown, a resume or a launch had entered. */
  lemma {:induction false} ResumesAreEntered(s: TaskState, events: seq<Event>)
    requires Fresh(s) && Run(s, events).Some?
    ensures
      var t, ms := Run(s, events).value, Journal(s, events);
      Resumes(ms) + (if t.stage == Recovering then 1 else 0) <= |Entered(ms)| + SelfResumes(ms) + LaunchEntries(ms)
  {
    hide Advance, Honest, CauseOf, RecoveryTrigger.BudgetKey, Untried, Run, Journal;
    if events == [] {
      RunStarts(s);
    } else {
      JournalGrows(s, events);
      var before := events[..|events| - 1];
      ResumesAreEntered(s, before);
      RunKeepsSettings(s, before);
      var t, e, u := Run(s, before).value, events[|events| - 1], Run(s, events).value;
      if e.RecoverySucceeded? && t.stage != Recovering {
        ResumesOnlyWhileRecovering(t, e);
      } else if IsBreakdown(e) && HasRecovery(t.stage) {
        BreakdownStep(t, e, u);
      } else if t.stage == Recovering {
        RecoveringStep(t, e, u);
      } else {
        OnlyLaunchLeadsCalmlyToRecovering(t, e, u);
      }
    }
  }

  lemma {:induction false} DistinctKeysFit(ts: seq<RecoveryTrigger>, keys: set<string>)
    requires OneShotEach(ts) && forall i :: 0 <= i < |ts| ==> ts[i].BudgetKey() in keys
    ensures |ts| <= |keys|
  {
    hide RecoveryTrigger.BudgetKey;
    if ts != [] {
      var n := |ts| - 1;
      DistinctKeysFit(ts[..n], keys - {ts[n].BudgetKey()});
    }
  }

  lemma LapArithmetic(length: nat, first: int, rest: int, resumes: nat, laps: nat, lap: nat)
    requires length + rest <= first + resumes * lap && 0 <= rest && first < lap && resumes <= laps
    ensures length < (1 + laps) * lap
  {
    assert resumes * lap <= laps * lap;
    assert (1 + laps) * lap == lap + laps * lap;
  }

  /**
    * Every run ends: if the causes entered into recovery draw on at most these budget keys,
    * the number of transitions is at most one lap for the start, one for each key, and one
    * for each time recovery is entered from itself or by the launch.
    */
  lemma RunsAreBounded(s: TaskState, events: seq<Event>, keys: set<string>)
    requires Fresh(s) && ForwardEntry(s.entryStage) && Run(s, events).Some?
    requires
      var entered := Entered(Journal(s, events));
      forall i :: 0 <= i < |entered| ==> entered[i].BudgetKey() in keys
    ensures
      var ms := Journal(s, events);
      |events| < (1 + |keys| + SelfResumes(ms) + LaunchEntries(ms)) * Lap(s)
  {
    hide Run, Journal, Advance, Honest, Lap, Potential, RecoveryTrigger.BudgetKey;
    var t, ms := Run(s, events).value, Journal(s, events);
    RecoveryAccounting(s, events);
    LengthByResumes(s, events);
    ResumesAreEntered(s, events);
    DistinctKeysFit(Entered(ms), keys);
    PotentialRange(s);
    PotentialRange(t);
    var laps := |keys| + SelfResumes(ms) + LaunchEntries(ms);
    LapArithmetic(|events|, Potential(s), Potential(t), Resumes(ms), laps, Lap(s));
  }

  /** In the program's own runs a launch enters recovery at most once, before any other phase. */
  lemma {:induction false} LaunchEntersOnce(s: TaskState, events: seq<Event>)
    requires s.stage == Ready && Answered(s, events)
    ensures
      var t, entries := Run(s, events).value, LaunchEntries(Journal(s, events));
      && (BeforeFirstPhase(t.stage) ==> entries == 0)
      && entries <= if s.entryStage == Some(Recovering) then 1 else 0
  {
    hide Advance, Honest, Answers, Answered, Run, Journal;
    AnsweredGrows(s, events);
    if events == [] {
      RunStarts(s);
    } else {
      JournalGrows(s, events);
      var before := events[..|events| - 1];
      LaunchEntersOnce(s, before);
      RunKeepsSettings(s, before);
      var t, e, u := Run(s, before).value, events[|events| - 1], Run(s, events).value;
      if !BeforeFirstPhase(t.stage) {
        FirstPhaseIsFinal(t, e, u);
      } else if !(IsBreakdown(e) && HasRecovery(t.stage)) {
        OnlyLaunchLeadsCalmlyToRecovering(t, e, u);
      }
    }
  }

  /** So the program's runs are bounded by budget keys and self-resumes alone, whatever forward entry they take. */
  lemma AnsweredRunsAreBounded(s: TaskState, events: seq<Event>, keys: set<string>)
    requires Fresh(s) && ForwardEntry(s.entryStage) && Answered(s, events)
    requires
      var entered := Entered(Journal(s, events));
      forall i :: 0 <= i < |entered| ==> entered[i].BudgetKey() in keys
    ensures |events| < (2 + |keys| + SelfResumes(Journal(s, events))) * Lap(s)
  {
    hide Run, Journal, Advance, Honest, Answers, Lap, Entered, RecoveryTrigger.BudgetKey;
    RunsAreBounded(s, events, keys);
    hide Answered;
    LaunchEntersOnce(s, events);
    var ms := Journal(s, events);
    MoreLaps(1 + |keys| + SelfResumes(ms) + LaunchEntries(ms), 2 + |keys| + SelfResumes(ms), Lap(s));
  }

  lemma MoreLaps(a: nat, b: nat, lap: nat)
    requires a <= b
    ensures a * lap <= b * lap
  {
  }
}
