/** Recovery accounting over every run: each entry is concluded once, each cause gets one shot. */
module RecoveryRuns {
  import opened Common
  import opened Recovery
  import opened Events
  import opened TaskStates
  import opened Deltas
  import opened Patches
  import opened Rules
  import opened Runner
  import opened Runs

  // ----- the specification, read off the journal ----------------------------------------

  predicate IsBreakdown(e: Event) {
    e.Blocked? || e.Crash? || e.Timeout?
  }

  predicate HasRecovery(p: PipelineState) {
    p != Recovering && p != RecoveringPreExec
  }

  /** The cause a breakdown in this position stands for; it depends on nothing else. */
  function CauseOf(p: PipelineState, e: Event): RecoveryTrigger
    requires IsBreakdown(e)
  {
    match e
    case Blocked(why) =>
      RecoveryTrigger(Some(p), BlockedKind, FailureFingerprint("blocked:" + why, Some("blocked")), None, None, why)
    case Crash(exc, message) =>
      RecoveryTrigger(Some(p), CrashKind, FailureFingerprint(exc + ":" + message, Some(exc)), None, None, message)
    case Timeout =>
      RecoveryTrigger(Some(p), TimeoutKind, FailureFingerprint("timeout", Some("timeout")), None, None, "")
  }

  predicate Enters(m: Move) {
    IsBreakdown(m.event) && m.to == Recovering
  }

  predicate Denies(m: Move) {
    IsBreakdown(m.event) && HasRecovery(m.from) && m.to == Failed
  }

  /** The causes that were let into recovery, in order. */
  function Entered(ms: seq<Move>): seq<RecoveryTrigger> {
    if ms == [] then []
    else
      var m := ms[|ms| - 1];
      Entered(ms[..|ms| - 1]) + if Enters(m) then [CauseOf(m.from, m.event)] else []
  }

  /** The causes that were turned away, in order. */
  function Denied(ms: seq<Move>): seq<RecoveryTrigger> {
    if ms == [] then []
    else
      var m := ms[|ms| - 1];
      Denied(ms[..|ms| - 1]) + if Denies(m) then [CauseOf(m.from, m.event)] else []
  }

  function Triggers(outcomes: seq<RecoveryOutcome>): seq<RecoveryTrigger> {
    seq(|outcomes|, i requires 0 <= i < |outcomes| => outcomes[i].trigger)
  }

  function Active(s: TaskState): seq<RecoveryTrigger> {
    if s.trigger.Some? then [s.trigger.value] else []
  }

  ghost predicate OneShotEach(ts: seq<RecoveryTrigger>) {
    forall i, j :: 0 <= i < j < |ts| ==> ts[i].BudgetKey() != ts[j].BudgetKey()
  }

  // ----- what one transition does to the recovery fields --------------------------------

  lemma RecoveryRowShape(p: PipelineState, k: EventKind, x: Facts)
    requires Route(p, k, x).Some?
    ensures
      var row := Route(p, k, x).value;
      var breakdown := k == OnBlocked || k == OnCrash || k == OnTimeout;
      && (breakdown && HasRecovery(p) ==>
            row == if x.budgetLeft then Row(To(Recovering), EnterRecovery) else Row(To(Failed), ExhaustRecoveryBudget))
      && (!(breakdown && HasRecovery(p)) ==>
            row.effect != EnterRecovery && row.effect != ExhaustRecoveryBudget && row.target != To(Recovering))
      && (p == Recovering ==> row.effect.Fail? || row.effect == RecordRecoverySuccess)
      && (p != Recovering ==> row.effect != RecordRecoverySuccess && row.target != ResumeFromOrigin)
      && (row.effect == RecordRecoverySuccess ==>
            row.target == ResumeFromOrigin && x.concrete && k == OnRecoverySucceeded)
      && (row.effect.Fail? ==> row.target == To(Failed))
      && (breakdown && !HasRecovery(p) ==> row.effect.Fail?)
  {
  }

  lemma BreakdownCause(s: TaskState, e: Event)
    requires IsBreakdown(e)
    ensures TriggerFrom(s, e) == CauseOf(s.stage, e)
  {
  }

  /** The budget guard, spelled out for a breakdown: no outcome of the window has this key. */
  predicate Untried(s: TaskState, t: RecoveryTrigger) {
    WindowUnconsumed(s.Window(), t.BudgetKey())
  }

  lemma BudgetFact(s: TaskState, e: Event)
    requires IsBreakdown(e)
    ensures FactsOf(s, e).budgetLeft <==> Untried(s, CauseOf(s.stage, e))
  {
    BreakdownCause(s, e);
  }

  lemma BreakdownStep(s: TaskState, e: Event, t: TaskState)
    requires Advance(s, e) == Some(t) && IsBreakdown(e) && HasRecovery(s.stage)
    ensures Untried(s, CauseOf(s.stage, e)) ==>
      t.stage == Recovering && t.trigger == Some(CauseOf(s.stage, e)) && t.history == s.history
    ensures !Untried(s, CauseOf(s.stage, e)) ==>
      && t.stage == Failed && t.trigger == s.trigger && |t.history| == |s.history| + 1
      && t.history[..|s.history|] == s.history && t.history[|s.history|].trigger == CauseOf(s.stage, e)
  {
    hide Settled, Apply, Route, FactsOf, Advance, TriggerFrom, CauseOf, Untried;
    var row := Fired(s, e, t);
    RecoveryRowShape(s.stage, KindOf(e), FactsOf(s, e));
    BudgetFact(s, e);
    BreakdownCause(s, e);
    SettledFields(s, EffectDelta(row.effect, s, e), s.stage, t.stage, e);
  }

  lemma RecoveringStep(s: TaskState, e: Event, t: TaskState)
    requires Advance(s, e) == Some(t) && s.stage == Recovering
    ensures t.trigger == None && |t.history| == |s.history| + |Active(s)| && t.history[..|s.history|] == s.history
    ensures s.trigger.Some? ==> t.history[|s.history|].trigger == s.trigger.value
    ensures t.stage == Failed || (e.RecoverySucceeded? && e.resume.Some? && t.stage == EntryOf(e.resume.value))
  {
    hide Settled, Apply, Route, Advance, TriggerFrom;
    var row := Fired(s, e, t);
    RecoveryRowShape(s.stage, KindOf(e), FactsOf(s, e));
    SettledFields(s, EffectDelta(row.effect, s, e), s.stage, t.stage, e);
  }

  lemma QuietDelta(f: Effect, s: TaskState, e: Event)
    requires f != EnterRecovery && f != ExhaustRecoveryBudget && f != RecordRecoverySuccess && s.stage != Recovering
    ensures
      var d := EffectDelta(f, s, e);
      d.setTrigger.None? && !d.clearTrigger && d.appendOutcome.None?
  {
    hide FailDelta, RejectionTrackingDelta, FailRejectionLoopDelta, RecoverySuccessDelta, EnterRecoveryDelta;
    hide ExhaustBudgetDelta, KeySpells;
    match f {
      case Fail(reason) => FailDeltaIsNarrow(s, e, reason);
      case FailRejectionLoop(target) => LoopFailureIsNarrow(s, e, target);
      case IncStageRetry(stage, target) => TrackingDeltaIsNarrow(s, e, stage, true, Some(target));
      case RememberRejection(stage) => TrackingDeltaIsNarrow(s, e, stage, false, None);
      case _ =>
    }
  }

  lemma CalmStep(s: TaskState, e: Event, t: TaskState)
    requires Advance(s, e) == Some(t) && s.stage != Recovering && !(IsBreakdown(e) && HasRecovery(s.stage))
    ensures t.trigger == s.trigger && t.history == s.history
    ensures IsBreakdown(e) ==> t.stage == Failed
  {
    hide Settled, Apply, Route, FactsOf, Advance, EffectDelta;
    var row := Fired(s, e, t);
    RecoveryRowShape(s.stage, KindOf(e), FactsOf(s, e));
    QuietDelta(row.effect, s, e);
    SettledFields(s, EffectDelta(row.effect, s, e), s.stage, t.stage, e);
  }

  // ----- accounting over a run ----------------------------------------------------------

  /**
    * Since the launch, the causes concluded in the history followed by the active one are
    * exactly the causes entered, followed by the one that was denied, if any. No cause is
    * entered twice, and a trigger is only active while the task is recovering.
    */
  ghost predicate Accounted(s: TaskState, start: nat, entered: seq<RecoveryTrigger>, denied: seq<RecoveryTrigger>) {
    && s.budgetStart == start && start <= |s.history|
    && Triggers(s.history[start..]) + Active(s) == entered + denied
    && OneShotEach(entered)
    && (s.stage != Failed ==> denied == [])
    && (s.trigger.Some? ==> s.stage == Recovering)
  }

  lemma AppendedTrigger(h: seq<RecoveryOutcome>, g: seq<RecoveryOutcome>, start: nat)
    requires start <= |h| && |g| == |h| + 1 && g[..|h|] == h
    ensures Triggers(g[start..]) == Triggers(h[start..]) + [g[|h|].trigger]
  {
    var a, b := Triggers(g[start..]), Triggers(h[start..]) + [g[|h|].trigger];
    forall i | 0 <= i < |a| ensures a[i] == b[i] {
      if i < |h| - start {
        assert g[start..][i] == g[..|h|][start + i];
      }
    }
  }

  lemma UntriedMeans(s: TaskState, start: nat, entered: seq<RecoveryTrigger>, t: RecoveryTrigger)
    requires s.budgetStart == start && start <= |s.history| && Triggers(s.history[start..]) == entered
    ensures Untried(s, t) <==> forall i :: 0 <= i < |entered| ==> entered[i].BudgetKey() != t.BudgetKey()
  {
    hide RecoveryTrigger.BudgetKey;
    var w := s.Window();
    assert forall i :: 0 <= i < |entered| ==> entered[i] == w[i].trigger;
  }

  lemma OneMoreShot(ts: seq<RecoveryTrigger>, t: RecoveryTrigger)
    requires OneShotEach(ts) && forall i :: 0 <= i < |ts| ==> ts[i].BudgetKey() != t.BudgetKey()
    ensures OneShotEach(ts + [t])
  {
    hide RecoveryTrigger.BudgetKey;
  }

  lemma AccountedStep(
    s: TaskState, e: Event, t: TaskState, start: nat, entered: seq<RecoveryTrigger>, denied: seq<RecoveryTrigger>)
    requires Advance(s, e) == Some(t) && Accounted(s, start, entered, denied)
    ensures
      var m := Move(s.stage, e, t.stage);
      Accounted(t, start,
        entered + (if Enters(m) then [CauseOf(s.stage, e)] else []),
        denied + (if Denies(m) then [CauseOf(s.stage, e)] else []))
  {
    hide Advance, CauseOf, RecoveryTrigger.BudgetKey, Untried, Triggers, OneShotEach;
    if IsTerminal(s.stage) {
      TerminalStatesRest(s, e);
    }
    FixedStep(s, e, t);
    var was := Triggers(s.history[start..]);
    assert was + [] == was && entered + [] == entered && denied + [] == denied;
    if IsBreakdown(e) && HasRecovery(s.stage) {
      BreakdownStep(s, e, t);
      var cause := CauseOf(s.stage, e);
      UntriedMeans(s, start, entered, cause);
      if Untried(s, cause) {
        OneMoreShot(entered, cause);
      } else {
        AppendedTrigger(s.history, t.history, start);
      }
    } else if s.stage == Recovering {
      RecoveringStep(s, e, t);
      if s.trigger.Some? {
        AppendedTrigger(s.history, t.history, start);
      } else {
        assert t.history == s.history;
      }
    } else {
      CalmStep(s, e, t);
    }
  }

  /** A launch that starts in order. */
  ghost predicate Fresh(s: TaskState) {
    s.stage == Ready && s.trigger == None && s.budgetStart == |s.history|
  }

  /** A launch with nothing tracked. */
  ghost predicate Clean(s: TaskState) {
    && Fresh(s) && s.hookFingerprint == None && s.hookStreak == 0
    && s.failedReason == None && s.loop == None
  }

  /** Every launch starts like that, whatever recovery history it keeps. */
  lemma LaunchIsClean(
    mode: PipelineMode, entryStage: Option<PipelineState>, history: seq<RecoveryOutcome>, limits: Limits)
    ensures Clean(Launch(mode, entryStage, history, limits))
  {
  }

  /** Exactly as the launch code builds it. */
  predicate Launched(s: TaskState) {
    s == Launch(s.mode, s.entryStage, s.history, s.limits)
  }

  lemma {:induction false} RecoveryAccounting(s: TaskState, events: seq<Event>)
    requires Fresh(s) && Run(s, events).Some?
    ensures
      var ms := Journal(s, events);
      Accounted(Run(s, events).value, |s.history|, Entered(ms), Denied(ms))
  {
    hide Advance, CauseOf, RecoveryTrigger.BudgetKey, Honest;
    if events == [] {
      assert Triggers([]) == [];
    } else {
      var n := |events| - 1;
      var before := events[..n];
      RecoveryAccounting(s, before);
      var ms, all := Journal(s, before), Journal(s, events);
      assert all[..|all| - 1] == ms;
      AccountedStep(Run(s, before).value, events[n], Run(s, events).value, |s.history|, Entered(ms), Denied(ms));
    }
  }

  /**
    * First come, first served: a breakdown is let into recovery exactly when no breakdown
    * entered earlier in the run has its budget key; otherwise the task fails.
    */
  lemma AdmittedExactlyOnFirstOccurrence(s: TaskState, events: seq<Event>)
    requires Fresh(s) && |events| > 0 && Run(s, events).Some?
    requires
      var m := Journal(s, events)[|Journal(s, events)| - 1];
      IsBreakdown(m.event) && HasRecovery(m.from)
    ensures
      var ms := Journal(s, events);
      var m := ms[|ms| - 1];
      var earlier := Entered(ms[..|ms| - 1]);
      var first := forall i :: 0 <= i < |earlier| ==> earlier[i].BudgetKey() != CauseOf(m.from, m.event).BudgetKey();
      (Enters(m) <==> first) && (Denies(m) <==> !first)
  {
    hide Advance, CauseOf, RecoveryTrigger.BudgetKey, Honest, Untried, Triggers;
    JournalGrows(s, events);
    var before := events[..|events| - 1];
    var t, e := Run(s, before).value, events[|events| - 1];
    RecoveryAccounting(s, before);
    if IsTerminal(t.stage) {
      TerminalStatesRest(t, e);
    }
    BreakdownStep(t, e, Run(s, events).value);
    var earlier, was := Entered(Journal(s, before)), Triggers(t.history[|s.history|..]);
    assert was + [] == was && earlier + [] == earlier;
    UntriedMeans(t, |s.history|, earlier, CauseOf(t.stage, e));
  }

  /** The launch named recovery as its entry stage, and the task has just been sent there. */
  predicate EntersByLaunch(s: TaskState, m: Move) {
    && s.entryStage == Some(Recovering) && m.to == Recovering
    && ((m.from == WorktreeSync && m.event.Pass?) || (m.from == RecoveringPreExec && m.event.PreExecRecoverySucceeded?))
  }

  lemma CalmRowShape(p: PipelineState, k: EventKind, x: Facts)
    requires Route(p, k, x).Some?
    ensures Route(p, k, x).value.target == EntryFromWorktreeSync ==> p == WorktreeSync && k == OnPass
    ensures Route(p, k, x).value.target == ResumeFromPreExec ==> p == RecoveringPreExec && k == OnPreExecSucceeded
  {
  }

  lemma OnlyLaunchLeadsCalmlyToRecovering(s: TaskState, e: Event, t: TaskState)
    requires Advance(s, e) == Some(t) && s.stage != Recovering && !(IsBreakdown(e) && HasRecovery(s.stage))
    requires Honest(s, e)
    ensures t.stage == Recovering <==> EntersByLaunch(s, Move(s.stage, e, t.stage))
  {
    hide Settled, Apply, Route, FactsOf, Advance, EffectDelta, IsHookAnswer;
    var row := Fired(s, e, t);
    RecoveryRowShape(s.stage, KindOf(e), FactsOf(s, e));
    CalmRowShape(s.stage, KindOf(e), FactsOf(s, e));
  }

  /**
    * A trigger is active exactly right after a breakdown was let into recovery. So a recovering
    * task lacks one exactly when it was sent to recovery by the recovery agent itself, or by a
    * launch whose entry stage is recovery.
    */
  lemma {:induction false} TriggerActiveExactlyWhileRecovering(s: TaskState, events: seq<Event>)
    requires Fresh(s) && Run(s, events).Some?
    ensures
      var t, ms := Run(s, events).value, Journal(s, events);
      && (t.trigger.Some? <==> ms != [] && Enters(ms[|ms| - 1]))
      && (t.trigger.Some? ==> t.stage == Recovering)
      && (t.stage == Recovering && t.trigger.None? <==>
          ms != [] && (var m := ms[|ms| - 1];
                       (m.from == Recovering && m.to == Recovering) || EntersByLaunch(s, m)))
  {
    hide Advance, CauseOf, RecoveryTrigger.BudgetKey, Honest, Untried, Triggers, OneShotEach;
    JournalLength(s, events);
    if events != [] {
      JournalGrows(s, events);
      var before := events[..|events| - 1];
      TriggerActiveExactlyWhileRecovering(s, before);
      RecoveryAccounting(s, before);
      RunKeepsSettings(s, before);
      var t, e, u := Run(s, before).value, events[|events| - 1], Run(s, events).value;
      if IsTerminal(t.stage) {
        TerminalStatesRest(t, e);
      }
      if IsBreakdown(e) && HasRecovery(t.stage) {
        BreakdownStep(t, e, u);
      } else if t.stage == Recovering {
        RecoveringStep(t, e, u);
      } else {
        CalmStep(t, e, u);
        OnlyLaunchLeadsCalmlyToRecovering(t, e, u);
      }
    }
  }

  /** Breakdowns are the only causes, so no recovery is ever run for a hook-reject loop. */
  lemma {:induction false} EnteredCausesHaveNoReasonCode(ms: seq<Move>, i: nat)
    requires i < |Entered(ms)|
    ensures Entered(ms)[i].reasonCode == None && Entered(ms)[i].originStage.Some?
  {
    var n := |ms| - 1;
    if i < |Entered(ms[..n])| {
      EnteredCausesHaveNoReasonCode(ms[..n], i);
    }
  }

  lemma HookLoopRecoveryNeverRuns(s: TaskState, events: seq<Event>)
    requires Fresh(s) && Run(s, events).Some?
    ensures
      var t := Run(s, events).value;
      t.trigger.Some? ==> t.trigger.value.reasonCode == None
  {
    hide Advance, CauseOf, RecoveryTrigger.BudgetKey, Honest, OneShotEach;
    RecoveryAccounting(s, events);
    var t, ms := Run(s, events).value, Journal(s, events);
    if t.trigger.Some? {
      var all := Entered(ms) + Denied(ms);
      assert all[|all| - 1] == t.trigger.value && Denied(ms) == [];
      EnteredCausesHaveNoReasonCode(ms, |Entered(ms)| - 1);
    }
  }

  // ----- which breakdowns share a budget ------------------------------------------------

  /** What a breakdown is filed under. */
  function FiledUnder(e: Event): string
    requires IsBreakdown(e)
  {
    match e
    case Blocked(_) => "blocked"
    case Timeout => "timeout"
    case Crash(kind, message) => if kind != "" then kind else ":" + message
  }

  /** Two breakdowns draw on one budget exactly when they happen at the same position and are filed alike. */
  lemma BreakdownsShareBudgets(p: PipelineState, e: Event, q: PipelineState, f: Event)
    requires IsBreakdown(e) && IsBreakdown(f)
    ensures CauseOf(p, e).BudgetKey() == CauseOf(q, f).BudgetKey() <==> p == q && FiledUnder(e) == FiledUnder(f)
  {
    KeyOfBreakdown(p, e);
    KeyOfBreakdown(q, f);
    hide CauseOf, RecoveryTrigger.BudgetKey, FiledUnder;
    BudgetKeysDoNotCollide(CauseOf(p, e), CauseOf(q, f));
  }

  lemma KeyOfBreakdown(p: PipelineState, e: Event)
    requires IsBreakdown(e)
    ensures CauseOf(p, e).failure.BudgetKey() == FiledUnder(e) && CauseOf(p, e).originStage == Some(p)
  {
    if e.Crash? && e.excType == "" {
      assert "" + ":" + e.message == ":" + e.message;
    }
  }
}
