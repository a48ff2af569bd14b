/** The retry counters over every run. */
module RetryRuns {
  import opened Common
  import opened Recovery
  import opened Events
  import opened TaskStates
  import opened Deltas
  import opened Patches
  import opened Rules
  import opened Runner
  import opened Runs
  import opened RecoveryRuns
  import opened FailureRuns
  import opened LoopRuns
  import opened BoundedRuns
  import opened ReachableRuns

  // ----- the specification, read off the journal ----------------------------------------

  /** A reject of the epoch sent the task back to implementing. */
  predicate Retries(m: Move, epoch: PipelineState) {
    m.event.Reject? && m.to == Implementing && RetryOf(m.from) == epoch
  }

  /** The last move resumes the task from a recovery that was entered from the epoch. */
  predicate Restores(ms: seq<Move>, epoch: PipelineState) {
    var n := |ms|;
    && n >= 2 && ms[n - 1].from == Recovering && ms[n - 1].event.RecoverySucceeded? && ms[n - 1].event.resume.Some?
    && Enters(ms[n - 2]) && RetryOf(ms[n - 2].from) == epoch
  }

  /** Rejects of the epoch that were retried since the last recovery from it succeeded. */
  function SpentRetries(ms: seq<Move>, epoch: PipelineState): nat {
    if ms == [] || Restores(ms, epoch) then 0
    else SpentRetries(ms[..|ms| - 1], epoch) + if Retries(ms[|ms| - 1], epoch) then 1 else 0
  }

  // ----- one transition -----------------------------------------------------------------

  lemma ResetDelta(s: TaskState, e: Event)
    ensures
      var d := EffectDelta(RecordRecoverySuccess, s, e);
      && d.incStageRetry == None
      && d.resetStageRetry == if s.trigger.Some? && s.trigger.value.originStage.Some?
                              then Some(RetryOf(s.trigger.value.originStage.value)) else None
  {
    hide HookRecoveryProgressed, HintName, HintDisposition;
  }

  lemma ResumeRowShape(p: PipelineState, k: EventKind, x: Facts)
    requires Route(p, k, x).Some?
    ensures
      var row := Route(p, k, x).value;
      && (row.effect == RecordRecoverySuccess <==> p == Recovering && k == OnRecoverySucceeded && x.concrete)
      && (row.effect.IncStageRetry? ==> k == OnReject && row.target == To(Implementing))
  {
  }

  /** A successful recovery clears the counter of the stage that failed, and no other. */
  lemma ResumeResetsOrigin(s: TaskState, e: Event, t: TaskState)
    requires Advance(s, e) == Some(t) && s.stage == Recovering && e.RecoverySucceeded? && e.resume.Some?
    ensures
      var origin := if s.trigger.Some? then s.trigger.value.originStage else None;
      forall c :: t.Retries(c) == if origin.Some? && c == RetryOf(origin.value) then 0 else s.Retries(c)
  {
    hide Settled, Apply, Route, Advance, FactsOf, RecoverySuccessDelta, RetryOf;
    var row := Fired(s, e, t);
    GuardFacts(s, e);
    ResumeRowShape(s.stage, KindOf(e), FactsOf(s, e));
    ResetDelta(s, e);
    hide EffectDelta;
    SettledFields(s, EffectDelta(row.effect, s, e), s.stage, t.stage, e);
  }

  /** Otherwise a counter moves only when a reject is retried, and then by one. */
  lemma RetriesStep(s: TaskState, e: Event, t: TaskState)
    requires Advance(s, e) == Some(t) && !(s.stage == Recovering && e.RecoverySucceeded? && e.resume.Some?)
    ensures
      var m := Move(s.stage, e, t.stage);
      forall c :: t.Retries(c) == s.Retries(c) + if Retries(m, c) then 1 else 0
  {
    hide Settled, Apply, Route, Advance, FactsOf, RetryOf, EffectDelta, LoopDetected, HookLoopDetected;
    var row := Fired(s, e, t);
    GuardFacts(s, e);
    ResumeRowShape(s.stage, KindOf(e), FactsOf(s, e));
    RetryRowShape(s.stage, KindOf(e), FactsOf(s, e));
    FailureRowShape(s.stage, KindOf(e), FactsOf(s, e));
    RetryDelta(row.effect, s, e);
    SettledFields(s, EffectDelta(row.effect, s, e), s.stage, t.stage, e);
  }

  // ----- every run ----------------------------------------------------------------------

  /**
    * In every state of every run each retry counter is what the journal says: the rejects of its epoch that were
    * retried since the last successful recovery from that epoch.
    */
  lemma {:induction false} RetriesAreCounted(s: TaskState, events: seq<Event>, epoch: PipelineState)
    requires Fresh(s) && s.stageRetry == map[] && Run(s, events).Some?
    ensures Run(s, events).value.Retries(epoch) == SpentRetries(Journal(s, events), epoch)
  {
    hide Advance, Honest, Run, Journal, Restores, Retries, OriginAgrees;
    if events == [] {
      RunStarts(s);
    } else {
      JournalGrows(s, events);
      var n := |events| - 1;
      var before := events[..n];
      RetriesAreCounted(s, before, epoch);
      OriginIsJournal(s, before);
      var t, e, u := Run(s, before).value, events[n], Run(s, events).value;
      var past, ms, m := Journal(s, before), Journal(s, events), Move(t.stage, e, u.stage);
      assert ms == past + [m] && ms[..|ms| - 1] == past;
      RetriesNext(past, t, e, u, epoch);
    }
  }

  /** The active trigger stems from the last move of the journal. */
  predicate OriginAgrees(t: TaskState, ms: seq<Move>) {
    if ms != [] && Enters(ms[|ms| - 1])
    then t.trigger.Some? && t.trigger.value.originStage == Some(ms[|ms| - 1].from)
    else t.trigger == None
  }

  lemma OriginIsJournal(s: TaskState, events: seq<Event>)
    requires Fresh(s) && Run(s, events).Some?
    ensures OriginAgrees(Run(s, events).value, Journal(s, events))
  {
    hide Advance, Honest, Run, Journal, Enters, CauseOf;
    if events == [] {
      RunStarts(s);
    } else {
      ActiveOrigin(s, events);
    }
  }

  lemma RetriesNext(past: seq<Move>, t: TaskState, e: Event, u: TaskState, epoch: PipelineState)
    requires Advance(t, e) == Some(u) && OriginAgrees(t, past)
    ensures
      var m := Move(t.stage, e, u.stage);
      u.Retries(epoch) ==
        if Restores(past + [m], epoch) then 0 else t.Retries(epoch) + if Retries(m, epoch) then 1 else 0
  {
    hide Advance, RetryOf, Enters;
    if t.stage == Recovering && e.RecoverySucceeded? && e.resume.Some? {
      ResumeResetsOrigin(t, e, u);
    } else {
      RetriesStep(t, e, u);
    }
  }

  /** The active trigger names the position the task broke down in. */
  lemma ActiveOrigin(s: TaskState, events: seq<Event>)
    requires Fresh(s) && |events| > 0 && Run(s, events).Some?
    ensures
      var t, ms := Run(s, events).value, Journal(s, events);
      && |ms| == |events|
      && (Enters(ms[|ms| - 1]) ==>
            && t.trigger == Some(CauseOf(ms[|ms| - 1].from, ms[|ms| - 1].event))
            && t.trigger.value.originStage == Some(ms[|ms| - 1].from))
      && (!Enters(ms[|ms| - 1]) ==> t.trigger == None)
  {
    hide Advance, Honest, Run, Journal, RecoveryTrigger.BudgetKey, Untried;
    JournalGrows(s, events);
    TriggerActiveExactlyWhileRecovering(s, events);
    var before, e := events[..|events| - 1], events[|events| - 1];
    var t, u := Run(s, before).value, Run(s, events).value;
    if IsTerminal(t.stage) {
      TerminalStatesRest(t, e);
    }
    if IsBreakdown(e) && HasRecovery(t.stage) {
      BreakdownStep(t, e, u);
    } else if t.stage == Recovering {
      RecoveringStep(t, e, u);
    } else {
      CalmStep(t, e, u);
    }
  }
}
