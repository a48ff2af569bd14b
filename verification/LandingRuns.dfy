/** What a full pipeline guarantees about work that lands: the reviewer accepted it. */
module LandingRuns {
  import opened Common
  import opened Recovery
  import opened Events
  import opened TaskStates
  import opened Deltas
  import opened Patches
  import opened Rules
  import opened Runner
  import opened Runs
  import opened RecoveryRuns

  /** Positions behind the reviewer's verdict. */
  predicate Landing(p: PipelineState) {
    p == AfterAccepting || CommitReached(p) || p == Done
  }

  /** The implementing agent handed in work. */
  predicate HandsIn(m: Move) {
    m.event.Pass? && m.from == Implementing
  }

  predicate Accepts(m: Move) {
    m.event.Pass? && m.from == Accepting
  }

  /** A recovery agent, or the launch itself, put the task behind the reviewer. */
  predicate Jumps(m: Move) {
    Landing(m.to) && (m.from == Recovering || m.from == WorktreeSync || m.from == RecoveringPreExec)
  }

  /** Since the last work was handed in, some move of this kind happened. */
  predicate SinceHandIn(ms: seq<Move>, kind: Move -> bool) {
    ms != [] && (kind(ms[|ms| - 1]) || (!HandsIn(ms[|ms| - 1]) && SinceHandIn(ms[..|ms| - 1], kind)))
  }

  /** A row leads behind the reviewer only from there, by acceptance, or to a named place. */
  predicate Guarded(p: PipelineState, k: EventKind, row: Row) {
    && (row.target.To? && Landing(row.target.state) ==> Landing(p) || (p == Accepting && k == OnPass))
    && (!row.target.To? ==> p == Recovering || p == WorktreeSync || p == RecoveringPreExec)
    && (p == Implementing && k == OnPass ==> row.target == To(AfterImplementing))
  }

  lemma LandingRejectShape(p: PipelineState, x: Facts)
    requires Route(p, OnReject, x).Some?
    ensures Guarded(p, OnReject, Route(p, OnReject, x).value)
  {
  }

  lemma LandingPassShape(p: PipelineState, x: Facts)
    requires Route(p, OnPass, x).Some?
    ensures Guarded(p, OnPass, Route(p, OnPass, x).value)
  {
  }

  lemma LandingHookOkShape(p: PipelineState, x: Facts)
    requires Route(p, OnHookOk, x).Some? && x.mode == Full
    ensures Guarded(p, OnHookOk, Route(p, OnHookOk, x).value)
  {
  }

  lemma LandingOtherShape(p: PipelineState, k: EventKind, x: Facts)
    requires Route(p, k, x).Some? && k !in {OnReject, OnPass, OnHookOk}
    ensures Guarded(p, k, Route(p, k, x).value)
  {
    hide RejectRow, PassRow, HookOkRow;
  }

  lemma LandingRowShape(p: PipelineState, k: EventKind, x: Facts)
    requires Route(p, k, x).Some? && x.mode == Full
    ensures Guarded(p, k, Route(p, k, x).value)
  {
    hide Route, Guarded;
    match k {
      case OnReject => LandingRejectShape(p, x);
      case OnPass => LandingPassShape(p, x);
      case OnHookOk => LandingHookOkShape(p, x);
      case _ => LandingOtherShape(p, k, x);
    }
  }

  lemma LandingStep(s: TaskState, e: Event, t: TaskState)
    requires Advance(s, e) == Some(t) && s.mode == Full && Landing(t.stage)
    ensures
      var m := Move(s.stage, e, t.stage);
      !HandsIn(m) && (Landing(s.stage) || Accepts(m) || Jumps(m))
  {
    hide Settled, Apply, Route, Advance, EffectDelta, TriggerFrom, LoopDetected, HookLoopDetected;
    var row := Fired(s, e, t);
    LandingRowShape(s.stage, KindOf(e), FactsOf(s, e));
  }

  /**
    * In full mode, whenever a task is at or behind the commit, the work that was handed in
    * last was accepted by the reviewer after it was handed in, unless a recovery or the
    * launch put the task there.
    */
  lemma {:induction false} LandedWorkWasAccepted(s: TaskState, events: seq<Event>)
    requires s.stage == Ready && s.mode == Full && Run(s, events).Some? && Landing(Run(s, events).value.stage)
    ensures
      var ms := Journal(s, events);
      SinceHandIn(ms, m => Accepts(m)) || SinceHandIn(ms, m => Jumps(m))
  {
    hide Advance, Honest;
    if events != [] {
      JournalGrows(s, events);
      var before := events[..|events| - 1];
      RunKeepsSettings(s, before);
      var t := Run(s, before).value;
      LandingStep(t, events[|events| - 1], Run(s, events).value);
      if Landing(t.stage) {
        LandedWorkWasAccepted(s, before);
      }
    }
  }
}
