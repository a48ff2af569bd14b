/** No run is stuck: while a task is on the pipeline, answers that report success lead it to DONE. */
module FinishingRuns {
  import opened Common
  import opened Recovery
  import opened Events
  import opened TaskStates
  import opened Deltas
  import opened Patches
  import opened Rules
  import opened Runner
  import opened Runs
  import opened BoundedRuns

  predicate OnTrack(p: PipelineState) {
    p != RecoveringPreExec && p != Failed
  }

  /** The answer a position gives when all is well. */
  function Smooth(p: PipelineState): Event {
    if p == Ready then CleanState
    else if IsHookPhase(p) then HookOk
    else if p == Recovering then RecoverySucceeded(Some(Done), DoneHint)
    else Pass(None, None)
  }

  lemma SmoothRow(p: PipelineState, x: Facts)
    requires OnTrack(p) && p != Done && (p == Recovering ==> x.concrete)
    ensures Route(p, KindOf(Smooth(p)), x).Some?
    ensures
      var row := Route(p, KindOf(Smooth(p)), x).value;
      if p == WorktreeSync then row.target == EntryFromWorktreeSync
      else if p == Recovering then row.target == ResumeFromOrigin
      else row.target.To? && OnTrack(row.target.state) && Rank(row.target.state) > Rank(p)
  {
    hide RejectRow, BreakdownRow, RecoveryRow;
  }

  lemma SmoothTarget(s: TaskState, row: Row)
    requires OnTrack(s.stage) && s.stage != Done && ForwardEntry(s.entryStage) && s.entryStage != Some(Failed)
    requires
      if s.stage == WorktreeSync then row.target == EntryFromWorktreeSync
      else if s.stage == Recovering then row.target == ResumeFromOrigin
      else row.target.To? && OnTrack(row.target.state) && Rank(row.target.state) > Rank(s.stage)
    ensures
      var next := Resolve(row.target, s, Smooth(s.stage));
      next.Some? && OnTrack(next.value) && Rank(next.value) > Rank(s.stage)
  {}

  lemma SmoothAnswers(s: TaskState)
    requires OnTrack(s.stage) && s.stage != Done
    ensures Answers(s, Smooth(s.stage))
  {}

  lemma SmoothStep(s: TaskState)
    requires OnTrack(s.stage) && s.stage != Done
    requires ForwardEntry(s.entryStage) && s.entryStage != Some(Failed)
    ensures Answers(s, Smooth(s.stage)) && Honest(s, Smooth(s.stage)) && Advance(s, Smooth(s.stage)).Some?
    ensures
      var t := Advance(s, Smooth(s.stage)).value;
      OnTrack(t.stage) && Rank(t.stage) > Rank(s.stage) && t.entryStage == s.entryStage
  {
    hide Apply, Settled, EffectDelta, FactsOf, Answers, Honest, Route, Rank, Resolve, OnTrack;
    var e := Smooth(s.stage);
    SmoothAnswers(s);
    AnswersAreHonest(s, e);
    GuardFacts(s, e);
    SmoothRow(s.stage, FactsOf(s, e));
    var row := Route(s.stage, KindOf(e), FactsOf(s, e)).value;
    SmoothTarget(s, row);
    hide Smooth, KindOf, ForwardEntry;
    SettledFields(s, EffectDelta(row.effect, s, e), s.stage, Resolve(row.target, s, e).value, e);
  }

  predicate IsSmooth(e: Event) {
    e == CleanState || e == HookOk || e == Pass(None, None) || e == RecoverySucceeded(Some(Done), DoneHint)
  }

  /** Every run that is on track can be continued to DONE, each position on the way giving its smooth answer. */
  lemma {:induction false} EveryRunCanFinish(s: TaskState, start: seq<Event>) returns (events: seq<Event>)
    requires ForwardEntry(s.entryStage) && s.entryStage != Some(Failed)
    requires Run(s, start).Some? && OnTrack(Run(s, start).value.stage)
    ensures Run(s, events).Some? && Run(s, events).value.stage == Done
    ensures start <= events && |events| + Rank(Run(s, start).value.stage) <= |start| + Rank(Done)
    ensures forall i :: |start| <= i < |events| ==> IsSmooth(events[i])
    ensures Answered(s, start) ==> Answered(s, events)
    decreases Rank(Done) - Rank(Run(s, start).value.stage)
  {
    hide Advance, Honest, Run, Journal, Rank, Answers, Answered;
    RunKeepsSettings(s, start);
    var t := Run(s, start).value;
    if t.stage == Done {
      events := start;
    } else {
      var e := Smooth(t.stage);
      SmoothStep(t);
      RunOneMore(s, start, e);
      if Answered(s, start) {
        AnswerOneMore(s, start, e);
      }
      RankBelowDone(Advance(t, e).value.stage);
      events := EveryRunCanFinish(s, start + [e]);
    }
  }

  lemma RankBelowDone(p: PipelineState)
    ensures Rank(p) <= Rank(Done) < RANKS
  {}

  /** So every launch with a forward entry stage has a run that ends in DONE. */
  lemma EveryLaunchCanFinish(s: TaskState) returns (events: seq<Event>)
    requires s.stage == Ready && ForwardEntry(s.entryStage) && s.entryStage != Some(Failed)
    ensures Answered(s, events) && Run(s, events).value.stage == Done
    ensures |events| < RANKS && forall i :: 0 <= i < |events| ==> IsSmooth(events[i])
  {
    hide Advance, Honest, Rank;
    assert Run(s, []) == Some(s);
    RankBelowDone(Ready);
    events := EveryRunCanFinish(s, []);
  }
}
