/** The runner: one transition at a time, until the task rests (litehive/lifecycle/runner.py). */
module Runner {
  import opened Common
  import opened Recovery
  import opened Events
  import opened TaskStates
  import opened Deltas
  import opened Patches
  import opened Rules
  import RouteProof

  /** The report bits that ride on the event instead of a patch. */
  function Reported(r: LastReport, e: Event): LastReport {
    match e
    case HookOk => r.(hookOk := true)
    case Reject(Hook, _, _, _, _, _) => r.(hookOk := false)
    case Pass(files, tests) =>
      r.(filesChanged := if files.Some? then files.value else r.filesChanged,
         testsAdded := if tests.Some? then tests.value else r.testsAdded)
    case _ => r
  }

  /** A pass or a green hook that leaves the stage ends the current hook-reject streak. */
  predicate Progress(from: PipelineState, to: PipelineState, e: Event) {
    && (e.Pass? || e.HookOk?)
    && (Primary(from) != Primary(to) || from == Commit || from == MergeResolving)
  }

  function Settled(s: TaskState, from: PipelineState, to: PipelineState, e: Event): TaskState {
    var moved := s.(report := Reported(s.report, e), stage := to);
    if Progress(from, to, e)
    then moved.(hookStreak := 0, hookFingerprint := None, hookRecoveryInvoked := false)
    else moved
  }

  function Routed(s: TaskState, e: Event): Option<Transition> {
    match Route(s.stage, KindOf(e), FactsOf(s, e))
    case None => None
    case Some(row) => Fire(row.target, row.effect, s, e)
  }

  /** One transition; None where the source raises and leaves the state alone. */
  function Advance(s: TaskState, e: Event): Option<TaskState> {
    match Routed(s, e)
    case None => None
    case Some(t) => Some(Settled(Apply(s, t.delta), s.stage, t.next, e))
  }

  /** The states a list of events drives the task through, ending with the last one. */
  function Drive(s: TaskState, events: seq<Event>): Option<TaskState> {
    if events == [] then Some(s)
    else match Drive(s, events[..|events| - 1])
      case None => None
      case Some(t) => Advance(t, events[|events| - 1])
  }

  /** Firing the first matching row of the table is what Routed computes. */
  lemma TableRoutes(s: TaskState, e: Event)
    ensures
      match FirstMatch(Table(), s.stage, KindOf(e), FactsOf(s, e))
      case None => Routed(s, e) == None
      case Some(r) => Routed(s, e) == Fire(r.target, r.effect, s, e)
  {
    RouteProof.TableDecidesRoute(s.stage, KindOf(e), FactsOf(s, e));
  }

  // The writes of a patch one after the other, in the runner's order.

  method WriteCounters(s: TaskState, d: StateDelta) returns (r: TaskState)
    ensures r == CountersApplied(s, d)
  {
    r := s;
    if d.incStageRetry.Some? { r := r.(stageRetry := Bump(r.stageRetry, d.incStageRetry.value)); }
    if d.resetStageRetry.Some? { r := r.(stageRetry := r.stageRetry - {d.resetStageRetry.value}); }
    if d.setTrigger.Some? { r := r.(trigger := d.setTrigger); }
    if d.clearTrigger { r := r.(trigger := None); }
    if d.appendOutcome.Some? { r := r.(history := r.history + [d.appendOutcome.value]); }
  }

  method WriteContext(s: TaskState, d: StateDelta) returns (r: TaskState)
    ensures r == ContextApplied(s, d)
  {
    r := s;
    if d.incPreExec { r := r.(preExecAttempt := r.preExecAttempt + 1); }
    if d.setMergeContext.Some? { r := r.(mergeContext := d.setMergeContext); }
    if d.clearMergeContext { r := r.(mergeContext := None); }
    if d.clearLoop { r := r.(loop := None); }
    if d.setLoop.Some? { r := r.(loop := d.setLoop); }
  }

  method WriteHookTracking(s: TaskState, d: StateDelta) returns (r: TaskState)
    ensures r == HookApplied(s, d)
  {
    r := s;
    if d.clearHookTracking { r := r.(hookStreak := 0, hookFingerprint := None); }
    if d.setHookStreak.Some? { r := r.(hookStreak := d.setHookStreak.value); }
    if d.setHookFingerprint.Some? { r := r.(hookFingerprint := d.setHookFingerprint); }
    if d.setHookRecoveryInvoked.Some? { r := r.(hookRecoveryInvoked := d.setHookRecoveryInvoked.value); }
  }

  method WriteFailure(s: TaskState, d: StateDelta) returns (r: TaskState)
    ensures r == FailureApplied(s, d)
  {
    r := s;
    if d.failedReason.Some? { r := r.(failedReason := d.failedReason); }
    if d.failedMessage.Some? { r := r.(failedMessage := d.failedMessage); }
    if d.clearExplanation { r := r.(explanation := None); }
    if d.setExplanation.Some? { r := r.(explanation := d.setExplanation); }
  }

  method ApplyDelta(s: TaskState, d: StateDelta) returns (r: TaskState)
    ensures r == Apply(s, d)
  {
    r := WriteCounters(s, d);
    r := WriteContext(r, d);
    r := WriteHookTracking(r, d);
    r := WriteFailure(r, d);
  }

  /** Event side effects, the move itself, and the streak reset on progress. */
  method Settle(s: TaskState, from: PipelineState, to: PipelineState, e: Event) returns (r: TaskState)
    ensures r == Settled(s, from, to, e)
  {
    r := s.(report := Reported(s.report, e), stage := to);
    if Progress(from, to, e) {
      r := r.(hookStreak := 0, hookFingerprint := None, hookRecoveryInvoked := false);
    }
  }

  class StateMachineRunner {
    var state: TaskState

    constructor (initial: TaskState)
      ensures state == initial
    {
      state := initial;
    }

    /** Evaluates the rule table and commits the consequences in order; false where it raises. */
    method ApplyTransition(e: Event) returns (moved: bool)
      modifies this
      ensures moved <==> Advance(old(state), e).Some?
      ensures state == if moved then Advance(old(state), e).value else old(state)
    {
      var t := Evaluate(Table(), state, e);
      TableRoutes(state, e);
      if t.None? {
        return false;
      }
      var from := state.stage;
      var patched := ApplyDelta(state, t.value.delta);
      state := Settle(patched, from, t.value.next, e);
      return true;
    }

    /**
      * Feeds node answers to the machine until it rests, raises, the operator asks to stop, or the answers run out.
      * The stop request is polled after every node's own answer, not after the runner's time-budget event.
      */
    method RunTask(answers: seq<Event>, stopRequested: nat -> bool) returns (used: nat)
      modifies this
      ensures used <= |answers|
      ensures Drive(old(state), answers[..used]) == Some(state)
      ensures
        || used == |answers|
        || IsTerminal(state.stage)
        || Advance(state, answers[used]).None?
        || (used > 0 && StopsAfter(answers, stopRequested, used - 1))
      ensures forall i :: 0 <= i < used - 1 ==> !StopsAfter(answers, stopRequested, i)
    {
      hide Advance, StopsAfter;
      used := 0;
      while used < |answers| && !IsTerminal(state.stage)
        invariant used <= |answers|
        invariant Drive(old(state), answers[..used]) == Some(state)
        invariant forall i :: 0 <= i < used ==> !StopsAfter(answers, stopRequested, i)
      {
        var moved := ApplyTransition(answers[used]);
        if !moved {
          return;
        }
        assert answers[..used + 1][..used] == answers[..used];
        used := used + 1;
        if StopsAfter(answers, stopRequested, used - 1) {
          return;
        }
      }
    }
  }

  predicate StopsAfter(answers: seq<Event>, stopRequested: nat -> bool, i: nat)
    requires i < |answers|
  {
    !answers[i].TaskTimeBudgetExceeded? && stopRequested(i)
  }
}
