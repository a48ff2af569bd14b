/**
  * Applying a state patch (StateMachineRunner._apply_delta) and the reason its order of
  * application does not matter: every effect produces a patch without conflicts.
  */
module Patches {
  import opened Common
  import opened Recovery
  import opened Events
  import opened TaskStates
  import opened Deltas

  /** One field write of a patch. Clearing hook tracking is two writes: streak and identity. */
  datatype Patch =
    | IncRetry(at: PipelineState)
    | ResetRetry(at: PipelineState)
    | PutTrigger(trigger: Option<RecoveryTrigger>)
    | AddOutcome(outcome: RecoveryOutcome)
    | IncPreExec
    | PutMerge(merge: Option<MergeContext>)
    | PutLoop(loop: Option<RejectionLoop>)
    | PutStreak(streak: int)
    | PutFingerprint(hook: Option<HookFingerprint>)
    | PutInvoked(invoked: bool)
    | PutReason(reason: FailedReason)
    | PutMessage(message: string)
    | PutExplanation(explanation: Option<Explanation>)

  function Bump(m: map<PipelineState, nat>, at: PipelineState): map<PipelineState, nat> {
    m[at := (if at in m then m[at] else 0) + 1]
  }

  function Write(s: TaskState, p: Patch): TaskState {
    match p
    case IncRetry(at) => s.(stageRetry := Bump(s.stageRetry, at))
    case ResetRetry(at) => s.(stageRetry := s.stageRetry - {at})
    case PutTrigger(v) => s.(trigger := v)
    case AddOutcome(v) => s.(history := s.history + [v])
    case IncPreExec => s.(preExecAttempt := s.preExecAttempt + 1)
    case PutMerge(v) => s.(mergeContext := v)
    case PutLoop(v) => s.(loop := v)
    case PutStreak(v) => s.(hookStreak := v)
    case PutFingerprint(v) => s.(hookFingerprint := v)
    case PutInvoked(v) => s.(hookRecoveryInvoked := v)
    case PutReason(v) => s.(failedReason := Some(v))
    case PutMessage(v) => s.(failedMessage := Some(v))
    case PutExplanation(v) => s.(explanation := v)
  }

  function WriteAll(s: TaskState, ps: seq<Patch>): TaskState
    decreases |ps|
  {
    if ps == [] then s else WriteAll(Write(s, ps[0]), ps[1..])
  }

  function When(b: bool, p: Patch): seq<Patch> {
    if b then [p] else []
  }

  function CounterWrites(d: StateDelta): seq<Patch> {
    (if d.incStageRetry.Some? then [IncRetry(d.incStageRetry.value)] else [])
    + (if d.resetStageRetry.Some? then [ResetRetry(d.resetStageRetry.value)] else [])
    + When(d.setTrigger.Some?, PutTrigger(d.setTrigger))
    + When(d.clearTrigger, PutTrigger(None))
    + (if d.appendOutcome.Some? then [AddOutcome(d.appendOutcome.value)] else [])
  }

  function ContextWrites(d: StateDelta): seq<Patch> {
    When(d.incPreExec, IncPreExec)
    + When(d.setMergeContext.Some?, PutMerge(d.setMergeContext))
    + When(d.clearMergeContext, PutMerge(None))
    + When(d.clearLoop, PutLoop(None))
    + When(d.setLoop.Some?, PutLoop(d.setLoop))
  }

  function HookWrites(d: StateDelta): seq<Patch> {
    When(d.clearHookTracking, PutStreak(0))
    + When(d.clearHookTracking, PutFingerprint(None))
    + (if d.setHookStreak.Some? then [PutStreak(d.setHookStreak.value)] else [])
    + When(d.setHookFingerprint.Some?, PutFingerprint(d.setHookFingerprint))
    + (if d.setHookRecoveryInvoked.Some? then [PutInvoked(d.setHookRecoveryInvoked.value)] else [])
  }

  function FailureWrites(d: StateDelta): seq<Patch> {
    (if d.failedReason.Some? then [PutReason(d.failedReason.value)] else [])
    + (if d.failedMessage.Some? then [PutMessage(d.failedMessage.value)] else [])
    + When(d.clearExplanation, PutExplanation(None))
    + When(d.setExplanation.Some?, PutExplanation(d.setExplanation))
  }

  /** The writes of a patch in the order the runner performs them. */
  function WritesOf(d: StateDelta): seq<Patch> {
    CounterWrites(d) + ContextWrites(d) + HookWrites(d) + FailureWrites(d)
  }

  function CountersApplied(s: TaskState, d: StateDelta): TaskState {
    var bumped := if d.incStageRetry.Some? then Bump(s.stageRetry, d.incStageRetry.value) else s.stageRetry;
    s.(stageRetry := if d.resetStageRetry.Some? then bumped - {d.resetStageRetry.value} else bumped,
       trigger := if d.clearTrigger then None else if d.setTrigger.Some? then d.setTrigger else s.trigger,
       history := if d.appendOutcome.Some? then s.history + [d.appendOutcome.value] else s.history)
  }

  function ContextApplied(s: TaskState, d: StateDelta): TaskState {
    s.(preExecAttempt := if d.incPreExec then s.preExecAttempt + 1 else s.preExecAttempt,
       mergeContext :=
         if d.clearMergeContext then None else if d.setMergeContext.Some? then d.setMergeContext else s.mergeContext,
       loop := if d.setLoop.Some? then d.setLoop else if d.clearLoop then None else s.loop)
  }

  function HookApplied(s: TaskState, d: StateDelta): TaskState {
    s.(hookStreak :=
         if d.setHookStreak.Some? then d.setHookStreak.value else if d.clearHookTracking then 0 else s.hookStreak,
       hookFingerprint :=
         if d.setHookFingerprint.Some? then d.setHookFingerprint
         else if d.clearHookTracking then None else s.hookFingerprint,
       hookRecoveryInvoked :=
         if d.setHookRecoveryInvoked.Some? then d.setHookRecoveryInvoked.value else s.hookRecoveryInvoked)
  }

  function FailureApplied(s: TaskState, d: StateDelta): TaskState {
    s.(failedReason := if d.failedReason.Some? then d.failedReason else s.failedReason,
       failedMessage := if d.failedMessage.Some? then d.failedMessage else s.failedMessage,
       explanation :=
         if d.setExplanation.Some? then d.setExplanation else if d.clearExplanation then None else s.explanation)
  }

  /** The state after a patch, field by field. */
  function Apply(s: TaskState, d: StateDelta): TaskState {
    FailureApplied(HookApplied(ContextApplied(CountersApplied(s, d), d), d), d)
  }

  /** The state field a write touches; retry counters are one field per stage. */
  datatype Slot =
    | RetrySlot(at: PipelineState) | TriggerSlot | HistorySlot | PreExecSlot | MergeSlot | LoopSlot
    | StreakSlot | FingerprintSlot | InvokedSlot | ReasonSlot | MessageSlot | ExplanationSlot

  function SlotOf(p: Patch): Slot {
    match p
    case IncRetry(at) => RetrySlot(at)
    case ResetRetry(at) => RetrySlot(at)
    case PutTrigger(_) => TriggerSlot
    case AddOutcome(_) => HistorySlot
    case IncPreExec => PreExecSlot
    case PutMerge(_) => MergeSlot
    case PutLoop(_) => LoopSlot
    case PutStreak(_) => StreakSlot
    case PutFingerprint(_) => FingerprintSlot
    case PutInvoked(_) => InvokedSlot
    case PutReason(_) => ReasonSlot
    case PutMessage(_) => MessageSlot
    case PutExplanation(_) => ExplanationSlot
  }

  /** Different writes touch different fields. */
  ghost predicate Independent(ps: seq<Patch>) {
    forall p, q :: p in ps && q in ps && p != q ==> SlotOf(p) != SlotOf(q)
  }

  /** No field is both set and cleared, and no counter both bumped and reset. */
  predicate ConflictFree(d: StateDelta) {
    && !(d.setTrigger.Some? && d.clearTrigger)
    && !(d.setMergeContext.Some? && d.clearMergeContext)
    && !(d.setLoop.Some? && d.clearLoop)
    && !(d.clearHookTracking && (d.setHookStreak.Some? || d.setHookFingerprint.Some?))
    && !(d.setExplanation.Some? && d.clearExplanation)
    && (d.incStageRetry.Some? ==> d.resetStageRetry != d.incStageRetry)
  }

  predicate IsRetryWrite(p: Patch) {
    p.IncRetry? || p.ResetRetry?
  }

  lemma CountersCommute(m: map<PipelineState, nat>, a: PipelineState, b: PipelineState)
    requires a != b
    ensures Bump(Bump(m, a), b) == Bump(Bump(m, b), a)
    ensures Bump(m, a) - {b} == Bump(m - {b}, a)
    ensures (m - {a}) - {b} == (m - {b}) - {a}
  {
  }

  lemma RetryWritesCommute(s: TaskState, p: Patch, q: Patch)
    requires IsRetryWrite(p) && IsRetryWrite(q) && p.at != q.at
    ensures Write(Write(s, p), q) == Write(Write(s, q), p)
  {
    CountersCommute(s.stageRetry, p.at, q.at);
    CountersCommute(s.stageRetry, q.at, p.at);
  }

  lemma RetryWriteCommutesWithPut(s: TaskState, p: Patch, q: Patch)
    requires IsRetryWrite(p) && !IsRetryWrite(q)
    ensures Write(Write(s, p), q) == Write(Write(s, q), p)
  {
    assert Write(s, q).stageRetry == s.stageRetry;
  }

  /** Writes to the fields that steer the route, as opposed to hook tracking and failure records. */
  predicate IsRoutingPut(p: Patch) {
    p.PutTrigger? || p.AddOutcome? || p.IncPreExec? || p.PutMerge? || p.PutLoop?
  }

  lemma RoutingPutsCommute(s: TaskState, p: Patch, q: Patch)
    requires IsRoutingPut(p) && !IsRetryWrite(q) && SlotOf(p) != SlotOf(q)
    ensures Write(Write(s, p), q) == Write(Write(s, q), p)
  {
  }

  lemma RecordPutsCommute(s: TaskState, p: Patch, q: Patch)
    requires !IsRetryWrite(p) && !IsRoutingPut(p) && !IsRetryWrite(q) && !IsRoutingPut(q)
    requires SlotOf(p) != SlotOf(q)
    ensures Write(Write(s, p), q) == Write(Write(s, q), p)
  {
  }

  lemma WritesCommute(s: TaskState, p: Patch, q: Patch)
    requires SlotOf(p) != SlotOf(q)
    ensures Write(Write(s, p), q) == Write(Write(s, q), p)
  {
    if IsRetryWrite(p) && IsRetryWrite(q) {
      RetryWritesCommute(s, p, q);
    } else if IsRetryWrite(p) {
      RetryWriteCommutesWithPut(s, p, q);
    } else if IsRetryWrite(q) {
      RetryWriteCommutesWithPut(s, q, p);
    } else if IsRoutingPut(p) {
      RoutingPutsCommute(s, p, q);
    } else if IsRoutingPut(q) {
      RoutingPutsCommute(s, q, p);
    } else {
      RecordPutsCommute(s, p, q);
    }
  }

  lemma {:induction false} WriteAllAppend(s: TaskState, a: seq<Patch>, b: seq<Patch>)
    ensures WriteAll(s, a + b) == WriteAll(WriteAll(s, a), b)
    decreases |a|
  {
    if a == [] {
      assert a + b == b;
    } else {
      assert (a + b)[1..] == a[1..] + b;
      WriteAllAppend(Write(s, a[0]), a[1..], b);
    }
  }

  lemma {:induction false} MoveToFront(s: TaskState, ps: seq<Patch>, i: nat)
    requires i < |ps| && Independent(ps)
    ensures WriteAll(s, ps) == WriteAll(Write(s, ps[i]), ps[..i] + ps[i + 1..])
    decreases i
  {
    hide Write, SlotOf;
    if i == 0 {
      assert ps[..0] + ps[1..] == ps[1..];
    } else {
      var first, x, rest := ps[0], ps[i], ps[1..];
      MoveToFront(Write(s, first), rest, i - 1);
      if first != x {
        WritesCommute(s, first, x);
      }
      var moved := ps[..i] + ps[i + 1..];
      assert moved[1..] == rest[..i - 1] + rest[i..];
    }
  }

  lemma WithoutOne(ps: seq<Patch>, i: nat)
    requires i < |ps|
    ensures multiset(ps[..i] + ps[i + 1..]) == multiset(ps) - multiset{ps[i]}
  {
    assert ps == ps[..i] + [ps[i]] + ps[i + 1..];
  }

  lemma SameMembers(ps: seq<Patch>, qs: seq<Patch>)
    requires multiset(ps) == multiset(qs)
    ensures |ps| == |qs| && forall p :: p in ps <==> p in qs
  {
    assert |multiset(ps)| == |ps| && |multiset(qs)| == |qs|;
    assert forall p :: p in ps <==> p in multiset(ps);
    assert forall p :: p in qs <==> p in multiset(qs);
  }

  lemma IndependentMembers(ps: seq<Patch>, qs: seq<Patch>)
    requires Independent(ps) && forall p :: p in qs ==> p in ps
    ensures Independent(qs)
  {
    hide SlotOf;
  }

  lemma Position(qs: seq<Patch>, p: Patch) returns (i: nat)
    requires p in qs
    ensures i < |qs| && qs[i] == p
  {
    i :| i < |qs| && qs[i] == p;
  }

  lemma SameRest(ps: seq<Patch>, qs: seq<Patch>, i: nat)
    requires ps != [] && i < |qs| && qs[i] == ps[0] && multiset(ps) == multiset(qs)
    ensures multiset(ps[1..]) == multiset(qs[..i] + qs[i + 1..])
  {
    WithoutOne(qs, i);
    WithoutOne(ps, 0);
    assert ps[..0] + ps[1..] == ps[1..];
  }

  /** Independent writes may be performed in any order. */
  lemma {:induction false} AnyOrderAgrees(s: TaskState, ps: seq<Patch>, qs: seq<Patch>)
    requires multiset(ps) == multiset(qs) && Independent(ps)
    ensures WriteAll(s, ps) == WriteAll(s, qs)
    decreases |ps|
  {
    hide Write, SlotOf, Independent;
    SameMembers(ps, qs);
    if ps != [] {
      var i := Position(qs, ps[0]);
      IndependentMembers(ps, qs);
      MoveToFront(s, qs, i);
      SameRest(ps, qs, i);
      IndependentMembers(ps, ps[1..]);
      AnyOrderAgrees(Write(s, ps[0]), ps[1..], qs[..i] + qs[i + 1..]);
    }
  }

  lemma CounterWritesInOrder(s: TaskState, d: StateDelta)
    ensures WriteAll(s, CounterWrites(d)) == CountersApplied(s, d)
  {
    var w1 := (if d.incStageRetry.Some? then [IncRetry(d.incStageRetry.value)] else []);
    var w2 := (if d.resetStageRetry.Some? then [ResetRetry(d.resetStageRetry.value)] else []);
    var w3 := When(d.setTrigger.Some?, PutTrigger(d.setTrigger));
    var w4 := When(d.clearTrigger, PutTrigger(None));
    var w5 := (if d.appendOutcome.Some? then [AddOutcome(d.appendOutcome.value)] else []);
    WriteAllAppend(s, w1, w2);
    WriteAllAppend(s, w1 + w2, w3);
    WriteAllAppend(s, w1 + w2 + w3, w4);
    WriteAllAppend(s, w1 + w2 + w3 + w4, w5);
  }

  lemma ContextWritesInOrder(s: TaskState, d: StateDelta)
    ensures WriteAll(s, ContextWrites(d)) == ContextApplied(s, d)
  {
    var w1 := When(d.incPreExec, IncPreExec);
    var w2 := When(d.setMergeContext.Some?, PutMerge(d.setMergeContext));
    var w3 := When(d.clearMergeContext, PutMerge(None));
    var w4 := When(d.clearLoop, PutLoop(None));
    var w5 := When(d.setLoop.Some?, PutLoop(d.setLoop));
    WriteAllAppend(s, w1, w2);
    WriteAllAppend(s, w1 + w2, w3);
    WriteAllAppend(s, w1 + w2 + w3, w4);
    WriteAllAppend(s, w1 + w2 + w3 + w4, w5);
  }

  lemma HookWritesInOrder(s: TaskState, d: StateDelta)
    ensures WriteAll(s, HookWrites(d)) == HookApplied(s, d)
  {
    var w1 := When(d.clearHookTracking, PutStreak(0));
    var w2 := When(d.clearHookTracking, PutFingerprint(None));
    var w3 := (if d.setHookStreak.Some? then [PutStreak(d.setHookStreak.value)] else []);
    var w4 := When(d.setHookFingerprint.Some?, PutFingerprint(d.setHookFingerprint));
    var w5 := (if d.setHookRecoveryInvoked.Some? then [PutInvoked(d.setHookRecoveryInvoked.value)] else []);
    WriteAllAppend(s, w1, w2);
    WriteAllAppend(s, w1 + w2, w3);
    WriteAllAppend(s, w1 + w2 + w3, w4);
    WriteAllAppend(s, w1 + w2 + w3 + w4, w5);
  }

  lemma FailureWritesInOrder(s: TaskState, d: StateDelta)
    ensures WriteAll(s, FailureWrites(d)) == FailureApplied(s, d)
  {
    var w1 := (if d.failedReason.Some? then [PutReason(d.failedReason.value)] else []);
    var w2 := (if d.failedMessage.Some? then [PutMessage(d.failedMessage.value)] else []);
    var w3 := When(d.clearExplanation, PutExplanation(None));
    var w4 := When(d.setExplanation.Some?, PutExplanation(d.setExplanation));
    WriteAllAppend(s, w1, w2);
    WriteAllAppend(s, w1 + w2, w3);
    WriteAllAppend(s, w1 + w2 + w3, w4);
  }

  /** Performing the runner's writes one after the other gives the field-by-field result. */
  lemma WritesInOrder(s: TaskState, d: StateDelta)
    ensures WriteAll(s, WritesOf(d)) == Apply(s, d)
  {
    var a, b, c, f := CounterWrites(d), ContextWrites(d), HookWrites(d), FailureWrites(d);
    WriteAllAppend(s, a, b);
    WriteAllAppend(s, a + b, c);
    WriteAllAppend(s, a + b + c, f);
    var s1 := CountersApplied(s, d);
    var s2 := ContextApplied(s1, d);
    CounterWritesInOrder(s, d);
    ContextWritesInOrder(s1, d);
    HookWritesInOrder(s2, d);
    FailureWritesInOrder(HookApplied(s2, d), d);
  }

  /** A write of a patch can be traced to the field that asked for it. */
  predicate Requested(d: StateDelta, p: Patch) {
    match p
    case IncRetry(at) => d.incStageRetry == Some(at)
    case ResetRetry(at) => d.resetStageRetry == Some(at)
    case PutTrigger(v) => if v.Some? then d.setTrigger == v else d.clearTrigger
    case AddOutcome(v) => d.appendOutcome == Some(v)
    case IncPreExec => d.incPreExec
    case PutMerge(v) => if v.Some? then d.setMergeContext == v else d.clearMergeContext
    case PutLoop(v) => if v.Some? then d.setLoop == v else d.clearLoop
    case PutStreak(v) => (d.clearHookTracking && v == 0) || d.setHookStreak == Some(v)
    case PutFingerprint(v) => if v.Some? then d.setHookFingerprint == v else d.clearHookTracking
    case PutInvoked(v) => d.setHookRecoveryInvoked == Some(v)
    case PutReason(v) => d.failedReason == Some(v)
    case PutMessage(v) => d.failedMessage == Some(v)
    case PutExplanation(v) => if v.Some? then d.setExplanation == v else d.clearExplanation
  }

  lemma CounterWritesAreRequested(d: StateDelta, p: Patch)
    requires p in CounterWrites(d)
    ensures Requested(d, p)
  {
  }

  lemma ContextWritesAreRequested(d: StateDelta, p: Patch)
    requires p in ContextWrites(d)
    ensures Requested(d, p)
  {
    hide When;
    assert
      || p in When(d.incPreExec, IncPreExec)
      || p in When(d.setMergeContext.Some?, PutMerge(d.setMergeContext))
      || p in When(d.clearMergeContext, PutMerge(None))
      || p in When(d.clearLoop, PutLoop(None))
      || p in When(d.setLoop.Some?, PutLoop(d.setLoop));
    InWhen(d.incPreExec, IncPreExec, p);
    InWhen(d.setMergeContext.Some?, PutMerge(d.setMergeContext), p);
    InWhen(d.clearMergeContext, PutMerge(None), p);
    InWhen(d.clearLoop, PutLoop(None), p);
    InWhen(d.setLoop.Some?, PutLoop(d.setLoop), p);
  }

  lemma InWhen(b: bool, w: Patch, p: Patch)
    ensures p in When(b, w) <==> b && p == w
  {
  }

  lemma HookWritesAreRequested(d: StateDelta, p: Patch)
    requires p in HookWrites(d)
    ensures Requested(d, p)
  {
  }

  lemma FailureWritesAreRequested(d: StateDelta, p: Patch)
    requires p in FailureWrites(d)
    ensures Requested(d, p)
  {
  }

  lemma RequestedWritesAreIndependent(d: StateDelta, p: Patch, q: Patch)
    requires ConflictFree(d) && Requested(d, p) && Requested(d, q) && p != q
    ensures SlotOf(p) != SlotOf(q)
  {
  }

  lemma ConflictFreeWritesAreIndependent(d: StateDelta)
    requires ConflictFree(d)
    ensures Independent(WritesOf(d))
  {
    forall p | p in WritesOf(d) ensures Requested(d, p) {
      if p in CounterWrites(d) {
        CounterWritesAreRequested(d, p);
      } else if p in ContextWrites(d) {
        ContextWritesAreRequested(d, p);
      } else if p in HookWrites(d) {
        HookWritesAreRequested(d, p);
      } else {
        FailureWritesAreRequested(d, p);
      }
    }
    forall p, q | p in WritesOf(d) && q in WritesOf(d) && p != q ensures SlotOf(p) != SlotOf(q) {
      RequestedWritesAreIndependent(d, p, q);
    }
  }

  lemma EffectsAreConflictFree(f: Effect, s: TaskState, e: Event)
    ensures ConflictFree(EffectDelta(f, s, e))
  {
  }

  /**
    * For every effect, state and event, the writes of the resulting patch can be performed
    * in any order: the task ends in the same state.
    */
  lemma PatchOrderIsIrrelevant(f: Effect, s: TaskState, e: Event, order: seq<Patch>)
    requires multiset(order) == multiset(WritesOf(EffectDelta(f, s, e)))
    ensures WriteAll(s, order) == Apply(s, EffectDelta(f, s, e))
  {
    var d := EffectDelta(f, s, e);
    EffectsAreConflictFree(f, s, e);
    ConflictFreeWritesAreIndependent(d);
    AnyOrderAgrees(s, WritesOf(d), order);
    WritesInOrder(s, d);
  }

  /**
    * The field comment of clear_hook_reject_tracking says that clearing also resets the
    * recovery flag, which the runner does not do. Read that way, recovery entry would both
    * clear and raise the flag exactly when a looping hook reject lacks its hook identity.
    */
  lemma DocumentedClearConflictsExactlyWithoutIdentity(s: TaskState, e: Event)
    ensures
      var d := EffectDelta(EnterRecovery, s, e);
      (d.clearHookTracking && d.setHookRecoveryInvoked == Some(true)) <==>
      (HookLoopDetected(s, e) && HookIdentity(e).None?)
  {
  }
}
