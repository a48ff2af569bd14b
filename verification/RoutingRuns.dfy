/** Exact choice, self-cleaning, idempotence and the config/store mirror (litehive/config/engine_models.py). */
module RoutingRuns {
  import opened Common
  import opened Settings
  import opened Routing
  import AuditRuns

  // ----- freeze entries after examining candidates --------------------------------------

  /** The entry an examined candidate ends with, whatever order and however often it is examined. */
  function Settled(w: World, request: SelectionRequest, engine: string, entry: Option<string>): Option<string> {
    if request.requireAvailable && w.unavailable(engine).Some? then entry
    else
      var block := Quota(w, request, engine);
      if block.Some? && block.value.freezeUntil.Some? then Some(w.show(block.value.freezeUntil.value))
      else if entry.Some? && w.parse(entry.value).Some? then None
      else entry
  }

  lemma {:induction false} ExaminedEntries(
      w: World, request: SelectionRequest, desk: Desk, engines: seq<string>, e: string)
    ensures
      var config := ExamineAll(w, request, desk, engines).config;
      && config.defaultEngine == desk.config.defaultEngine
      && config.preference == desk.config.preference
      && Lookup(config.freeze, e) ==
           if e in engines then Settled(w, request, e, Lookup(desk.config.freeze, e)) else Lookup(desk.config.freeze, e)
  {
    if engines != [] {
      var n := |engines| - 1;
      ExaminedEntries(w, request, desk, engines[..n], e);
      assert engines == engines[..n] + [engines[n]];
    }
  }

  lemma SettledIsFixed(w: World, request: SelectionRequest, desk: Desk, e: string)
    requires Settled(w, request, e, Lookup(desk.config.freeze, e)) == Lookup(desk.config.freeze, e)
    ensures Examine(w, request, desk, e) == desk
  {}

  lemma {:induction false} SettledDeskIsFixed(w: World, request: SelectionRequest, desk: Desk, engines: seq<string>)
    requires forall e :: e in engines ==>
      Settled(w, request, e, Lookup(desk.config.freeze, e)) == Lookup(desk.config.freeze, e)
    ensures ExamineAll(w, request, desk, engines) == desk
  {
    if engines != [] {
      var n := |engines| - 1;
      SettledDeskIsFixed(w, request, desk, engines[..n]);
      SettledIsFixed(w, request, desk, engines[n]);
    }
  }

  // ----- the candidates looked at -------------------------------------------------------

  function Pick(w: World, request: SelectionRequest, attempts: seq<string>): Option<string> {
    var k := FirstEligible(w, request, attempts);
    if k < |attempts| then Some(attempts[k]) else None
  }

  lemma {:induction false} WithoutTwice(es: seq<string>, a: set<string>, b: set<string>)
    requires a <= b
    ensures Without(es, b) == Without(Without(es, a), b)
  {
    if es != [] {
      WithoutTwice(es[1..], a, b);
    }
  }

  lemma WalkUnfolds(w: World, request: SelectionRequest, e: string, rest: seq<string>)
    ensures
      var attempts := [e] + rest;
      if SkipReason(w, request, e).Some? then
        && Walked(w, request, attempts) == [e] + Walked(w, request, rest)
        && Pick(w, request, attempts) == Pick(w, request, rest)
      else Walked(w, request, attempts) == [e] && Pick(w, request, attempts) == Some(e)
  {
    hide SkipReason;
    assert ([e] + rest)[1..] == rest;
  }

  /** Removing candidates that would be skipped anyway changes neither the choice nor who is looked at beyond them. */
  lemma {:induction false} SkippedCandidatesDoNotMatter(
      w: World, request: SelectionRequest, attempts: seq<string>, dropped: set<string>)
    requires forall e :: e in attempts && e in dropped ==> SkipReason(w, request, e).Some?
    ensures Pick(w, request, Without(attempts, dropped)) == Pick(w, request, attempts)
    ensures forall e :: e in Walked(w, request, Without(attempts, dropped)) ==> e in Walked(w, request, attempts)
  {
    hide SkipReason;
    hide Walked, Pick, FirstEligible;
    if attempts != [] {
      var e, rest := attempts[0], attempts[1..];
      assert attempts == [e] + rest;
      WalkUnfolds(w, request, e, rest);
      WalkUnfolds(w, request, e, Without(rest, dropped));
      SkippedCandidatesDoNotMatter(w, request, rest, dropped);
    }
  }

  /** What Chosen promises pins the choice down: it is the first candidate that is unfrozen and can run. */
  lemma ChoiceIsExact(w: World, task: Task, config: Controls, request: SelectionRequest, s: Selection)
    requires Chosen(w, task, config, request, s)
    ensures s.engine == Pick(w, request, Attempts(w, task, config, request))
    ensures |s.skipped| == FirstEligible(w, request, s.attempts)
    ensures s.engine.None? <==> forall e :: e in CandidateOrder(task, config, request) ==>
      Frozen(w, config.freeze, e) || SkipReason(w, request, e).Some?
  {
    hide SkipReason, CandidateOrder, Frozen;
    FirstEligibleIs(w, request, s.attempts, |s.skipped|);
    forall e | s.engine.None? && e in CandidateOrder(task, config, request)
      ensures Frozen(w, config.freeze, e) || SkipReason(w, request, e).Some?
    {
      if e !in FrozenEngines(w, config.freeze) {
        assert e in s.attempts;
      } else {
        assert Frozen(w, config.freeze, e);
      }
    }
    if s.engine.Some? {
      var e := s.engine.value;
      assert e in s.attempts;
      assert e !in FrozenEngines(w, config.freeze);
      FrozenNeedsEntry(w, config.freeze, e);
    }
  }

  // ----- the choice, in the operator's terms --------------------------------------------

  /** The engine the task would run on: the override, else its own switch for this stage, else the default. */
  function InitialEngine(task: Task, config: Controls, request: SelectionRequest): string {
    match request.override
    case Some(engine) => engine
    case None =>
      match task.lastSwitch
      case Some(EngineSwitch(stage, engine)) => if stage == task.pipelineStatus then engine else config.defaultEngine
      case None => config.defaultEngine
  }

  /** An engine nobody can use now: excluded by the caller, frozen, unavailable, or out of quota. */
  predicate PassedOver(w: World, config: Controls, request: SelectionRequest, engine: string) {
    || engine in request.excluded
    || (engine in config.freeze && (var until := w.parse(config.freeze[engine]); until.Some? && w.now < until.value))
    || (request.requireAvailable && w.unavailable(engine).Some?)
    || (request.checkQuota && w.quota(engine).Some?)
  }

  function FirstUsable(w: World, config: Controls, request: SelectionRequest, engines: seq<string>): Option<string> {
    if engines == [] then None
    else if !PassedOver(w, config, request, engines[0]) then Some(engines[0])
    else FirstUsable(w, config, request, engines[1..])
  }

  lemma PickOne(w: World, config: Controls, request: SelectionRequest, e: string, rest: seq<string>)
    ensures
      var attempts := Without(Without([e] + rest, request.excluded), FrozenEngines(w, config.freeze));
      var later := Without(Without(rest, request.excluded), FrozenEngines(w, config.freeze));
      Pick(w, request, attempts) ==
        if PassedOver(w, config, request, e) then Pick(w, request, later) else Some(e)
  {
    var frozen := FrozenEngines(w, config.freeze);
    var all, later := Without([e] + rest, request.excluded), Without(Without(rest, request.excluded), frozen);
    assert ([e] + rest)[1..] == rest;
    if e !in request.excluded {
      assert all == [e] + Without(rest, request.excluded);
      assert all[1..] == Without(rest, request.excluded);
    }
    WalkUnfolds(w, request, e, later);
    hide Pick, FirstEligible;
  }

  lemma {:induction false} PickIsFirstUsable(
    w: World, config: Controls, request: SelectionRequest, engines: seq<string>)
    ensures Pick(w, request, Without(Without(engines, request.excluded), FrozenEngines(w, config.freeze))) ==
      FirstUsable(w, config, request, engines)
  {
    hide PassedOver;
    if engines != [] {
      assert engines == [engines[0]] + engines[1..];
      hide Without, Pick;
      PickOne(w, config, request, engines[0], engines[1..]);
      PickIsFirstUsable(w, config, request, engines[1..]);
    }
  }

  /**
    * Explicit candidates are tried in the order given. Otherwise the task's own engine runs if it can be used, and if
    * not, the first engine of the workspace preference that can. Every skip carries the failed probe's reason.
    */
  lemma SelectionFollowsThePlan(w: World, task: Task, config: Controls, request: SelectionRequest, s: Selection)
    requires Chosen(w, task, config, request, s)
    ensures request.engineNames.Some? ==> s.engine == FirstUsable(w, config, request, request.engineNames.value)
    ensures request.engineNames == None ==>
      var initial := InitialEngine(task, config, request);
      s.engine ==
        if !PassedOver(w, config, request, initial) then Some(initial)
        else FirstUsable(w, config, request, config.preference)
    ensures forall i :: 0 <= i < |s.skipped| ==>
      var skip := s.skipped[i];
      if request.requireAvailable && w.unavailable(skip.engine).Some?
      then w.unavailable(skip.engine) == Some(skip.reason)
      else request.checkQuota && w.quota(skip.engine).Some? && w.quota(skip.engine).value.reason == skip.reason
  {
    ChoiceIsExact(w, task, config, request, s);
    if request.engineNames.Some? {
      PickIsFirstUsable(w, config, request, request.engineNames.value);
    } else {
      var initial := InitialEngine(task, config, request);
      assert Plan(task, config, request.override) == [initial];
      var all := [initial] + config.preference;
      assert all[0] == initial && all[1..] == config.preference;
      PickIsFirstUsable(w, config, request, all);
    }
  }

  /** The candidates of a selection, in order: those given, or the task's own engine and the preference. */
  function Asked(task: Task, config: Controls, request: SelectionRequest): seq<string> {
    match request.engineNames
    case Some(engines) => engines
    case None => [InitialEngine(task, config, request)] + config.preference
  }

  /**
    * Why nothing was selected: no candidate is left after the exclusions; or all that are left are frozen; or it is
    * the failed probe of the last candidate that is neither excluded nor frozen.
    */
  lemma BlockedSelectionsSayWhy(w: World, task: Task, config: Controls, request: SelectionRequest, s: Selection)
    requires Chosen(w, task, config, request, s) && s.engine == None
    ensures
      var left := set e | e in Asked(task, config, request) && e !in request.excluded;
      var unfrozen := set e | e in left && !Frozen(w, config.freeze, e);
      if left == {} then s.blockedReason == "no eligible engine available"
      else if unfrozen == {} then s.blockedReason == "all candidate engines are frozen"
      else s.attempts != [] && s.attempts[|s.attempts| - 1] in unfrozen
           && SkipReason(w, request, s.attempts[|s.attempts| - 1]) == Some(s.blockedReason)
  {
    hide SkipReason, InitialEngine;
    var asked, order := Asked(task, config, request), CandidateOrder(task, config, request);
    AskedIsOrdered(task, config, request);
    assert forall e :: e in order <==> e in asked && e !in request.excluded;
    hide CandidateOrder, Asked, Frozen;
    var left := set e | e in asked && e !in request.excluded;
    var unfrozen := set e | e in left && !Frozen(w, config.freeze, e);
    assert forall e :: e in s.attempts <==> e in unfrozen;
    if order != [] {
      assert order[0] in left;
    }
    if s.attempts != [] {
      assert s.attempts[|s.attempts| - 1] in unfrozen;
    }
  }

  lemma AskedIsOrdered(task: Task, config: Controls, request: SelectionRequest)
    ensures CandidateOrder(task, config, request) == Without(Asked(task, config, request), request.excluded)
  {
    if request.engineNames == None {
      assert Plan(task, config, request.override) == [InitialEngine(task, config, request)];
    }
  }

  lemma FrozenNeedsEntry(w: World, freeze: map<string, string>, e: string)
    ensures Frozen(w, freeze, e) <==> e in FrozenEngines(w, freeze)
  {}

  /** Freeze entries of engines that were not looked at are untouched. */
  lemma UnreachedEntriesStay(w: World, task: Task, request: SelectionRequest, desk: Desk, e: string)
    requires e !in Reached(w, task, desk.config, request)
    ensures Lookup(AfterSelect(w, task, request, desk).config.freeze, e) == Lookup(desk.config.freeze, e)
  {
    ExaminedEntries(w, request, desk, Reached(w, task, desk.config, request), e);
  }

  /** An examined engine can only become frozen by a quota block, which skips it. */
  lemma NewlyFrozenWasSkipped(w: World, task: Task, request: SelectionRequest, desk: Desk, e: string)
    requires !Frozen(w, desk.config.freeze, e)
    requires Frozen(w, AfterSelect(w, task, request, desk).config.freeze, e)
    ensures SkipReason(w, request, e).Some?
  {
    ExaminedEntries(w, request, desk, Reached(w, task, desk.config, request), e);
  }

  lemma FrozenStaysFrozen(w: World, task: Task, request: SelectionRequest, desk: Desk, e: string)
    requires Frozen(w, desk.config.freeze, e)
    ensures Frozen(w, AfterSelect(w, task, request, desk).config.freeze, e)
  {
    hide SkipReason, CandidateOrder;
    FrozenNeedsEntry(w, desk.config.freeze, e);
    assert e !in Attempts(w, task, desk.config, request);
    UnreachedEntriesStay(w, task, request, desk, e);
  }

  /** The candidates of a second selection: the first one's, less engines the first one froze and skipped. */
  lemma SecondAttempts(w: World, task: Task, request: SelectionRequest, desk: Desk)
    ensures
      var after := AfterSelect(w, task, request, desk);
      var first, frozen := Attempts(w, task, desk.config, request), FrozenEngines(w, after.config.freeze);
      && Attempts(w, task, after.config, request) == Without(first, frozen)
      && forall e :: e in first && e in frozen ==> SkipReason(w, request, e).Some?
  {
    hide SkipReason, Frozen, AfterSelect;
    var after := AfterSelect(w, task, request, desk);
    var frozen0, frozen := FrozenEngines(w, desk.config.freeze), FrozenEngines(w, after.config.freeze);
    forall e | e in frozen0 ensures e in frozen {
      FrozenStaysFrozen(w, task, request, desk, e);
      FrozenNeedsEntry(w, after.config.freeze, e);
    }
    SelectKeepsOrder(w, task, request, desk);
    WithoutTwice(CandidateOrder(task, desk.config, request), frozen0, frozen);
    forall e | e in Attempts(w, task, desk.config, request) && e in frozen ensures SkipReason(w, request, e).Some? {
      FrozenNeedsEntry(w, desk.config.freeze, e);
      NewlyFrozenWasSkipped(w, task, request, desk, e);
    }
  }

  lemma SelectKeepsOrder(w: World, task: Task, request: SelectionRequest, desk: Desk)
    ensures CandidateOrder(task, AfterSelect(w, task, request, desk).config, request) ==
      CandidateOrder(task, desk.config, request)
  {
    ExaminedEntries(w, request, desk, Reached(w, task, desk.config, request), "");
  }

  /**
   * With the clock and probes fixed, and duplicates allowed: the engine returned is not frozen afterwards, and
   * selecting again returns the same engine and changes neither the config nor the store, audit log included.
   */
  lemma SelectionIsIdempotent(
      w: World, task: Task, request: SelectionRequest, desk: Desk, first: Selection, second: Selection)
    requires Chosen(w, task, desk.config, request, first)
    requires Chosen(w, task, AfterSelect(w, task, request, desk).config, request, second)
    ensures second.engine == first.engine
    ensures AfterSelect(w, task, request, AfterSelect(w, task, request, desk)) == AfterSelect(w, task, request, desk)
    ensures first.engine.Some? ==> !Frozen(w, AfterSelect(w, task, request, desk).config.freeze, first.engine.value)
  {
    hide SkipReason, Frozen, CandidateOrder, Chosen, FirstEligible, Without, Settled, ExamineAll;
    var after := AfterSelect(w, task, request, desk);
    var attempts := Attempts(w, task, desk.config, request);
    SecondAttempts(w, task, request, desk);
    SkippedCandidatesDoNotMatter(w, request, attempts, FrozenEngines(w, after.config.freeze));
    ChoiceIsExact(w, task, desk.config, request, first);
    ChoiceIsExact(w, task, after.config, request, second);
    forall e | e in Reached(w, task, after.config, request)
      ensures Settled(w, request, e, Lookup(after.config.freeze, e)) == Lookup(after.config.freeze, e)
    {
      ExaminedEntries(w, request, desk, Reached(w, task, desk.config, request), e);
      SettledTwice(w, request, e, Lookup(desk.config.freeze, e));
    }
    SettledDeskIsFixed(w, request, after, Reached(w, task, after.config, request));
    if first.engine.Some? {
      var e := first.engine.value;
      assert e in attempts;
      FrozenNeedsEntry(w, desk.config.freeze, e);
      if Frozen(w, after.config.freeze, e) {
        NewlyFrozenWasSkipped(w, task, request, desk, e);
      }
    }
  }

  lemma SettledTwice(w: World, request: SelectionRequest, e: string, entry: Option<string>)
    ensures Settled(w, request, e, Settled(w, request, e, entry)) == Settled(w, request, e, entry)
  {}

  // ----- the sweep ----------------------------------------------------------------------

  /** The sweep removes exactly the expired entries: unparsable and future ones stay. */
  lemma {:induction false} SweepRemovesExpired(w: World, desk: Desk, entries: seq<string>, e: string)
    ensures
      var entry := Lookup(desk.config.freeze, e);
      Lookup(AfterSweep(w, desk, entries).config.freeze, e) ==
        if e in entries && entry.Some? && w.parse(entry.value).Some? && w.parse(entry.value).value <= w.now then None
        else entry
  {
    if entries != [] {
      var n := |entries| - 1;
      SweepRemovesExpired(w, desk, entries[..n], e);
      assert entries == entries[..n] + [entries[n]];
    }
  }

  // ----- the mirror over every run ------------------------------------------------------

  datatype Op =
    | Select(w: World, task: Task, request: SelectionRequest)
    | Freeze(engine: string, until: string, reason: Option<string>)
    | Unfreeze(engine: string, reason: Option<string>)
    | SetDefault(engine: string, reason: Option<string>)
    | SetPreference(order: seq<string>, reason: Option<string>)
    | Sweep(w: World, entries: seq<string>)

  function After(desk: Desk, op: Op): Desk {
    match op
    case Select(w, task, request) => AfterSelect(w, task, request, desk)
    case Freeze(engine, until, reason) => AfterFreeze(desk, engine, until, reason)
    case Unfreeze(engine, reason) => AfterUnfreeze(desk, engine, reason)
    case SetDefault(engine, reason) => AfterSetDefault(desk, engine, reason)
    case SetPreference(order, reason) => AfterSetPreference(desk, order, reason)
    case Sweep(w, entries) => AfterSweep(w, desk, entries)
  }

  function Run(desk: Desk, ops: seq<Op>): Desk {
    if ops == [] then desk else After(Run(desk, ops[..|ops| - 1]), ops[|ops| - 1])
  }

  predicate Mirrored(desk: Desk) {
    Holds(desk.store, desk.config)
  }

  /** The store holds the live config with its preference deduplicated. */
  predicate NearlyMirrored(desk: Desk) {
    Holds(desk.store, desk.config.(preference := Deduped(desk.config.preference)))
  }

  /** The last preference list that was accepted. */
  function LastPreference(initial: seq<string>, ops: seq<Op>): seq<string> {
    if ops == [] then initial
    else
      var last := ops[|ops| - 1];
      if last.SetPreference? && AllValid(last.order) then last.order
      else LastPreference(initial, ops[..|ops| - 1])
  }

  lemma ClearKeepsMirror(desk: Desk, engine: string)
    requires NearlyMirrored(desk)
    ensures NearlyMirrored(ClearFreeze(desk, engine))
    ensures ClearFreeze(desk, engine).config.preference == desk.config.preference
  {
    hide Deduped;
    if engine !in desk.config.freeze {
      assert desk.config.freeze - {engine} == desk.config.freeze;
    }
  }

  lemma PersistKeepsMirror(desk: Desk, engine: string, iso: string)
    requires NearlyMirrored(desk)
    ensures NearlyMirrored(PersistFreeze(desk, engine, iso))
    ensures PersistFreeze(desk, engine, iso).config.preference == desk.config.preference
  {
    hide Deduped;
  }

  lemma {:induction false} ExamineAllKeepsMirror(w: World, request: SelectionRequest, desk: Desk, engines: seq<string>)
    requires NearlyMirrored(desk)
    ensures NearlyMirrored(ExamineAll(w, request, desk, engines))
    ensures ExamineAll(w, request, desk, engines).config.preference == desk.config.preference
  {
    hide Deduped, Until, ClearFreeze, PersistFreeze;
    if engines != [] {
      var n := |engines| - 1;
      ExamineAllKeepsMirror(w, request, desk, engines[..n]);
      var before, block := ExamineAll(w, request, desk, engines[..n]), Quota(w, request, engines[n]);
      ClearKeepsMirror(before, engines[n]);
      if block.Some? && block.value.freezeUntil.Some? {
        PersistKeepsMirror(before, engines[n], w.show(block.value.freezeUntil.value));
      }
    }
  }

  lemma {:induction false} SweepKeepsMirror(w: World, desk: Desk, entries: seq<string>)
    requires NearlyMirrored(desk)
    ensures NearlyMirrored(AfterSweep(w, desk, entries))
    ensures AfterSweep(w, desk, entries).config.preference == desk.config.preference
  {
    hide Deduped, Frozen, Until, ClearFreeze;
    if entries != [] {
      var n := |entries| - 1;
      SweepKeepsMirror(w, desk, entries[..n]);
      ClearKeepsMirror(AfterSweep(w, desk, entries[..n]), entries[n]);
    }
  }

  lemma OpKeepsMirror(desk: Desk, op: Op)
    requires NearlyMirrored(desk)
    ensures NearlyMirrored(After(desk, op))
    ensures After(desk, op).config.preference ==
      if op.SetPreference? && AllValid(op.order) then op.order else desk.config.preference
  {
    hide Deduped;
    match op
    case Select(w, task, request) => ExamineAllKeepsMirror(w, request, desk, Reached(w, task, desk.config, request));
    case Sweep(w, entries) => SweepKeepsMirror(w, desk, entries);
    case _ =>
  }

  /**
   * From a freshly loaded config, after any operations: default engine and freezes always agree with the store,
   * and the whole mirror holds exactly when the last accepted preference list had no duplicates.
   */
  lemma {:induction false} MirrorHoldsExactlyWithoutDuplicates(desk: Desk, ops: seq<Op>)
    requires Mirrored(desk) && NoDuplicates(desk.config.preference)
    ensures NearlyMirrored(Run(desk, ops))
    ensures Run(desk, ops).config.preference == LastPreference(desk.config.preference, ops)
    ensures Mirrored(Run(desk, ops)) <==> NoDuplicates(LastPreference(desk.config.preference, ops))
  {
    hide After;
    if ops != [] {
      var n := |ops| - 1;
      MirrorHoldsExactlyWithoutDuplicates(desk, ops[..n]);
      OpKeepsMirror(Run(desk, ops[..n]), ops[n]);
    }
  }

  // ----- the audit log over every run ---------------------------------------------------

  lemma {:induction false} ExamineAllIsExplained(
      base: map<Key, Value>, w: World, request: SelectionRequest, desk: Desk, engines: seq<string>)
    requires AuditRuns.Explained(base, desk.store)
    ensures AuditRuns.Explained(base, ExamineAll(w, request, desk, engines).store)
  {
    hide AuditRuns.Explained;
    if engines != [] {
      var n := |engines| - 1;
      ExamineAllIsExplained(base, w, request, desk, engines[..n]);
      var before, e := ExamineAll(w, request, desk, engines[..n]), engines[n];
      ServedIsExplained(base, before.store, AuditRuns.Unfreeze(e, "system", "quota", map[]));
      var block := Quota(w, request, e);
      if block.Some? && block.value.freezeUntil.Some? {
        var iso := w.show(block.value.freezeUntil.value);
        ServedIsExplained(base, before.store, AuditRuns.Freeze(e, iso, "system", "quota", map[]));
      }
    }
  }

  lemma {:induction false} SweepIsExplained(base: map<Key, Value>, w: World, desk: Desk, entries: seq<string>)
    requires AuditRuns.Explained(base, desk.store)
    ensures AuditRuns.Explained(base, AfterSweep(w, desk, entries).store)
  {
    hide AuditRuns.Explained;
    if entries != [] {
      var n := |entries| - 1;
      SweepIsExplained(base, w, desk, entries[..n]);
      var drop := AuditRuns.Unfreeze(entries[n], "system", "quota", map[]);
      ServedIsExplained(base, AfterSweep(w, desk, entries[..n]).store, drop);
    }
  }

  lemma ServedIsExplained(base: map<Key, Value>, st: Store, request: AuditRuns.Request)
    requires AuditRuns.Explained(base, st)
    ensures AuditRuns.Explained(base, AuditRuns.Served(st, request))
  {
    AuditRuns.CallIsExplained(base, st, AuditRuns.Call(request, Controls("", [], map[])));
  }

  /** Whatever the policy does, the log stays a truthful history that replays to the stored rows. */
  lemma {:induction false} RoutingIsAudited(base: map<Key, Value>, desk: Desk, ops: seq<Op>)
    requires AuditRuns.Explained(base, desk.store)
    ensures AuditRuns.Explained(base, Run(desk, ops).store)
  {
    hide AuditRuns.Explained;
    if ops != [] {
      var n := |ops| - 1;
      RoutingIsAudited(base, desk, ops[..n]);
      var before := Run(desk, ops[..n]);
      match ops[n]
      case Select(w, task, request) =>
        ExamineAllIsExplained(base, w, request, before, Reached(w, task, before.config, request));
      case Sweep(w, entries) => SweepIsExplained(base, w, before, entries);
      case Freeze(engine, until, reason) =>
        ServedIsExplained(base, before.store,
          AuditRuns.Freeze(engine, until, "operator", "cli", ReasonContext(reason)));
      case Unfreeze(engine, reason) =>
        ServedIsExplained(base, before.store, AuditRuns.Unfreeze(engine, "operator", "cli", ReasonContext(reason)));
      case SetDefault(engine, reason) =>
        ServedIsExplained(base, before.store,
          AuditRuns.Write(DefaultEngine, Name(engine), "operator", "cli", ReasonContext(reason)));
      case SetPreference(order, reason) =>
        ServedIsExplained(base, before.store,
          AuditRuns.Write(EnginePreference, Order(Deduped(order)), "operator", "cli", ReasonContext(reason)));
    }
  }

  /** A duplicate in an accepted list leaves the live config and the store disagreeing. */
  lemma DuplicatesBreakTheMirror()
    ensures
      var desk := Desk(Controls("codex", [], map[]),
                       Store(map[DefaultEngine := Name("codex"), EnginePreference := Order([]),
                                 EngineFreeze := Freezes(map[])], []));
      Mirrored(desk) && !Mirrored(AfterSetPreference(desk, ["claude", "claude"], None))
  {
    var order := ["claude", "claude"];
    assert order[0] == order[1];
    assert !NoDuplicates(order);
    assert AllValid(order);
  }

  // ----- what each command leaves, and what it signs with -------------------------------

  /** A command takes effect in the live config and in the store, on exactly the setting it names. */
  lemma CommandsTakeEffect(desk: Desk, engine: string, until: string, reason: Option<string>)
    requires NearlyMirrored(desk)
    ensures
      var frozen := AfterFreeze(desk, engine, until, reason);
      && frozen.config == desk.config.(freeze := desk.config.freeze[engine := until])
      && FreezeMap(frozen.store) == desk.config.freeze[engine := until]
    ensures
      var thawed := AfterUnfreeze(desk, engine, reason);
      && thawed.config == desk.config.(freeze := desk.config.freeze - {engine})
      && FreezeMap(thawed.store) == desk.config.freeze - {engine}
    ensures
      var defaulted := AfterSetDefault(desk, engine, reason);
      && defaulted.config == desk.config.(defaultEngine := engine)
      && defaulted.store.rows[DefaultEngine] == Name(engine)
  {
    hide Deduped;
    assert engine !in desk.config.freeze ==> desk.config.freeze - {engine} == desk.config.freeze;
  }

  predicate SignedBy(rows: seq<AuditRow>, actor: string, source: string) {
    forall i :: 0 <= i < |rows| ==> rows[i].actor == actor && rows[i].source == source
  }

  /** The rows a step adds to the log. */
  predicate Adds(before: Store, after: Store, actor: string, source: string) {
    && |before.audit| <= |after.audit| && after.audit[..|before.audit|] == before.audit
    && SignedBy(after.audit[|before.audit|..], actor, source)
  }

  lemma PutAdds(st: Store, key: Key, value: Value, actor: string, source: string, context: Context)
    ensures Adds(st, Put(st, key, value, actor, source, context), actor, source)
    ensures
      var after := Put(st, key, value, actor, source, context);
      after.audit != st.audit ==> after.audit[|st.audit|].context == context
  {
  }

  lemma AddsTwice(a: Store, b: Store, c: Store, actor: string, source: string)
    requires Adds(a, b, actor, source) && Adds(b, c, actor, source)
    ensures Adds(a, c, actor, source)
  {
    var n, m := |a.audit|, |b.audit|;
    assert c.audit[..n] == c.audit[..m][..n];
    var rows := c.audit[n..];
    forall i | 0 <= i < |rows| ensures rows[i].actor == actor && rows[i].source == source {
      if n + i < m {
        assert rows[i] == c.audit[..m][n + i] == b.audit[n..][i];
      } else {
        assert rows[i] == c.audit[m..][n + i - m];
      }
    }
  }

  lemma FreezeAdds(st: Store, engine: string, until: string, actor: string, source: string, extra: Context)
    ensures Adds(st, PutFreeze(st, engine, until, actor, source, extra), actor, source)
    ensures Adds(st, DropFreeze(st, engine, actor, source, extra), actor, source)
  {
    hide Adds, Put;
    var m := FreezeMap(st);
    PutAdds(st, EngineFreeze, Freezes(m[engine := until]), actor, source,
      map["engine" := Some(engine), "old_value" := Lookup(m, engine), "new_value" := Some(until)] + extra);
    PutAdds(st, EngineFreeze, Freezes(m - {engine}), actor, source,
      map["engine" := Some(engine), "old_value" := Lookup(m, engine), "new_value" := None] + extra);
    NothingAdded(st, actor, source);
  }

  lemma NothingAdded(st: Store, actor: string, source: string)
    ensures Adds(st, st, actor, source)
  {
  }

  lemma {:induction false} ExamineAllAdds(w: World, request: SelectionRequest, desk: Desk, engines: seq<string>)
    ensures Adds(desk.store, ExamineAll(w, request, desk, engines).store, "system", "quota")
  {
    hide Adds, PutFreeze, DropFreeze;
    NothingAdded(desk.store, "system", "quota");
    if engines != [] {
      var n := |engines| - 1;
      ExamineAllAdds(w, request, desk, engines[..n]);
      var before, e, block := ExamineAll(w, request, desk, engines[..n]), engines[n], Quota(w, request, engines[n]);
      var iso := if block.Some? && block.value.freezeUntil.Some? then w.show(block.value.freezeUntil.value) else "";
      FreezeAdds(before.store, e, iso, "system", "quota", map[]);
      NothingAdded(before.store, "system", "quota");
      AddsTwice(desk.store, before.store, Examine(w, request, before, e).store, "system", "quota");
    }
  }

  lemma {:induction false} SweepAdds(w: World, desk: Desk, entries: seq<string>)
    ensures Adds(desk.store, AfterSweep(w, desk, entries).store, "system", "quota")
  {
    hide Adds, DropFreeze;
    NothingAdded(desk.store, "system", "quota");
    if entries != [] {
      var n := |entries| - 1;
      SweepAdds(w, desk, entries[..n]);
      var before := AfterSweep(w, desk, entries[..n]);
      FreezeAdds(before.store, entries[n], "", "system", "quota", map[]);
      NothingAdded(before.store, "system", "quota");
      AddsTwice(desk.store, before.store, AfterSweep(w, desk, entries).store, "system", "quota");
    }
  }

  /** Every operation signs its log rows: selection and the sweep as the system, commands as the operator. */
  lemma RowsNameTheirActor(desk: Desk, op: Op)
    ensures
      var system := op.Select? || op.Sweep?;
      Adds(desk.store, After(desk, op).store,
        if system then "system" else "operator", if system then "quota" else "cli")
  {
    hide Adds, PutFreeze, DropFreeze, Put;
    NothingAdded(desk.store, "operator", "cli");
    match op
    case Select(w, task, request) => ExamineAllAdds(w, request, desk, Reached(w, task, desk.config, request));
    case Sweep(w, entries) => SweepAdds(w, desk, entries);
    case Freeze(engine, until, reason) =>
      FreezeAdds(desk.store, engine, until, "operator", "cli", ReasonContext(reason));
    case Unfreeze(engine, reason) => FreezeAdds(desk.store, engine, "", "operator", "cli", ReasonContext(reason));
    case SetDefault(engine, reason) =>
      PutAdds(desk.store, DefaultEngine, Name(engine), "operator", "cli", ReasonContext(reason));
    case SetPreference(order, reason) =>
      PutAdds(desk.store, EnginePreference, Order(Deduped(order)), "operator", "cli", ReasonContext(reason));
  }

  /** What a row about one engine's freeze tells: the engine, its old and new end time, and the reason given. */
  predicate Tells(
    context: Context, engine: string, before: Option<string>, after: Option<string>, reason: Option<string>)
  {
    && "engine" in context && context["engine"] == Some(engine)
    && "old_value" in context && context["old_value"] == before
    && "new_value" in context && context["new_value"] == after
    && ("reason" in context <==> reason.Some?) && (reason.Some? ==> context["reason"] == reason)
  }

  lemma KeysDiffer()
    ensures "engine" != "old_value" && "engine" != "new_value" && "old_value" != "new_value"
    ensures "reason" != "engine" && "reason" != "old_value" && "reason" != "new_value"
  {
    assert "engine"[0] == 'e' && "old_value"[0] == 'o' && "new_value"[0] == 'n' && "reason"[0] == 'r';
  }

  /** The row of a freeze tells which engine, from what to what, and why. */
  lemma FreezeRowTells(st: Store, engine: string, until: string, reason: Option<string>)
    ensures
      var after := PutFreeze(st, engine, until, "operator", "cli", ReasonContext(reason));
      after.audit != st.audit ==>
        Tells(after.audit[|st.audit|].context, engine, Lookup(FreezeMap(st), engine), Some(until), reason)
  {
    KeysDiffer();
  }

  /** So does the row of an unfreeze. */
  lemma UnfreezeRowTells(st: Store, engine: string, reason: Option<string>)
    ensures
      var after := DropFreeze(st, engine, "operator", "cli", ReasonContext(reason));
      after.audit != st.audit ==>
        Tells(after.audit[|st.audit|].context, engine, Lookup(FreezeMap(st), engine), None, reason)
  {
    KeysDiffer();
  }
}
