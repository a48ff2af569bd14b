/** Engine selection over the audited store (litehive/config/engine_models.py, engine_freezes.py). */
module Routing {
  import opened Common
  import opened Settings

  datatype QuotaBlock = QuotaBlock(reason: string, freezeUntil: Option<int>)

  /**
   * The outside world during one call: the clock, the timestamp parser and printer, and the probes.
   * `unavailable` gives the skip reason of an engine whose availability check fails.
   */
  datatype World = World(
    now: int,
    parse: string -> Option<int>,
    show: int -> string,
    unavailable: string -> Option<string>,
    quota: string -> Option<QuotaBlock>,
    takesModel: string -> bool)

  datatype EngineSwitch = EngineSwitch(stage: string, toEngine: string)

  datatype Task = Task(pipelineStatus: string, lastSwitch: Option<EngineSwitch>, model: Option<string>)

  datatype SelectionRequest = SelectionRequest(
    override: Option<string>, engineNames: Option<seq<string>>, excluded: set<string>,
    requireAvailable: bool, checkQuota: bool, model: Option<string>)

  datatype Skip = Skip(engine: string, reason: string)

  datatype Selection = Selection(
    engine: Option<string>, model: Option<string>, attempts: seq<string>, skipped: seq<Skip>, blockedReason: string)

  /** The models pinned in the workspace config; engines that are not listed have none. */
  type Models = map<string, string>

  /** The two places a setting lives: the live config and the audited store. */
  datatype Desk = Desk(config: Controls, store: Store)

  // ----- candidate order and freezes ----------------------------------------------------

  function Plan(task: Task, config: Controls, override: Option<string>): seq<string> {
    if override.Some? then [override.value]
    else if task.lastSwitch.Some? && task.lastSwitch.value.stage == task.pipelineStatus
    then [task.lastSwitch.value.toEngine]
    else [config.defaultEngine]
  }

  function Without(es: seq<string>, dropped: set<string>): (r: seq<string>)
    ensures forall e :: e in r <==> e in es && e !in dropped
  {
    if es == [] then []
    else if es[0] in dropped then Without(es[1..], dropped)
    else [es[0]] + Without(es[1..], dropped)
  }

  lemma {:induction false} WithoutConcat(a: seq<string>, b: seq<string>, dropped: set<string>)
    ensures Without(a + b, dropped) == Without(a, dropped) + Without(b, dropped)
  {
    if a == [] {
      assert a + b == b;
    } else {
      WithoutConcat(a[1..], b, dropped);
      assert (a + b)[1..] == a[1..] + b;
    }
  }

  /** Filtering decides element by element, so it keeps order and repetitions. */
  lemma WithoutIsElementwise(a: seq<string>, e: string, b: seq<string>, dropped: set<string>)
    ensures Without(a + [e] + b, dropped) ==
      Without(a, dropped) + (if e in dropped then [] else [e]) + Without(b, dropped)
  {
    hide Without;
    WithoutConcat(a + [e], b, dropped);
    WithoutConcat(a, [e], dropped);
    WithoutSingle(e, dropped);
  }

  lemma WithoutSingle(e: string, dropped: set<string>)
    ensures Without([e], dropped) == if e in dropped then [] else [e]
  {
    assert [e][1..] == [];
  }

  function CandidateOrder(task: Task, config: Controls, request: SelectionRequest): seq<string> {
    if request.engineNames.Some? then Without(request.engineNames.value, request.excluded)
    else Without(Plan(task, config, request.override) + config.preference, request.excluded)
  }

  function Until(w: World, freeze: map<string, string>, engine: string): Option<int> {
    if engine in freeze then w.parse(freeze[engine]) else None
  }

  predicate Frozen(w: World, freeze: map<string, string>, engine: string) {
    var until := Until(w, freeze, engine);
    until.Some? && w.now < until.value
  }

  function FrozenEngines(w: World, freeze: map<string, string>): set<string> {
    set e | e in freeze && Frozen(w, freeze, e)
  }

  /** Fills the dictionary of active freezes, in whatever order the entries come. */
  method ActiveFreezes(w: World, freeze: map<string, string>) returns (active: map<string, int>)
    ensures active.Keys == FrozenEngines(w, freeze)
    ensures forall e :: e in active ==> Until(w, freeze, e) == Some(active[e])
  {
    active := map[];
    var rest := freeze.Keys;
    while rest != {}
      invariant rest <= freeze.Keys
      invariant forall e :: e in active <==> e in freeze && e !in rest && Frozen(w, freeze, e)
      invariant forall e :: e in active ==> Until(w, freeze, e) == Some(active[e])
      decreases |rest|
    {
      var e :| e in rest;
      rest := rest - {e};
      var until := w.parse(freeze[e]);
      if until.Some? && w.now < until.value {
        active := active[e := until.value];
      }
    }
  }

  // ----- one candidate ------------------------------------------------------------------

  function Quota(w: World, request: SelectionRequest, engine: string): Option<QuotaBlock> {
    if request.checkQuota then w.quota(engine) else None
  }

  /** Why an unfrozen candidate is passed over; None when it can run. */
  function SkipReason(w: World, request: SelectionRequest, engine: string): Option<string> {
    if request.requireAvailable && w.unavailable(engine).Some? then w.unavailable(engine)
    else
      var block := Quota(w, request, engine);
      if block.Some? then Some(block.value.reason) else None
  }

  function PersistFreeze(desk: Desk, engine: string, iso: string): Desk {
    if Lookup(desk.config.freeze, engine) == Some(iso) then desk
    else
      Desk(desk.config.(freeze := desk.config.freeze[engine := iso]),
           PutFreeze(desk.store, engine, iso, "system", "quota", map[]))
  }

  function ClearFreeze(desk: Desk, engine: string): Desk {
    Desk(desk.config.(freeze := desk.config.freeze - {engine}),
         DropFreeze(desk.store, engine, "system", "quota", map[]))
  }

  /** What looking at one unfrozen candidate does to its freeze entry. */
  function Examine(w: World, request: SelectionRequest, desk: Desk, engine: string): Desk {
    if request.requireAvailable && w.unavailable(engine).Some? then desk
    else
      var block := Quota(w, request, engine);
      if block.Some? && block.value.freezeUntil.Some? then
        PersistFreeze(desk, engine, w.show(block.value.freezeUntil.value))
      else if Until(w, desk.config.freeze, engine).Some? then ClearFreeze(desk, engine)
      else desk
  }

  function ExamineAll(w: World, request: SelectionRequest, desk: Desk, engines: seq<string>): Desk {
    if engines == [] then desk
    else Examine(w, request, ExamineAll(w, request, desk, engines[..|engines| - 1]), engines[|engines| - 1])
  }

  /** The position of the first candidate that can run; the length of the list when there is none. */
  function FirstEligible(w: World, request: SelectionRequest, attempts: seq<string>): (k: nat)
    ensures k <= |attempts|
    ensures forall i :: 0 <= i < k ==> SkipReason(w, request, attempts[i]).Some?
    ensures k < |attempts| ==> SkipReason(w, request, attempts[k]).None?
  {
    if attempts == [] || SkipReason(w, request, attempts[0]).None? then 0
    else 1 + FirstEligible(w, request, attempts[1..])
  }

  /** An engine that takes no model gets none; otherwise the request, the task and the config are asked in turn. */
  function ResolveModel(w: World, models: Models, task: Task, request: SelectionRequest, engine: string):
    (model: Option<string>)
    ensures !w.takesModel(engine) ==> model == None
    ensures w.takesModel(engine) && request.model.Some? ==> model == request.model
    ensures w.takesModel(engine) && request.model == None && task.model.Some? ==> model == task.model
    ensures w.takesModel(engine) && model.Some? && request.model == None && task.model == None ==>
      engine in models && model.value == models[engine]
    ensures w.takesModel(engine) ==>
      (model == None <==> request.model == None && task.model == None && engine !in models)
  {
    if !w.takesModel(engine) then None
    else if request.model.Some? then request.model
    else if task.model.Some? then task.model
    else Lookup(models, engine)
  }

  function Attempts(w: World, task: Task, config: Controls, request: SelectionRequest): seq<string> {
    Without(CandidateOrder(task, config, request), FrozenEngines(w, config.freeze))
  }

  /** The candidates selection looks at: the skipped ones and the chosen one. */
  function Walked(w: World, request: SelectionRequest, attempts: seq<string>): seq<string> {
    var k := FirstEligible(w, request, attempts);
    if k < |attempts| then attempts[..k + 1] else attempts
  }

  function Reached(w: World, task: Task, config: Controls, request: SelectionRequest): seq<string> {
    Walked(w, request, Attempts(w, task, config, request))
  }

  function AfterSelect(w: World, task: Task, request: SelectionRequest, desk: Desk): Desk {
    ExamineAll(w, request, desk, Reached(w, task, desk.config, request))
  }

  /** The skipped engines are the first attempts, each with its reason. */
  predicate SkippedInOrder(w: World, request: SelectionRequest, attempts: seq<string>, skipped: seq<Skip>) {
    && |skipped| <= |attempts|
    && forall i :: 0 <= i < |skipped| ==>
         skipped[i].engine == attempts[i] && SkipReason(w, request, attempts[i]) == Some(skipped[i].reason)
  }

  /** Which selection the documentation promises, without saying how it is found. */
  predicate Chosen(w: World, task: Task, config: Controls, request: SelectionRequest, s: Selection) {
    var order := CandidateOrder(task, config, request);
    && s.attempts == Without(order, FrozenEngines(w, config.freeze))
    && SkippedInOrder(w, request, s.attempts, s.skipped)
    && (s.engine.Some? ==>
          && |s.skipped| < |s.attempts|
          && s.engine.value == s.attempts[|s.skipped|]
          && SkipReason(w, request, s.engine.value).None?
          && s.blockedReason == "")
    && (s.engine.None? ==>
          && |s.skipped| == |s.attempts|
          && s.blockedReason ==
               if s.skipped != [] then s.skipped[|s.skipped| - 1].reason
               else if order != [] then "all candidate engines are frozen"
               else "no eligible engine available")
  }

  // ----- operator commands --------------------------------------------------------------

  function ReasonContext(reason: Option<string>): Context {
    if reason.Some? then map["reason" := reason] else map[]
  }

  function AfterFreeze(desk: Desk, engine: string, until: string, reason: Option<string>): Desk {
    Desk(desk.config.(freeze := desk.config.freeze[engine := until]),
         PutFreeze(desk.store, engine, until, "operator", "cli", ReasonContext(reason)))
  }

  /** The live entry is dropped only when the store had one. */
  function AfterUnfreeze(desk: Desk, engine: string, reason: Option<string>): Desk {
    if engine in FreezeMap(desk.store) then
      Desk(desk.config.(freeze := desk.config.freeze - {engine}),
           DropFreeze(desk.store, engine, "operator", "cli", ReasonContext(reason)))
    else desk
  }

  function AfterSetDefault(desk: Desk, engine: string, reason: Option<string>): Desk {
    Desk(desk.config.(defaultEngine := engine),
         Put(desk.store, DefaultEngine, Name(engine), "operator", "cli", ReasonContext(reason)))
  }

  /** The store gets the deduplicated list, the live config the list as given; an unknown name changes nothing. */
  function AfterSetPreference(desk: Desk, order: seq<string>, reason: Option<string>): Desk {
    if AllValid(order) then
      Desk(desk.config.(preference := order),
           Put(desk.store, EnginePreference, Order(Deduped(order)), "operator", "cli", ReasonContext(reason)))
    else desk
  }

  predicate Expired(w: World, freeze: map<string, string>, engine: string) {
    Until(w, freeze, engine).Some? && !Frozen(w, freeze, engine)
  }

  function AfterSweep(w: World, desk: Desk, entries: seq<string>): Desk {
    if entries == [] then desk
    else
      var n := |entries| - 1;
      var swept := AfterSweep(w, desk, entries[..n]);
      if Expired(w, desk.config.freeze, entries[n]) then ClearFreeze(swept, entries[n]) else swept
  }

  /** The dictionary's entries in some order. */
  ghost predicate Enumerates(entries: seq<string>, freeze: map<string, string>) {
    NoDuplicates(entries) && forall e :: e in entries <==> e in freeze
  }

  // ----- the policy object --------------------------------------------------------------

  class LitehiveConfig {
    const models: Models
    var controls: Controls

    constructor (controls: Controls, models: Models)
      ensures this.controls == controls && this.models == models
    {
      this.controls, this.models := controls, models;
    }
  }

  /** Bound to a workspace's store and its live config; the store has been bootstrapped by loading that config. */
  class EngineRoutingPolicy {
    const store: SettingsRepository
    const config: LitehiveConfig

    ghost predicate Valid()
      reads store
    {
      Complete(store.View()) && Typed(store.rows)
    }

    function View(): Desk
      reads store, config
    {
      Desk(config.controls, store.View())
    }

    constructor (store: SettingsRepository, config: LitehiveConfig)
      requires Complete(store.View()) && Typed(store.rows)
      ensures this.store == store && this.config == config && Valid()
    {
      this.store, this.config := store, config;
    }

    /** `files` is what the config files say at the moment of a store call; it never shows in the outcome. */
    method PersistEngineFreeze(engine: string, iso: string, files: Controls)
      requires Valid()
      modifies store, config
      ensures Valid()
      ensures View() == PersistFreeze(old(View()), engine, iso)
    {
      if Lookup(config.controls.freeze, engine) == Some(iso) {
        return;
      }
      var _ := store.SetEngineFreeze(engine, iso, "system", "quota", map[], files);
      config.controls := config.controls.(freeze := config.controls.freeze[engine := iso]);
    }

    method ClearEngineFreeze(engine: string, files: Controls)
      requires Valid()
      modifies store, config
      ensures Valid()
      ensures View() == ClearFreeze(old(View()), engine)
    {
      var _ := store.ClearEngineFreeze(engine, "system", "quota", map[], files);
      config.controls := config.controls.(freeze := config.controls.freeze - {engine});
    }

    /** Looks at one unfrozen candidate; a reason means it is passed over. */
    method Consider(
        w: World, request: SelectionRequest, engine: string, files: Controls) returns (reason: Option<string>)
      requires Valid()
      modifies store, config
      ensures Valid()
      ensures reason == SkipReason(w, request, engine)
      ensures View() == Examine(w, request, old(View()), engine)
    {
      if request.requireAvailable && w.unavailable(engine).Some? {
        return w.unavailable(engine);
      }
      var expired := Until(w, config.controls.freeze, engine).Some?;
      var block := Quota(w, request, engine);
      if block.Some? {
        if block.value.freezeUntil.Some? {
          PersistEngineFreeze(engine, w.show(block.value.freezeUntil.value), files);
        } else if expired {
          ClearEngineFreeze(engine, files);
        }
        return Some(block.value.reason);
      }
      if expired {
        ClearEngineFreeze(engine, files);
      }
      return None;
    }

    method Select(w: World, task: Task, request: SelectionRequest, files: Controls) returns (s: Selection)
      requires Valid()
      modifies store, config
      ensures Valid()
      ensures Chosen(w, task, old(config.controls), request, s)
      ensures s.model ==
        if s.engine.Some? then ResolveModel(w, config.models, task, request, s.engine.value) else None
      ensures View() == AfterSelect(w, task, request, old(View()))
    {
      hide Examine, ExamineAll, Plan, Frozen, SkipReason, Quota, CandidateOrder, Without, FrozenEngines;
      hide FirstEligible, SkippedInOrder, Walked, Complete, Typed;
      ghost var desk := View();
      var order := CandidateOrder(task, config.controls, request);
      var frozen := ActiveFreezes(w, config.controls.freeze);
      var attempts := Without(order, frozen.Keys);
      WalkStarts(w, request, desk, attempts);
      if attempts == [] && order != [] && forall e :: e in order ==> e in frozen {
        return Selection(None, None, [], [], "all candidate engines are frozen");
      }
      var skipped: seq<Skip> := [];
      for i := 0 to |attempts|
        invariant Valid()
        invariant |skipped| == i && SkippedInOrder(w, request, attempts, skipped)
        invariant View() == ExamineAll(w, request, desk, attempts[..i])
      {
        var reason := Consider(w, request, attempts[i], files);
        WalkOn(w, request, desk, attempts, skipped, i);
        if reason.None? {
          var model := ResolveModel(w, config.models, task, request, attempts[i]);
          return Selection(Some(attempts[i]), model, attempts, skipped, "");
        }
        skipped := skipped + [Skip(attempts[i], reason.value)];
      }
      WalkEnds(w, request, attempts, skipped);
      if skipped != [] {
        return Selection(None, None, attempts, skipped, skipped[|skipped| - 1].reason);
      }
      return Selection(None, None, attempts, skipped, "no eligible engine available");
    }

    method Freeze(engine: string, until: string, reason: Option<string>, files: Controls)
      requires Valid()
      modifies store, config
      ensures Valid()
      ensures View() == AfterFreeze(old(View()), engine, until, reason)
    {
      var _ := store.SetEngineFreeze(engine, until, "operator", "cli", ReasonContext(reason), files);
      config.controls := config.controls.(freeze := config.controls.freeze[engine := until]);
    }

    method Unfreeze(engine: string, reason: Option<string>, files: Controls) returns (changed: bool)
      requires Valid()
      modifies store, config
      ensures Valid()
      ensures View() == AfterUnfreeze(old(View()), engine, reason)
      ensures changed <==> engine in FreezeMap(old(store.View()))
    {
      var change := store.ClearEngineFreeze(engine, "operator", "cli", ReasonContext(reason), files);
      changed := change.value;
      if changed {
        config.controls := config.controls.(freeze := config.controls.freeze - {engine});
      }
    }

    method SetDefault(engine: string, reason: Option<string>, files: Controls)
      requires Valid()
      modifies store, config
      ensures Valid()
      ensures View() == AfterSetDefault(old(View()), engine, reason)
    {
      var _ := store.Set(DefaultEngine, Name(engine), "operator", "cli", ReasonContext(reason), files);
      config.controls := config.controls.(defaultEngine := engine);
    }

    /** False where an unknown engine name makes the source raise. */
    method SetPreference(order: seq<string>, reason: Option<string>, files: Controls) returns (ok: bool)
      requires Valid()
      modifies store, config
      ensures Valid()
      ensures ok == AllValid(order)
      ensures View() == AfterSetPreference(old(View()), order, reason)
    {
      var normalized := NormalizeEngineSequence(order);
      if normalized.None? {
        return false;
      }
      var _ := store.Set(EnginePreference, Order(normalized.value), "operator", "cli", ReasonContext(reason), files);
      config.controls := config.controls.(preference := order);
      return true;
    }

    method ClearExpiredFreezes(w: World, entries: seq<string>, files: Controls)
      requires Valid()
      requires Enumerates(entries, config.controls.freeze)
      modifies store, config
      ensures Valid()
      ensures View() == AfterSweep(w, old(View()), entries)
    {
      ghost var start := config.controls.freeze;
      for i := 0 to |entries|
        invariant Valid()
        invariant View() == AfterSweep(w, old(View()), entries[..i])
        invariant forall j :: i <= j < |entries| ==>
          entries[j] in config.controls.freeze && config.controls.freeze[entries[j]] == start[entries[j]]
      {
        assert entries[..i + 1][..i] == entries[..i];
        if Until(w, config.controls.freeze, entries[i]).Some? && !Frozen(w, config.controls.freeze, entries[i]) {
          ClearEngineFreeze(entries[i], files);
        }
      }
      assert entries[..|entries|] == entries;
    }
  }

  lemma WalkStarts(w: World, request: SelectionRequest, desk: Desk, attempts: seq<string>)
    ensures ExamineAll(w, request, desk, attempts[..0]) == desk
    ensures SkippedInOrder(w, request, attempts, [])
    ensures attempts == [] ==> Walked(w, request, attempts) == []
  {
    assert attempts[..0] == [];
  }

  /** Looking at the next attempt: either it ends the walk, or it is one more that is skipped. */
  lemma WalkOn(w: World, request: SelectionRequest, desk: Desk, attempts: seq<string>, skipped: seq<Skip>, i: nat)
    requires i < |attempts| && |skipped| == i && SkippedInOrder(w, request, attempts, skipped)
    ensures ExamineAll(w, request, desk, attempts[..i + 1]) ==
      Examine(w, request, ExamineAll(w, request, desk, attempts[..i]), attempts[i])
    ensures
      match SkipReason(w, request, attempts[i])
      case None => Walked(w, request, attempts) == attempts[..i + 1]
      case Some(reason) => SkippedInOrder(w, request, attempts, skipped + [Skip(attempts[i], reason)])
  {
    hide SkipReason, Examine;
    assert attempts[..i + 1][..i] == attempts[..i];
    if SkipReason(w, request, attempts[i]).None? {
      FirstEligibleIs(w, request, attempts, i);
    }
  }

  lemma WalkEnds(w: World, request: SelectionRequest, attempts: seq<string>, skipped: seq<Skip>)
    requires |skipped| == |attempts| && SkippedInOrder(w, request, attempts, skipped)
    ensures Walked(w, request, attempts) == attempts[..|attempts|]
  {
    hide SkipReason;
    FirstEligibleIs(w, request, attempts, |attempts|);
  }

  lemma {:induction false} FirstEligibleIs(w: World, request: SelectionRequest, attempts: seq<string>, k: nat)
    requires k <= |attempts|
    requires forall i :: 0 <= i < k ==> SkipReason(w, request, attempts[i]).Some?
    requires k < |attempts| ==> SkipReason(w, request, attempts[k]).None?
    ensures FirstEligible(w, request, attempts) == k
  {
    var f := FirstEligible(w, request, attempts);
    assert !(f < k) && !(k < f);
  }
}
