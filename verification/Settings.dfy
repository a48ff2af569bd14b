/** The audited engine-control settings (litehive/config/runtime_settings.py, model.py). */
module Settings {
  import opened Common

  datatype Key = DefaultEngine | EnginePreference | EngineFreeze

  datatype Value = Name(engine: string) | Order(engines: seq<string>) | Freezes(until: map<string, string>)

  type Context = map<string, Option<string>>

  datatype AuditRow = AuditRow(
    key: Key, actor: string, source: string, oldValue: Option<Value>, newValue: Value, context: Context)

  /** The three settings as a configuration holds them, from files or in memory. */
  datatype Controls = Controls(defaultEngine: string, preference: seq<string>, freeze: map<string, string>)

  datatype Store = Store(rows: map<Key, Value>, audit: seq<AuditRow>)

  const VALID_ENGINE_NAMES: set<string> := {"codex", "opencode", "gemini", "copilot", "claude", "goz"}

  // ----- engine lists -------------------------------------------------------------------

  predicate NoDuplicates(es: seq<string>) {
    forall i, j :: 0 <= i < j < |es| ==> es[i] != es[j]
  }

  predicate AllValid(es: seq<string>) {
    forall i :: 0 <= i < |es| ==> es[i] in VALID_ENGINE_NAMES
  }

  /** First occurrences, in order. */
  function Deduped(es: seq<string>): (r: seq<string>)
    ensures NoDuplicates(r)
    ensures forall e :: e in r <==> e in es
    ensures NoDuplicates(es) ==> r == es
    ensures |r| <= |es|
  {
    if es == [] then []
    else
      var n := |es| - 1;
      var d := Deduped(es[..n]);
      assert forall e :: e in es <==> e in es[..n] || e == es[n];
      assert NoDuplicates(es) ==> es[n] !in es[..n] && es == es[..n] + [es[n]];
      if es[n] in es[..n] then d else d + [es[n]]
  }

  /** Where an engine first occurs; the length when it does not. */
  function FirstAt(es: seq<string>, e: string): nat {
    if es == [] || es[0] == e then 0 else 1 + FirstAt(es[1..], e)
  }

  lemma {:induction false} FirstAtFacts(es: seq<string>, e: string)
    ensures FirstAt(es, e) <= |es| && (FirstAt(es, e) < |es| <==> e in es)
    ensures forall n :: 0 <= n <= |es| && e in es[..n] ==> FirstAt(es[..n], e) == FirstAt(es, e) < n
  {
    if es != [] && es[0] != e {
      FirstAtFacts(es[1..], e);
      forall n | 0 <= n <= |es| && e in es[..n] ensures FirstAt(es[..n], e) == FirstAt(es, e) < n {
        assert es[..n][1..] == es[1..][..n - 1];
        assert e in es[1..][..n - 1];
      }
    }
  }

  /** Deduplication keeps the order in which the engines first occur. */
  lemma {:induction false} DedupedKeepsOrder(es: seq<string>, i: nat, j: nat)
    requires i < j < |Deduped(es)|
    ensures FirstAt(es, Deduped(es)[i]) < FirstAt(es, Deduped(es)[j])
  {
    hide NoDuplicates;
    var n := |es| - 1;
    var d, rest := Deduped(es), Deduped(es[..n]);
    FirstAtFacts(es, d[i]);
    FirstAtFacts(es, d[j]);
    assert d[i] in rest && d[i] in es[..n];
    if j < |rest| {
      assert d[j] in rest && d[j] in es[..n];
      DedupedKeepsOrder(es[..n], i, j);
    } else {
      assert d[j] == es[n] && es[n] !in es[..n];
      NotBefore(es, n);
    }
  }

  lemma {:induction false} NotBefore(es: seq<string>, n: nat)
    requires n < |es| && es[n] !in es[..n]
    ensures FirstAt(es, es[n]) == n
  {
    if n > 0 {
      assert es[0] in es[..n];
      assert es[1..][n - 1] == es[n] && es[1..][..n - 1] == es[..n][1..];
      NotBefore(es[1..], n - 1);
    }
  }

  lemma DedupedStep(es: seq<string>, i: nat)
    requires i < |es|
    ensures Deduped(es[..i + 1]) == if es[i] in es[..i] then Deduped(es[..i]) else Deduped(es[..i]) + [es[i]]
  {
    assert es[..i + 1][..i] == es[..i];
  }

  /** Validates and dedupes an engine list; None where the source raises. */
  method NormalizeEngineSequence(engines: seq<string>) returns (r: Option<seq<string>>)
    ensures r == if AllValid(engines) then Some(Deduped(engines)) else None
  {
    hide NoDuplicates, Deduped;
    var normalized: seq<string> := [];
    var seen: set<string> := {};
    assert Deduped(engines[..0]) == [];
    for i := 0 to |engines|
      invariant forall j :: 0 <= j < i ==> engines[j] in VALID_ENGINE_NAMES
      invariant normalized == Deduped(engines[..i])
      invariant forall e :: e in seen <==> e in engines[..i]
    {
      DedupedStep(engines, i);
      assert forall e :: e in engines[..i + 1] <==> e in engines[..i] || e == engines[i];
      if engines[i] !in VALID_ENGINE_NAMES {
        return None;
      }
      if engines[i] !in seen {
        seen := seen + {engines[i]};
        normalized := normalized + [engines[i]];
      }
    }
    assert engines[..|engines|] == engines;
    return Some(normalized);
  }

  // ----- the store as a value -----------------------------------------------------------

  predicate Complete(st: Store) {
    DefaultEngine in st.rows && EnginePreference in st.rows && EngineFreeze in st.rows
  }

  predicate Typed(rows: map<Key, Value>) {
    && (DefaultEngine in rows ==> rows[DefaultEngine].Name?)
    && (EnginePreference in rows ==> rows[EnginePreference].Order?)
    && (EngineFreeze in rows ==> rows[EngineFreeze].Freezes?)
  }

  /** The store holds exactly these three settings. */
  predicate Holds(st: Store, c: Controls) {
    && Complete(st)
    && st.rows[DefaultEngine] == Name(c.defaultEngine)
    && st.rows[EnginePreference] == Order(c.preference)
    && st.rows[EngineFreeze] == Freezes(c.freeze)
  }

  function FileValue(files: Controls, key: Key): Value {
    match key
    case DefaultEngine => Name(files.defaultEngine)
    case EnginePreference => Order(Deduped(files.preference))
    case EngineFreeze => Freezes(files.freeze)
  }

  function Seeded(rows: map<Key, Value>, key: Key, files: Controls): map<Key, Value> {
    if key in rows then rows else rows[key := FileValue(files, key)]
  }

  /** Rows that exist stay; missing rows are taken from the files, without an audit row. */
  function Bootstrapped(st: Store, files: Controls): (r: Store)
    ensures Complete(r) && r.audit == st.audit
    ensures forall k :: k in st.rows ==> k in r.rows && r.rows[k] == st.rows[k]
    ensures Complete(st) ==> r == st
    ensures forall k :: k in r.rows && k !in st.rows ==> r.rows[k] == FileValue(files, k)
    ensures Typed(st.rows) ==> Typed(r.rows)
  {
    var rows := Seeded(Seeded(Seeded(st.rows, DefaultEngine, files), EnginePreference, files), EngineFreeze, files);
    Store(rows, st.audit)
  }

  /** The three values the files seed: their default, their preference without repeats, their freezes. */
  lemma SeededFromFiles(files: Controls)
    ensures Holds(Bootstrapped(Store(map[], []), files),
                  Controls(files.defaultEngine, Deduped(files.preference), files.freeze))
  {
  }

  /** One audited write; writing the value already stored leaves no trace. */
  function Put(st: Store, key: Key, value: Value, actor: string, source: string, context: Context): Store {
    if key in st.rows && st.rows[key] == value then st
    else
      var before := if key in st.rows then Some(st.rows[key]) else None;
      Store(st.rows[key := value], st.audit + [AuditRow(key, actor, source, before, value, context)])
  }

  function FreezeMap(st: Store): map<string, string> {
    if EngineFreeze in st.rows && st.rows[EngineFreeze].Freezes? then st.rows[EngineFreeze].until else map[]
  }

  function Lookup(m: map<string, string>, key: string): Option<string> {
    if key in m then Some(m[key]) else None
  }

  /** Refresh one engine's freeze; the whole map is one setting. */
  function PutFreeze(st: Store, engine: string, until: string, actor: string, source: string, extra: Context): Store {
    var m := FreezeMap(st);
    Put(st, EngineFreeze, Freezes(m[engine := until]), actor, source,
        map["engine" := Some(engine), "old_value" := Lookup(m, engine), "new_value" := Some(until)] + extra)
  }

  /** Drop one engine's freeze; nothing happens when there is none. */
  function DropFreeze(st: Store, engine: string, actor: string, source: string, extra: Context): Store {
    var m := FreezeMap(st);
    if engine !in m then st
    else
      Put(st, EngineFreeze, Freezes(m - {engine}), actor, source,
          map["engine" := Some(engine), "old_value" := Lookup(m, engine), "new_value" := None] + extra)
  }

  // ----- the repository -----------------------------------------------------------------

  class SettingsRepository {
    var rows: map<Key, Value>
    var audit: seq<AuditRow>

    function View(): Store
      reads this
    {
      Store(rows, audit)
    }

    constructor ()
      ensures View() == Store(map[], [])
    {
      rows, audit := map[], [];
    }

    /** Seeds the missing rows; false where a configured preference makes the source raise. */
    method Bootstrap(files: Controls) returns (ok: bool)
      modifies this
      ensures ok <==> old(Complete(View())) || AllValid(files.preference)
      ensures View() == if ok then Bootstrapped(old(View()), files) else old(View())
    {
      if Complete(View()) {
        return true;
      }
      var order := NormalizeEngineSequence(files.preference);
      if order.None? {
        return false;
      }
      if DefaultEngine !in rows { rows := rows[DefaultEngine := Name(files.defaultEngine)]; }
      if EnginePreference !in rows { rows := rows[EnginePreference := Order(order.value)]; }
      if EngineFreeze !in rows { rows := rows[EngineFreeze := Freezes(files.freeze)]; }
      return true;
    }

    /** Overlays the audited values on the file values. */
    method ApplyToConfigData(files: Controls) returns (effective: Option<Controls>)
      modifies this
      requires Typed(rows)
      ensures effective.Some? <==> old(Complete(View())) || AllValid(files.preference)
      ensures View() == if effective.Some? then Bootstrapped(old(View()), files) else old(View())
      ensures effective.Some? ==> Typed(rows) && Holds(View(), effective.value)
    {
      var ok := Bootstrap(files);
      if !ok {
        return None;
      }
      return Some(Controls(rows[DefaultEngine].engine, rows[EnginePreference].engines, rows[EngineFreeze].until));
    }

    /** Writes one setting and its audit row; true when the value changed. */
    method Set(key: Key, value: Value, actor: string, source: string, context: Context, files: Controls)
      returns (changed: Option<bool>)
      modifies this
      ensures changed.Some? <==> old(Complete(View())) || AllValid(files.preference)
      ensures
        if changed.None? then View() == old(View())
        else
          var st := Bootstrapped(old(View()), files);
          && View() == Put(st, key, value, actor, source, context)
          && (changed.value <==> st.rows[key] != value)
    {
      var ok := Bootstrap(files);
      if !ok {
        return None;
      }
      var old' := rows[key];
      if old' == value {
        return Some(false);
      }
      rows := rows[key := value];
      audit := audit + [AuditRow(key, actor, source, Some(old'), value, context)];
      return Some(true);
    }

    /** Adds or refreshes one engine's entry in the freeze map. */
    method SetEngineFreeze(
        engine: string, until: string, actor: string, source: string, extra: Context, files: Controls)
      returns (changed: Option<bool>)
      requires Typed(rows)
      modifies this
      ensures changed.Some? <==> old(Complete(View())) || AllValid(files.preference)
      ensures
        if changed.None? then View() == old(View())
        else
          var st := Bootstrapped(old(View()), files);
          && View() == PutFreeze(st, engine, until, actor, source, extra)
          && (changed.value <==> Lookup(FreezeMap(st), engine) != Some(until))
    {
      var settings := ApplyToConfigData(files);
      if settings.None? {
        return None;
      }
      var until' := settings.value.freeze;
      var before := Lookup(until', engine);
      changed := Set(EngineFreeze, Freezes(until'[engine := until]), actor, source,
        map["engine" := Some(engine), "old_value" := before, "new_value" := Some(until)] + extra, files);
    }

    /** Removes one engine's entry; leaves no audit row when there was none. */
    method ClearEngineFreeze(engine: string, actor: string, source: string, extra: Context, files: Controls)
      returns (changed: Option<bool>)
      requires Typed(rows)
      modifies this
      ensures changed.Some? <==> old(Complete(View())) || AllValid(files.preference)
      ensures
        if changed.None? then View() == old(View())
        else
          var st := Bootstrapped(old(View()), files);
          && View() == DropFreeze(st, engine, actor, source, extra)
          && (changed.value <==> engine in FreezeMap(st))
    {
      var ok := Bootstrap(files);
      if !ok {
        return None;
      }
      var before := rows[EngineFreeze];
      if engine !in before.until {
        return Some(false);
      }
      var rest := before.until - {engine};
      rows := rows[EngineFreeze := Freezes(rest)];
      audit := audit + [AuditRow(EngineFreeze, actor, source, Some(before), Freezes(rest),
        map["engine" := Some(engine), "old_value" := Some(before.until[engine]), "new_value" := None] + extra)];
      return Some(true);
    }
  }
}
