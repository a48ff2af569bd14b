/** What the audit log means over every sequence of repository calls (litehive/config/runtime_settings.py). */
module AuditRuns {
  import opened Common
  import opened Settings

  const EMPTY: Store := Store(map[], [])

  datatype Request =
    | Load
    | Write(key: Key, value: Value, actor: string, source: string, context: Context)
    | Freeze(engine: string, until: string, actor: string, source: string, extra: Context)
    | Unfreeze(engine: string, actor: string, source: string, extra: Context)

  /** A repository call, with what the config files say at that moment. */
  datatype Call = Call(request: Request, files: Controls)

  predicate Answered(st: Store, call: Call) {
    Complete(st) || AllValid(call.files.preference)
  }

  /** The request on a store whose three rows exist. */
  function Served(st: Store, request: Request): Store {
    match request
    case Load => st
    case Write(key, value, actor, source, context) => Put(st, key, value, actor, source, context)
    case Freeze(engine, until, actor, source, extra) => PutFreeze(st, engine, until, actor, source, extra)
    case Unfreeze(engine, actor, source, extra) => DropFreeze(st, engine, actor, source, extra)
  }

  function After(st: Store, call: Call): Store {
    if Answered(st, call) then Served(Bootstrapped(st, call.files), call.request) else st
  }

  function Run(st: Store, calls: seq<Call>): Store {
    if calls == [] then st else After(Run(st, calls[..|calls| - 1]), calls[|calls| - 1])
  }

  /** Executes one call on the live repository. */
  method Perform(repository: SettingsRepository, call: Call) returns (answered: bool)
    requires Typed(repository.rows)
    modifies repository
    ensures answered == Answered(old(repository.View()), call)
    ensures repository.View() == After(old(repository.View()), call)
  {
    match call.request {
      case Load =>
        var settings := repository.ApplyToConfigData(call.files);
        return settings.Some?;
      case Write(key, value, actor, source, context) =>
        var changed := repository.Set(key, value, actor, source, context, call.files);
        return changed.Some?;
      case Freeze(engine, until, actor, source, extra) =>
        var changed := repository.SetEngineFreeze(engine, until, actor, source, extra, call.files);
        return changed.Some?;
      case Unfreeze(engine, actor, source, extra) =>
        var changed := repository.ClearEngineFreeze(engine, actor, source, extra, call.files);
        return changed.Some?;
    }
  }

  /** A value is written only under a key of its type, as the setters do. */
  predicate TypedRequest(request: Request) {
    request.Write? ==>
      match request.key
      case DefaultEngine => request.value.Name?
      case EnginePreference => request.value.Order?
      case EngineFreeze => request.value.Freezes?
  }

  lemma CallKeepsTyped(st: Store, call: Call)
    requires Typed(st.rows) && TypedRequest(call.request)
    ensures Typed(After(st, call).rows)
  {
  }

  /** A whole sequence of calls on the live repository is the specified run. */
  method PerformAll(repository: SettingsRepository, calls: seq<Call>)
    requires Typed(repository.rows) && forall i :: 0 <= i < |calls| ==> TypedRequest(calls[i].request)
    modifies repository
    ensures Typed(repository.rows)
    ensures repository.View() == Run(old(repository.View()), calls)
  {
    hide After, TypedRequest, Typed;
    for i := 0 to |calls|
      invariant Typed(repository.rows)
      invariant repository.View() == Run(old(repository.View()), calls[..i])
    {
      CallKeepsTyped(repository.View(), calls[i]);
      var _ := Perform(repository, calls[i]);
      assert calls[..i + 1][..i] == calls[..i];
    }
    assert calls[..|calls|] == calls;
  }

  // ----- replaying the log --------------------------------------------------------------

  /** The log's new values written over some base rows, oldest first. */
  function Replay(base: map<Key, Value>, audit: seq<AuditRow>): map<Key, Value> {
    if audit == [] then base
    else
      var last := audit[|audit| - 1];
      Replay(base, audit[..|audit| - 1])[last.key := last.newValue]
  }

  /** The log's old values written back, newest first. */
  function Rewind(rows: map<Key, Value>, audit: seq<AuditRow>): map<Key, Option<Value>> {
    if audit == [] then map k | k in rows :: Some(rows[k])
    else
      var first := audit[0];
      Rewind(rows, audit[1..])[first.key := first.oldValue]
  }

  /** Every row records a real change from the value the earlier rows lead to. */
  predicate Truthful(base: map<Key, Value>, audit: seq<AuditRow>) {
    forall i {:trigger audit[i]} :: 0 <= i < |audit| ==> RecordsAt(base, audit, i)
  }

  predicate RecordsAt(base: map<Key, Value>, audit: seq<AuditRow>, i: nat)
    requires i < |audit|
  {
    var rows := Replay(base, audit[..i]);
    && audit[i].key in rows
    && audit[i].oldValue == Some(rows[audit[i].key])
    && audit[i].oldValue != Some(audit[i].newValue)
  }

  predicate Explained(base: map<Key, Value>, st: Store) {
    && Complete(st)
    && Complete(Store(base, []))
    && st.rows == Replay(base, st.audit)
    && Truthful(base, st.audit)
  }

  lemma PutIsExplained(
      base: map<Key, Value>, st: Store, key: Key, value: Value, actor: string, source: string, context: Context)
    requires Explained(base, st)
    ensures Explained(base, Put(st, key, value, actor, source, context))
  {
    var st' := Put(st, key, value, actor, source, context);
    if st' != st {
      var n := |st.audit|;
      assert st'.audit[..n] == st.audit;
      forall i | 0 <= i < |st'.audit| ensures RecordsAt(base, st'.audit, i) {
        assert st'.audit[..i] == st.audit[..i];
        if i < n {
          assert RecordsAt(base, st.audit, i);
        }
      }
    }
  }

  lemma CallIsExplained(base: map<Key, Value>, st: Store, call: Call)
    requires Explained(base, st)
    ensures Explained(base, After(st, call))
  {
    match call.request
    case Load =>
    case Write(key, value, actor, source, context) => PutIsExplained(base, st, key, value, actor, source, context);
    case Freeze(engine, until, actor, source, extra) =>
      var m := FreezeMap(st);
      PutIsExplained(base, st, EngineFreeze, Freezes(m[engine := until]), actor, source,
        map["engine" := Some(engine), "old_value" := Lookup(m, engine), "new_value" := Some(until)] + extra);
    case Unfreeze(engine, actor, source, extra) =>
      var m := FreezeMap(st);
      PutIsExplained(base, st, EngineFreeze, Freezes(m - {engine}), actor, source,
        map["engine" := Some(engine), "old_value" := Lookup(m, engine), "new_value" := None] + extra);
  }

  /** The files read by the first call that is answered. */
  function Seed(calls: seq<Call>): Option<Controls> {
    if calls == [] then None
    else if AllValid(calls[0].files.preference) then Some(calls[0].files)
    else Seed(calls[1..])
  }

  lemma {:induction false} SeedOfPrefix(calls: seq<Call>)
    requires |calls| > 0
    ensures
      var before, last := Seed(calls[..|calls| - 1]), calls[|calls| - 1].files;
      Seed(calls) == if before.Some? then before else if AllValid(last.preference) then Some(last) else None
  {
    if |calls| > 1 {
      SeedOfPrefix(calls[1..]);
      assert calls[1..][..|calls| - 2] == calls[..|calls| - 1][1..];
    }
  }

  /**
   * From an empty database, over any calls and however the files drift: nothing is stored until a call can
   * read valid files; from then on the rows are exactly the log replayed over what those files said, and every
   * log row is a true change.
   */
  lemma {:induction false} AuditIsHistory(calls: seq<Call>)
    ensures
      match Seed(calls)
      case None => Run(EMPTY, calls) == EMPTY
      case Some(files) => Explained(Bootstrapped(EMPTY, files).rows, Run(EMPTY, calls))
  {
    if calls != [] {
      var n := |calls| - 1;
      AuditIsHistory(calls[..n]);
      SeedOfPrefix(calls);
      match Seed(calls[..n]) {
        case Some(files) => CallIsExplained(Bootstrapped(EMPTY, files).rows, Run(EMPTY, calls[..n]), calls[n]);
        case None =>
          if AllValid(calls[n].files.preference) {
            var st := Bootstrapped(EMPTY, calls[n].files);
            assert Explained(st.rows, st);
            CallIsExplained(st.rows, st, calls[n]);
          }
      }
    }
  }

  /** Once the rows exist, the files no longer matter: the same requests give the same store. */
  lemma {:induction false} FilesAreReadOnce(st: Store, calls: seq<Call>, others: seq<Call>)
    requires Complete(st)
    requires |calls| == |others|
    requires forall i :: 0 <= i < |calls| ==> calls[i].request == others[i].request
    ensures Complete(Run(st, calls))
    ensures Run(st, calls) == Run(st, others)
  {
    if calls != [] {
      var n := |calls| - 1;
      FilesAreReadOnce(st, calls[..n], others[..n]);
    }
  }

  // ----- what a truthful log lets a reader conclude -------------------------------------

  lemma {:induction false} ReplaySkips(base: map<Key, Value>, audit: seq<AuditRow>, i: nat, j: nat, key: Key)
    requires i <= j <= |audit|
    requires forall m :: i <= m < j ==> audit[m].key != key
    ensures key in Replay(base, audit[..j]) <==> key in Replay(base, audit[..i])
    ensures key in Replay(base, audit[..i]) ==> Replay(base, audit[..j])[key] == Replay(base, audit[..i])[key]
  {
    if i < j {
      ReplaySkips(base, audit, i, j - 1, key);
      assert audit[..j][..j - 1] == audit[..j - 1];
    }
  }

  /** Consecutive rows of one key chain: the later old value is the earlier new value. */
  lemma RowsChain(base: map<Key, Value>, audit: seq<AuditRow>, i: nat, j: nat)
    requires Truthful(base, audit)
    requires i < j < |audit| && audit[i].key == audit[j].key
    requires forall m :: i < m < j ==> audit[m].key != audit[i].key
    ensures audit[j].oldValue == Some(audit[i].newValue)
  {
    assert RecordsAt(base, audit, j);
    ReplaySkips(base, audit, i + 1, j, audit[i].key);
    assert audit[..i + 1][..i] == audit[..i];
  }

  /** The first row of a key starts from the bootstrap value. */
  lemma FirstRowStartsAtBase(base: map<Key, Value>, audit: seq<AuditRow>, j: nat)
    requires Truthful(base, audit)
    requires j < |audit|
    requires forall m :: 0 <= m < j ==> audit[m].key != audit[j].key
    ensures audit[j].key in base && audit[j].oldValue == Some(base[audit[j].key])
  {
    assert RecordsAt(base, audit, j);
    ReplaySkips(base, audit, 0, j, audit[j].key);
  }

  lemma {:induction false} ReplayFront(base: map<Key, Value>, audit: seq<AuditRow>)
    requires audit != []
    ensures Replay(base, audit) == Replay(base[audit[0].key := audit[0].newValue], audit[1..])
  {
    var n := |audit| - 1;
    if n > 0 {
      ReplayFront(base, audit[..n]);
      assert audit[..n][1..] == audit[1..][..n - 1];
    } else {
      assert audit[..0] == [] && audit[1..] == [];
    }
  }

  lemma TruthfulTail(base: map<Key, Value>, audit: seq<AuditRow>)
    requires audit != [] && Truthful(base, audit)
    ensures Truthful(base[audit[0].key := audit[0].newValue], audit[1..])
  {
    var after, tail := base[audit[0].key := audit[0].newValue], audit[1..];
    forall i | 0 <= i < |tail| ensures RecordsAt(after, tail, i) {
      assert RecordsAt(base, audit, i + 1);
      ReplayFront(base, audit[..i + 1]);
      assert audit[..i + 1][1..] == tail[..i];
    }
  }

  /** The log can be undone: its old values lead back from the stored rows to the bootstrap values. */
  lemma {:induction false} RewindUndoesReplay(base: map<Key, Value>, audit: seq<AuditRow>)
    requires Truthful(base, audit)
    ensures Rewind(Replay(base, audit), audit) == map k | k in base :: Some(base[k])
  {
    if audit != [] {
      var after := base[audit[0].key := audit[0].newValue];
      ReplayFront(base, audit);
      TruthfulTail(base, audit);
      RewindUndoesReplay(after, audit[1..]);
      assert RecordsAt(base, audit, 0);
      assert audit[..0] == [];
    }
  }
}
