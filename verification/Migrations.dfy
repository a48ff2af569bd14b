/** Resumable schema migrations (litehive/db/schema.py). */
module Migrations {
  import opened Common
  datatype Table =
    | SchemaMigrations | PoolState | Queue | TaskStateTable | TaskJournal | TaskActivity | StageReports | HookArtifacts
    | SubagentSessions | EventsTable | EngineMonitoring | Worktrees | PipelineTransitions | PipelineJournal
    | PipelineTaskState | PipelineSessions | TaskAuditLog | RecoveryReports | TaskIntent | RuntimeSettings
    | RuntimeSettingsAuditLog | RuntimeProcessState | AttentionLog | SubagentIdCounters

  /** A bundled script, with the tables it creates. */
  datatype Migration = Migration(version: nat, name: string, creates: set<Table>)

  datatype Row = Row(version: nat, name: string)

  /** `log` is schema_migrations ordered by version; `hooked` the versions whose data hook has completed. */
  datatype Db = Db(present: bool, readable: bool, log: seq<Row>, tables: set<Table>, hooked: set<nat>)

  /** Where applying one migration goes wrong. */
  datatype Fault = NoFault | ScriptFails | HookFails

  datatype Outcome =
    | Plan(pending: seq<Migration>, dryRun: bool)
    | Failed(migration: Migration)
    | RebuildRefused

  const NEW_DB: Db := Db(true, true, [], {SchemaMigrations}, {})

  // ----- the check before applying ------------------------------------------------------

  function RowOf(m: Migration): Row { Row(m.version, m.name) }

  function Rows(ms: seq<Migration>): (r: seq<Row>)
    ensures |r| == |ms| && forall i :: 0 <= i < |ms| ==> r[i] == RowOf(ms[i])
  {
    seq(|ms|, i requires 0 <= i < |ms| => RowOf(ms[i]))
  }

  predicate MatchesPrefix(log: seq<Row>, ms: seq<Migration>) {
    |log| <= |ms| && log == Rows(ms[..|log|])
  }

  const BASELINE: set<Table> := {
    SchemaMigrations, PoolState, Queue, TaskStateTable, TaskJournal, TaskActivity, StageReports, HookArtifacts,
    SubagentSessions, EventsTable, EngineMonitoring, Worktrees, PipelineTransitions, PipelineJournal,
    PipelineTaskState, PipelineSessions, TaskAuditLog }

  function RequiredBy(version: nat): set<Table> {
    match version
    case 4 => {RecoveryReports}
    case 5 => {TaskIntent}
    case 6 => {RuntimeSettings, RuntimeSettingsAuditLog}
    case 7 => {RuntimeProcessState}
    case 9 => {AttentionLog}
    case 10 => {SubagentIdCounters}
    case _ => {}
  }

  predicate HasRequiredTables(tables: set<Table>, log: seq<Row>) {
    BASELINE <= tables && forall i :: 0 <= i < |log| ==> RequiredBy(log[i].version) <= tables
  }

  /** Opening a database creates the bookkeeping table when it is missing. */
  function Opened(db: Db): Db {
    if !db.present then NEW_DB else if db.readable then db.(tables := db.tables + {SchemaMigrations}) else db
  }

  predicate RequiresRebuild(db: Db, ms: seq<Migration>) {
    db.present && (
      || !db.readable
      || !MatchesPrefix(db.log, ms)
      || (db.log != [] && !HasRequiredTables(Opened(db).tables, db.log)))
  }

  // ----- applying -----------------------------------------------------------------------

  function Versions(log: seq<Row>): set<nat> {
    set i | 0 <= i < |log| :: log[i].version
  }

  function Pending(ms: seq<Migration>, applied: set<nat>): seq<Migration> {
    if ms == [] then []
    else if ms[0].version in applied then Pending(ms[1..], applied)
    else [ms[0]] + Pending(ms[1..], applied)
  }

  /** The script and its log row commit together. */
  function Logged(db: Db, m: Migration): Db {
    db.(log := db.log + [RowOf(m)], tables := db.tables + m.creates)
  }

  function Finished(db: Db, m: Migration): Db {
    Logged(db, m).(hooked := db.hooked + {m.version})
  }

  /** A failed script is rolled back; a failed hook comes after the commit. */
  function Applied(db: Db, pending: seq<Migration>, fault: nat -> Fault): Db
    decreases |pending|
  {
    if pending == [] then db
    else
      match fault(pending[0].version)
      case ScriptFails => db
      case HookFails => Logged(db, pending[0])
      case NoFault => Applied(Finished(db, pending[0]), pending[1..], fault)
  }

  function FirstFault(pending: seq<Migration>, fault: nat -> Fault): (k: nat)
    ensures k <= |pending|
    ensures forall i :: 0 <= i < k ==> fault(pending[i].version) == NoFault
    ensures k < |pending| ==> fault(pending[k].version) != NoFault
  {
    if pending == [] || fault(pending[0].version) != NoFault then 0 else 1 + FirstFault(pending[1..], fault)
  }

  /** One call: dry runs plan, diverged databases are rebuilt when that is safe, the rest is applied in order. */
  datatype Call = Call(dryRun: bool, rebuildSafe: bool, fault: nat -> Fault)

  function Start(db: Db, ms: seq<Migration>): Db {
    if RequiresRebuild(db, ms) then NEW_DB else Opened(db)
  }

  function After(db: Db, ms: seq<Migration>, call: Call): Db {
    if RequiresRebuild(db, ms) && (call.dryRun || !call.rebuildSafe) then Opened(db)
    else if call.dryRun then Start(db, ms)
    else Applied(Start(db, ms), Pending(ms, Versions(Start(db, ms).log)), call.fault)
  }

  /** What a call reports. */
  function OutcomeOf(db: Db, ms: seq<Migration>, call: Call): Outcome {
    var rebuild, pending := RequiresRebuild(db, ms), Pending(ms, Versions(Start(db, ms).log));
    if call.dryRun then Plan(if rebuild then ms else pending, true)
    else if rebuild && !call.rebuildSafe then RebuildRefused
    else
      var k := FirstFault(pending, call.fault);
      if k < |pending| then Outcome.Failed(pending[k]) else Plan(pending, false)
  }

  class Database {
    var db: Db

    constructor (db: Db)
      ensures this.db == db
    {
      this.db := db;
    }

    method ApplyPendingMigrations(ms: seq<Migration>, call: Call) returns (outcome: Outcome)
      modifies this
      ensures db == After(old(db), ms, call)
      ensures outcome == OutcomeOf(old(db), ms, call)
    {
      hide RequiresRebuild, Versions, MatchesPrefix, Pending, Applied, FirstFault;
      var rebuild := RequiresRebuild(db, ms);
      if rebuild {
        if call.dryRun {
          db := Opened(db);
          return Plan(ms, true);
        }
        if !call.rebuildSafe {
          db := Opened(db);
          return RebuildRefused;
        }
        db := Db(false, true, [], {}, {});
      }
      db := Opened(db);
      ghost var start := db;
      var pending := Pending(ms, Versions(db.log));
      NothingPending(db, call.fault);
      if call.dryRun || pending == [] {
        return Plan(pending, call.dryRun);
      }
      assert pending[0..] == pending;
      for i := 0 to |pending|
        invariant Applied(start, pending, call.fault) == Applied(db, pending[i..], call.fault)
        invariant FirstFault(pending, call.fault) == i + FirstFault(pending[i..], call.fault)
      {
        var m := pending[i];
        NextPending(db, pending, i, call.fault);
        match call.fault(m.version) {
          case ScriptFails => return Outcome.Failed(m);
          case HookFails =>
            db := Logged(db, m);
            return Outcome.Failed(m);
          case NoFault =>
            db := Logged(db, m);
            db := db.(hooked := db.hooked + {m.version});
        }
      }
      NothingPending(db, call.fault);
      assert pending[|pending|..] == [];
      return Plan(pending, false);
    }
  }

  lemma NothingPending(db: Db, fault: nat -> Fault)
    ensures Applied(db, [], fault) == db && FirstFault([], fault) == 0
  {
  }

  /** What is left of applying depends on the first pending migration. */
  lemma NextPending(db: Db, pending: seq<Migration>, i: nat, fault: nat -> Fault)
    requires i < |pending|
    ensures
      var m, now, later := pending[i], Applied(db, pending[i..], fault), pending[i + 1..];
      match fault(m.version)
      case ScriptFails => now == db && FirstFault(pending[i..], fault) == 0
      case HookFails => now == Logged(db, m) && FirstFault(pending[i..], fault) == 0
      case NoFault =>
        now == Applied(Finished(db, m), later, fault) && FirstFault(pending[i..], fault) == 1 + FirstFault(later, fault)
  {
    assert pending[i..][0] == pending[i] && pending[i..][1..] == pending[i + 1..];
  }

  // ----- resuming -----------------------------------------------------------------------

  predicate DistinctVersions(ms: seq<Migration>) {
    forall i, j :: 0 <= i < j < |ms| ==> ms[i].version != ms[j].version
  }

  lemma {:induction false} PendingWithoutApplied(ms: seq<Migration>, applied: set<nat>)
    requires forall i :: 0 <= i < |ms| ==> ms[i].version !in applied
    ensures Pending(ms, applied) == ms
  {
    if ms != [] {
      PendingWithoutApplied(ms[1..], applied);
    }
  }

  lemma {:induction false} PendingSkipsApplied(ms: seq<Migration>, applied: set<nat>, k: nat)
    requires k <= |ms| && forall i :: 0 <= i < k ==> ms[i].version in applied
    ensures Pending(ms, applied) == Pending(ms[k..], applied)
  {
    if k > 0 {
      PendingSkipsApplied(ms[1..], applied, k - 1);
      assert ms[1..][k - 1..] == ms[k..];
    }
  }

  /** After a prefix history, what is pending is exactly the rest. */
  lemma PendingIsTheRest(ms: seq<Migration>, log: seq<Row>)
    requires DistinctVersions(ms) && MatchesPrefix(log, ms)
    ensures Pending(ms, Versions(log)) == ms[|log|..]
  {
    var k, applied := |log|, Versions(log);
    forall i | 0 <= i < k ensures ms[i].version in applied {
      assert log[i].version == ms[i].version;
    }
    forall i | k <= i < |ms| ensures ms[i].version !in applied {
      forall j | 0 <= j < k ensures log[j].version != ms[i].version {
        assert log[j] == RowOf(ms[j]);
      }
    }
    PendingSkipsApplied(ms, applied, k);
    PendingWithoutApplied(ms[k..], applied);
  }

  /** How far applying gets: before a script that fails, after a hook that fails, or to the end. */
  function Stop(ms: seq<Migration>, k: nat, fault: nat -> Fault): (n: nat)
    requires k <= |ms|
    ensures k <= n <= |ms|
    ensures n == |ms| <==> forall i :: k <= i < |ms| ==>
      fault(ms[i].version) == NoFault || (i == |ms| - 1 && fault(ms[i].version) == HookFails)
    decreases |ms| - k
  {
    if k == |ms| then k
    else
      match fault(ms[k].version)
      case ScriptFails => k
      case HookFails => k + 1
      case NoFault => Stop(ms, k + 1, fault)
  }

  function CreatedBy(ms: seq<Migration>, k: nat): set<Table>
    requires k <= |ms|
  {
    if k == 0 then {SchemaMigrations} else CreatedBy(ms, k - 1) + ms[k - 1].creates
  }

  /** A database as its own scripts left it after the first k of them. */
  predicate AsScripted(db: Db, ms: seq<Migration>, k: nat) {
    db.present && db.readable && k <= |ms| && db.log == Rows(ms[..k]) && db.tables == CreatedBy(ms, k)
  }

  lemma LoggedKeepsPrefix(db: Db, ms: seq<Migration>, k: nat)
    requires k < |ms| && db.log == Rows(ms[..k])
    ensures Logged(db, ms[k]).log == Rows(ms[..k + 1])
  {
    assert Rows(ms[..k]) + [RowOf(ms[k])] == Rows(ms[..k + 1]);
  }

  /** Applying the rest of the list leaves the log a longer prefix, ending where the first fault stops it. */
  lemma {:induction false} AppliedKeepsPrefix(db: Db, ms: seq<Migration>, k: nat, fault: nat -> Fault)
    requires k <= |ms| && db.log == Rows(ms[..k])
    ensures Applied(db, ms[k..], fault).log == Rows(ms[..Stop(ms, k, fault)])
    ensures AsScripted(db, ms, k) ==> AsScripted(Applied(db, ms[k..], fault), ms, Stop(ms, k, fault))
    decreases |ms| - k
  {
    hide Rows;
    if k < |ms| {
      assert ms[k..][0] == ms[k] && ms[k..][1..] == ms[k + 1..];
      LoggedKeepsPrefix(db, ms, k);
      if fault(ms[k].version) == NoFault {
        AppliedKeepsPrefix(Finished(db, ms[k]), ms, k + 1, fault);
      }
    }
  }

  /**
    * Resuming: without a rebuild, a call reports and applies exactly the missing suffix. Every failure point leaves
    * a prefix that extends the old log, and the log is the whole list exactly when nothing failed on the way or
    * only the last hook did.
    */
  lemma ResumesWithTheRest(db: Db, ms: seq<Migration>, call: Call)
    requires DistinctVersions(ms) && !RequiresRebuild(db, ms) && !call.dryRun
    ensures
      var k := |Start(db, ms).log|;
      && MatchesPrefix(Start(db, ms).log, ms)
      && Pending(ms, Versions(Start(db, ms).log)) == ms[k..]
      && After(db, ms, call).log == Rows(ms[..Stop(ms, k, call.fault)])
      && After(db, ms, call).log[..k] == Start(db, ms).log
      && (After(db, ms, call).log == Rows(ms) <==> forall i :: k <= i < |ms| ==>
            call.fault(ms[i].version) == NoFault || (i == |ms| - 1 && call.fault(ms[i].version) == HookFails))
  {
    var start := Start(db, ms);
    var k := |start.log|;
    PendingIsTheRest(ms, start.log);
    AppliedKeepsPrefix(start, ms, k, call.fault);
    WholeListExactly(ms, Stop(ms, k, call.fault));
  }

  lemma WholeListExactly(ms: seq<Migration>, n: nat)
    requires n <= |ms|
    ensures Rows(ms[..n]) == Rows(ms) <==> n == |ms|
  {
    assert |Rows(ms[..n])| == n && |Rows(ms)| == |ms|;
    if n == |ms| {
      assert ms[..n] == ms;
    }
  }

  /**
    * The outcome tells the log: a call that reports success has logged the whole list, on any database, rebuilt
    * or not; and a failed call has logged the whole list only if the failure was the last hook.
    */
  lemma SuccessMeansComplete(db: Db, ms: seq<Migration>, call: Call)
    requires DistinctVersions(ms) && !call.dryRun
    ensures OutcomeOf(db, ms, call).Plan? ==> After(db, ms, call).log == Rows(ms)
    ensures OutcomeOf(db, ms, call).Failed? && After(db, ms, call).log == Rows(ms) ==>
      OutcomeOf(db, ms, call).migration == ms[|ms| - 1] && call.fault(ms[|ms| - 1].version) == HookFails
  {
    hide RequiresRebuild, Rows, Stop, FirstFault, Pending, Versions, Start, Applied;
    var start := Start(db, ms);
    StartMatches(db, ms);
    PendingIsTheRest(ms, start.log);
    var k := |start.log|;
    AppliedKeepsPrefix(start, ms, k, call.fault);
    WholeListExactly(ms, Stop(ms, k, call.fault));
    FaultStops(ms, k, call.fault);
  }

  /** Where applying stops is where the first fault is: before it, or just after it when it is a hook. */
  lemma FaultStops(ms: seq<Migration>, k: nat, fault: nat -> Fault)
    requires k <= |ms|
    ensures
      var f := k + FirstFault(ms[k..], fault);
      if f == |ms| then Stop(ms, k, fault) == |ms|
      else
        && ms[k..][f - k] == ms[f]
        && (Stop(ms, k, fault) == |ms| ==> f == |ms| - 1 && fault(ms[f].version) == HookFails)
  {
    hide Stop, FirstFault;
    var f := k + FirstFault(ms[k..], fault);
    assert forall i :: k <= i < f ==> ms[i] == ms[k..][i - k];
    if f < |ms| {
      assert ms[k..][f - k] == ms[f];
    }
  }

  lemma StartMatches(db: Db, ms: seq<Migration>)
    ensures MatchesPrefix(Start(db, ms).log, ms)
  {
    assert Rows(ms[..0]) == [];
  }

  /**
    * Documented to write nothing, a dry run leaves the database as it was exactly when it exists and, if it can be
    * read, already has its bookkeeping table.
    */
  lemma DryRunWritesNothingExactly(db: Db, ms: seq<Migration>, call: Call)
    requires call.dryRun
    ensures After(db, ms, call) == db <==> db.present && (db.readable ==> SchemaMigrations in db.tables)
  {
    assert SchemaMigrations in db.tables ==> db.tables + {SchemaMigrations} == db.tables;
    assert db.tables + {SchemaMigrations} == db.tables ==> SchemaMigrations in db.tables;
  }

  /** On a missing file it creates the database. */
  lemma DryRunCreatesDatabase(ms: seq<Migration>, call: Call)
    requires call.dryRun
    ensures After(Db(false, true, [], {}, {}), ms, call) == NEW_DB
  {
  }

  /** The log never stops being a prefix of the bundled list, whatever fails, rebuilds included. */
  lemma LogStaysPrefix(db: Db, ms: seq<Migration>, call: Call)
    requires DistinctVersions(ms) && db.present && db.readable && MatchesPrefix(db.log, ms)
    ensures MatchesPrefix(After(db, ms, call).log, ms)
    ensures After(db, ms, call).present && After(db, ms, call).readable
  {
    var start := Start(db, ms);
    PendingIsTheRest(ms, start.log);
    AppliedKeepsPrefix(start, ms, |start.log|, call.fault);
    AppliedStaysReadable(start, ms[|start.log|..], call.fault);
  }

  lemma {:induction false} AppliedStaysReadable(db: Db, pending: seq<Migration>, fault: nat -> Fault)
    ensures Applied(db, pending, fault).present == db.present && Applied(db, pending, fault).readable == db.readable
    decreases |pending|
  {
    if pending != [] && fault(pending[0].version) == NoFault {
      AppliedStaysReadable(Finished(db, pending[0]), pending[1..], fault);
    }
  }

  /** A prefix of a list with distinct versions logs no version twice. */
  lemma LoggedOnce(log: seq<Row>, ms: seq<Migration>, i: nat, j: nat)
    requires DistinctVersions(ms) && MatchesPrefix(log, ms) && i < j < |log|
    ensures log[i].version != log[j].version
  {
    assert log[i] == RowOf(ms[i]) && log[j] == RowOf(ms[j]);
  }

  /** A hook that fails after its migration committed is not run by any later call that does not rebuild. */
  lemma {:induction false} AppliedHooks(db: Db, pending: seq<Migration>, fault: nat -> Fault, version: nat)
    requires forall i :: 0 <= i < |pending| ==> pending[i].version != version
    ensures version in Applied(db, pending, fault).hooked <==> version in db.hooked
    decreases |pending|
  {
    if pending != [] && fault(pending[0].version) == NoFault {
      AppliedHooks(Finished(db, pending[0]), pending[1..], fault, version);
    }
  }

  lemma LoggedHooksAreFinal(db: Db, ms: seq<Migration>, call: Call, i: nat)
    requires DistinctVersions(ms) && db.present && !RequiresRebuild(db, ms)
    requires i < |db.log|
    ensures db.log[i].version in After(db, ms, call).hooked <==> db.log[i].version in db.hooked
  {
    var start := Start(db, ms);
    PendingIsTheRest(ms, start.log);
    assert db.log[i] == RowOf(ms[i]);
    AppliedHooks(start, ms[|db.log|..], call.fault, db.log[i].version);
  }

  /** Of the migrations a call logs, exactly the one whose hook failed is left without its hook. */
  lemma {:induction false} HooksFollowScripts(db: Db, ms: seq<Migration>, k: nat, fault: nat -> Fault, i: nat)
    requires DistinctVersions(ms) && k <= i < |ms| && i < Stop(ms, k, fault) && ms[i].version !in db.hooked
    ensures ms[i].version in Applied(db, ms[k..], fault).hooked <==> fault(ms[i].version) == NoFault
    decreases |ms| - k
  {
    assert ms[k..][0] == ms[k] && ms[k..][1..] == ms[k + 1..];
    if fault(ms[k].version) == NoFault {
      if k < i {
        HooksFollowScripts(Finished(db, ms[k]), ms, k + 1, fault, i);
      } else {
        AppliedHooks(Finished(db, ms[k]), ms[k + 1..], fault, ms[k].version);
      }
    }
  }

  /** A dry run announces exactly the migrations that a call which nothing stops would go on to log. */
  lemma DryRunAnnouncesTheCall(db: Db, ms: seq<Migration>, dry: Call, call: Call)
    requires DistinctVersions(ms) && dry.dryRun && !call.dryRun && call.rebuildSafe
    requires forall v :: call.fault(v) == NoFault
    ensures
      var plan := OutcomeOf(db, ms, dry);
      && plan.Plan? && plan.dryRun
      && OutcomeOf(db, ms, call) == Plan(plan.pending, false)
      && After(db, ms, call).log == (if RequiresRebuild(db, ms) then [] else Start(db, ms).log) + Rows(plan.pending)
  {
    hide RequiresRebuild, Pending, Versions, Applied;
    var start := Start(db, ms);
    var k := |start.log|;
    StartMatches(db, ms);
    PendingIsTheRest(ms, start.log);
    AppliedKeepsPrefix(start, ms, k, call.fault);
    SuccessMeansComplete(db, ms, call);
    assert Rows(ms) == Rows(ms[..k]) + Rows(ms[k..]);
  }

  // ----- the bundled migrations ---------------------------------------------------------

  const BUNDLED: seq<Migration> := [
    Migration(1, "0001_initial.sql", BASELINE - {SchemaMigrations, TaskAuditLog}),
    Migration(2, "0002_task_audit_log.sql", {TaskAuditLog}),
    Migration(3, "0003_stage_reports_pipeline_state.sql", {}),
    Migration(4, "0004_recovery_reports.sql", {RecoveryReports}),
    Migration(5, "0005_task_intent.sql", {TaskIntent}),
    Migration(6, "0006_runtime_settings.sql", {RuntimeSettings, RuntimeSettingsAuditLog}),
    Migration(7, "0007_task_metadata_and_process_state.sql", {RuntimeProcessState}),
    Migration(8, "0008_remove_pipeline_session_turn_metric.sql", {}),
    Migration(9, "0009_attention_log.sql", {AttentionLog}),
    Migration(10, "0010_subagent_id_counters.sql", {SubagentIdCounters})]

  lemma BundledVersions()
    ensures |BUNDLED| == 10
    ensures forall i :: 0 <= i < |BUNDLED| ==> BUNDLED[i].version == i + 1
    ensures forall i :: 0 <= i < |BUNDLED| ==> RequiredBy(BUNDLED[i].version) <= BUNDLED[i].creates
    ensures BUNDLED[0].creates == BASELINE - {SchemaMigrations, TaskAuditLog} && BUNDLED[1].creates == {TaskAuditLog}
  {}

  lemma {:induction false} CreatedSoFar(k: nat)
    requires k <= |BUNDLED|
    ensures k <= 1 ==> TaskAuditLog !in CreatedBy(BUNDLED, k)
    ensures k >= 2 ==> BASELINE <= CreatedBy(BUNDLED, k)
    ensures forall i :: 0 <= i < k ==> RequiredBy(BUNDLED[i].version) <= CreatedBy(BUNDLED, k)
  {
    BundledVersions();
    hide RequiredBy;
    if k > 0 {
      CreatedSoFar(k - 1);
      if k == 2 {
        assert CreatedBy(BUNDLED, 1) == CreatedBy(BUNDLED, 0) + BUNDLED[0].creates;
      }
    }
  }

  /** A database the scripts built is resumed in place except in one position: after the first migration alone. */
  lemma RebuildsExactlyAfterFirst(db: Db, k: nat)
    requires AsScripted(db, BUNDLED, k)
    ensures RequiresRebuild(db, BUNDLED) <==> k == 1
  {
    BundledVersions();
    CreatedSoFar(k);
    forall i | 0 <= i < k ensures db.log[i].version == BUNDLED[i].version {
      assert db.log[i] == RowOf(BUNDLED[..k][i]);
    }
    assert Opened(db).tables == db.tables;
  }

  function Run(db: Db, ms: seq<Migration>, calls: seq<Call>): Db {
    if calls == [] then db else After(Run(db, ms, calls[..|calls| - 1]), ms, calls[|calls| - 1])
  }

  /**
    * From a new database, over any calls with any faults: the database is always what some prefix of the bundled
    * scripts leaves, and a call asks for a rebuild exactly when that prefix is the first migration alone.
    */
  lemma {:induction false} BundledRuns(calls: seq<Call>) returns (k: nat)
    ensures AsScripted(Run(NEW_DB, BUNDLED, calls), BUNDLED, k)
    ensures RequiresRebuild(Run(NEW_DB, BUNDLED, calls), BUNDLED) <==> k == 1
  {
    BundledVersions();
    assert AsScripted(NEW_DB, BUNDLED, 0);
    hide BUNDLED, CreatedBy, RequiresRebuild;
    if calls == [] {
      k := 0;
    } else {
      var n := |calls| - 1;
      var j := BundledRuns(calls[..n]);
      k := BundledStep(Run(NEW_DB, BUNDLED, calls[..n]), j, calls[n]);
    }
    RebuildsExactlyAfterFirst(Run(NEW_DB, BUNDLED, calls), k);
  }

  lemma BundledStep(db: Db, j: nat, call: Call) returns (k: nat)
    requires AsScripted(db, BUNDLED, j)
    ensures AsScripted(After(db, BUNDLED, call), BUNDLED, k)
    ensures RequiresRebuild(db, BUNDLED) || j <= k
  {
    var start := Start(db, BUNDLED);
    BundledVersions();
    var i := if RequiresRebuild(db, BUNDLED) then 0 else j;
    CreatedStart(j);
    assert Opened(db) == db;
    assert AsScripted(NEW_DB, BUNDLED, 0);
    assert start.log == Rows(BUNDLED[..i]);
    hide BUNDLED, CreatedBy, RequiresRebuild;
    PendingIsTheRest(BUNDLED, start.log);
    AppliedKeepsPrefix(start, BUNDLED, i, call.fault);
    if RequiresRebuild(db, BUNDLED) && (call.dryRun || !call.rebuildSafe) {
      k := j;
    } else if call.dryRun {
      k := i;
    } else {
      k := Stop(BUNDLED, i, call.fault);
    }
  }

  lemma {:induction false} CreatedStart(k: nat)
    requires k <= |BUNDLED|
    ensures SchemaMigrations in CreatedBy(BUNDLED, k)
  {
    if k > 0 { CreatedStart(k - 1); }
  }

  // ----- a failed hook ------------------------------------------------------------------

  lemma {:induction false} FaultyHookIsNotDone(db: Db, pending: seq<Migration>, fault: nat -> Fault, version: nat)
    requires version !in db.hooked && fault(version) != NoFault
    ensures version !in Applied(db, pending, fault).hooked
    decreases |pending|
  {
    if pending != [] && fault(pending[0].version) == NoFault {
      FaultyHookIsNotDone(Finished(db, pending[0]), pending[1..], fault, version);
    }
  }

  /** Past the first two migrations nothing is rebuilt, so a logged migration whose hook is undone stays that way. */
  lemma {:induction false} UndoneHookStaysUndone(db: Db, k: nat, i: nat, calls: seq<Call>) returns (n: nat)
    requires AsScripted(db, BUNDLED, k) && k >= 2
    requires i < k && BUNDLED[i].version !in db.hooked
    ensures k <= n && AsScripted(Run(db, BUNDLED, calls), BUNDLED, n)
    ensures BUNDLED[i].version !in Run(db, BUNDLED, calls).hooked
  {
    BundledVersions();
    hide BUNDLED, CreatedBy, RequiresRebuild;
    n := k;
    if calls != [] {
      var before, call := calls[..|calls| - 1], calls[|calls| - 1];
      var j := UndoneHookStaysUndone(db, k, i, before);
      var now := Run(db, BUNDLED, before);
      RebuildsExactlyAfterFirst(now, j);
      n := BundledStep(now, j, call);
      assert now.log[i] == RowOf(BUNDLED[..j][i]);
      LoggedHooksAreFinal(now, BUNDLED, call, i);
    }
  }

  /** Only migration 7 has a data hook; here it fails after its script has committed. */
  const SEVENTH_HOOK_FAILS: Call := Call(false, true, version => if version == 7 then HookFails else NoFault)

  /** The failing input: on a new database that call logs migration 7, and no later calls ever complete its hook. */
  lemma FailedHookIsNeverRetried(calls: seq<Call>)
    ensures
      var db := Run(After(NEW_DB, BUNDLED, SEVENTH_HOOK_FAILS), BUNDLED, calls);
      7 in Versions(db.log) && 7 !in db.hooked
  {
    BundledVersions();
    assert AsScripted(NEW_DB, BUNDLED, 0);
    hide CreatedBy, RequiresRebuild, BUNDLED, AsScripted;
    var db, fault := After(NEW_DB, BUNDLED, SEVENTH_HOOK_FAILS), SEVENTH_HOOK_FAILS.fault;
    FirstCall(SEVENTH_HOOK_FAILS);
    assert BUNDLED[0..] == BUNDLED && Rows(BUNDLED[..0]) == [];
    hide After;
    AppliedKeepsPrefix(NEW_DB, BUNDLED, 0, fault);
    FaultyHookIsNotDone(NEW_DB, BUNDLED, fault, 7);
    StopAtSeven(0);
    var n := UndoneHookStaysUndone(db, 7, 6, calls);
    SeventhIsLogged(Run(db, BUNDLED, calls), n);
  }

  lemma FirstCall(call: Call)
    requires !call.dryRun
    ensures After(NEW_DB, BUNDLED, call) == Applied(NEW_DB, BUNDLED, call.fault)
  {
    BundledVersions();
    assert AsScripted(NEW_DB, BUNDLED, 0);
    RebuildsExactlyAfterFirst(NEW_DB, 0);
    hide CreatedBy, RequiresRebuild, BUNDLED;
    assert Opened(NEW_DB) == NEW_DB;
    assert BUNDLED[0..] == BUNDLED;
    PendingIsTheRest(BUNDLED, []);
  }

  lemma SeventhIsLogged(db: Db, n: nat)
    requires AsScripted(db, BUNDLED, n) && n >= 7
    ensures 7 in Versions(db.log)
  {
    BundledVersions();
    hide BUNDLED;
    assert db.log[6] == RowOf(BUNDLED[..n][6]);
    assert db.log[6].version in Versions(db.log);
  }

  lemma {:induction false} StopAtSeven(k: nat)
    requires k <= 6 && |BUNDLED| == 10 && forall i :: 0 <= i < |BUNDLED| ==> BUNDLED[i].version == i + 1
    ensures Stop(BUNDLED, k, SEVENTH_HOOK_FAILS.fault) == 7
    decreases 6 - k
  {
    hide BUNDLED;
    if k < 6 {
      StopAtSeven(k + 1);
    }
  }

  // ----- which tables must be there -----------------------------------------------------

  /** The migration that brings a table in later than the baseline. */
  function IntroducedBy(x: Table): Option<nat> {
    match x
    case RecoveryReports => Some(4)
    case TaskIntent => Some(5)
    case RuntimeSettings | RuntimeSettingsAuditLog => Some(6)
    case RuntimeProcessState => Some(7)
    case AttentionLog => Some(9)
    case SubagentIdCounters => Some(10)
    case _ => None
  }

  lemma RequiredTables(x: Table, version: nat)
    ensures x in BASELINE <==> IntroducedBy(x) == None
    ensures x in RequiredBy(version) <==> IntroducedBy(x) == Some(version)
  {
  }

  /** A table the log calls for: one of the baseline, or one a logged version introduced. */
  predicate CalledFor(x: Table, log: seq<Row>) {
    match IntroducedBy(x)
    case None => true
    case Some(version) => exists i :: 0 <= i < |log| && log[i].version == version
  }

  /**
    * A database is rebuilt exactly when its file cannot be read, its log is no prefix of the bundled list, or the log
    * is not empty and calls for a table that is missing, the bookkeeping table aside.
    */
  lemma RebuiltExactlyWhenBroken(db: Db, ms: seq<Migration>)
    requires db.present
    ensures RequiresRebuild(db, ms) <==>
      || !db.readable
      || !(db.log <= Rows(ms))
      || (db.log != [] && exists x :: CalledFor(x, db.log) && x !in db.tables && x != SchemaMigrations)
  {
    hide BASELINE, RequiredBy, Rows;
    PrefixOfRows(db.log, ms);
    if db.readable && db.log <= Rows(ms) && db.log != [] {
      if !HasRequiredTables(Opened(db).tables, db.log) {
        MissingTable(db);
      }
      forall x | CalledFor(x, db.log) && x !in db.tables && x != SchemaMigrations
        ensures !HasRequiredTables(Opened(db).tables, db.log)
      {
        TableIsMissing(db, x);
      }
    }
  }

  lemma PrefixOfRows(log: seq<Row>, ms: seq<Migration>)
    ensures MatchesPrefix(log, ms) <==> log <= Rows(ms)
  {
    if |log| <= |ms| {
      assert Rows(ms[..|log|]) == Rows(ms)[..|log|];
    }
  }

  lemma MissingTable(db: Db)
    requires db.present && db.readable && !HasRequiredTables(Opened(db).tables, db.log)
    ensures exists x :: CalledFor(x, db.log) && x !in db.tables && x != SchemaMigrations
  {
    hide BASELINE, RequiredBy;
    var tables := Opened(db).tables;
    if !(BASELINE <= tables) {
      var x :| x in BASELINE && x !in tables;
      RequiredTables(x, 0);
      assert CalledFor(x, db.log);
    } else {
      var i :| 0 <= i < |db.log| && !(RequiredBy(db.log[i].version) <= tables);
      var x :| x in RequiredBy(db.log[i].version) && x !in tables;
      RequiredTables(x, db.log[i].version);
      assert CalledFor(x, db.log);
    }
  }

  lemma TableIsMissing(db: Db, x: Table)
    requires db.present && db.readable && CalledFor(x, db.log) && x !in db.tables && x != SchemaMigrations
    ensures !HasRequiredTables(Opened(db).tables, db.log)
  {
    hide BASELINE, RequiredBy;
    match IntroducedBy(x)
    case None => RequiredTables(x, 0);
    case Some(version) =>
      var i :| 0 <= i < |db.log| && db.log[i].version == version;
      RequiredTables(x, version);
  }

  /** A refused rebuild loses nothing, and an allowed one starts over from an empty log. */
  lemma RebuildKeepsOrStartsOver(db: Db, ms: seq<Migration>, call: Call)
    requires DistinctVersions(ms) && RequiresRebuild(db, ms) && !call.dryRun
    ensures !call.rebuildSafe ==>
      && After(db, ms, call).log == db.log && After(db, ms, call).hooked == db.hooked
      && db.tables <= After(db, ms, call).tables
    ensures call.rebuildSafe ==> After(db, ms, call).log == Rows(ms[..Stop(ms, 0, call.fault)])
  {
    hide Stop;
    assert Rows(ms[..0]) == [] && ms[0..] == ms;
    PendingIsTheRest(ms, []);
    AppliedKeepsPrefix(NEW_DB, ms, 0, call.fault);
  }
}
