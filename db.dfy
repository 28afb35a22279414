/** The embedded database wrapper (MyDB): its configuration read from JSON,
    the Init ladder that opens the connection, the pragmas it applies, the
    guarded Exec and Transaction, the schema migration and Close.

    SQLite itself and the filesystem are outside the model. The connection
    is represented by the log of statements handed to `sqlite3_exec`, and
    what SQLite answers is an `Engine`: for the n-th statement sent over
    the connection, either nothing (SQLITE_OK) or the error message. */
module Db {
  import opened Wrappers
  import opened Json

  /** DBConfig, member by member. */
  datatype DbConfig = DbConfig(
    enable: bool,
    dbType: string,
    path: string,
    busyTimeoutMs: Int32,
    wal: bool,
    synchronous: string,
    autoMigrate: bool,
    statusSnapshotEnable: bool,
    statusSnapshotIntervalMs: Int32)

  /** The member initialisers of DBConfig. */
  const Defaults: DbConfig :=
    DbConfig(true, "sqlite", "/var/fast_cpp_server/data/edge.db", 3000, true, "NORMAL", true, true, 5000)

  /** Every key FromJson reads holds a value of the type its member needs
      (or is absent), so no `value(key, default)` throws. */
  predicate Typed(f: map<string, Json>)
  {
    && ("enable" in f ==> f["enable"].Bool?)
    && ("type" in f ==> f["type"].Str?)
    && ("path" in f ==> f["path"].Str?)
    && ("busy_timeout_ms" in f ==> AsNumber(f["busy_timeout_ms"]).Some?)
    && ("wal" in f ==> f["wal"].Bool?)
    && ("synchronous" in f ==> f["synchronous"].Str?)
    && ("auto_migrate" in f ==> f["auto_migrate"].Bool?)
    && ("status_snapshot_enable" in f ==> f["status_snapshot_enable"].Bool?)
    && ("status_snapshot_interval_ms" in f ==> AsNumber(f["status_snapshot_interval_ms"]).Some?)
  }

  /** `c` holds the value of every key present in `f` and the default of
      every key absent from it. */
  predicate Overrides(f: map<string, Json>, c: DbConfig)
    requires Typed(f)
  {
    && c.enable == (if "enable" in f then f["enable"].b else Defaults.enable)
    && c.dbType == (if "type" in f then f["type"].s else Defaults.dbType)
    && c.path == (if "path" in f then f["path"].s else Defaults.path)
    && c.busyTimeoutMs == (if "busy_timeout_ms" in f then Wrap32(AsNumber(f["busy_timeout_ms"]).value) else Defaults.busyTimeoutMs)
    && c.wal == (if "wal" in f then f["wal"].b else Defaults.wal)
    && c.synchronous == (if "synchronous" in f then f["synchronous"].s else Defaults.synchronous)
    && c.autoMigrate == (if "auto_migrate" in f then f["auto_migrate"].b else Defaults.autoMigrate)
    && c.statusSnapshotEnable == (if "status_snapshot_enable" in f then f["status_snapshot_enable"].b else Defaults.statusSnapshotEnable)
    && c.statusSnapshotIntervalMs == (if "status_snapshot_interval_ms" in f then Wrap32(AsNumber(f["status_snapshot_interval_ms"]).value)
                                      else Defaults.statusSnapshotIntervalMs)
  }

  /** DBConfig::FromJson: the defaults for anything but an object; otherwise
      every key present overrides its member, and a value of the wrong type
      throws `type_error` (the first such key, in reading order). */
  function FromJson(j: Json): (r: Result<DbConfig, TypeError>)
    ensures !j.Obj? ==> r == Success(Defaults)
    ensures j.Obj? ==> (r.Success? <==> Typed(j.fields))
    ensures j.Obj? && r.Success? ==> Overrides(j.fields, r.value)
  {
    if !j.Obj? then Success(Defaults)
    else
      var enable := ValueBool(j, "enable", Defaults.enable);
      var dbType := ValueString(j, "type", Defaults.dbType);
      var path := ValueString(j, "path", Defaults.path);
      var busy := ValueInt(j, "busy_timeout_ms", Defaults.busyTimeoutMs);
      var wal := ValueBool(j, "wal", Defaults.wal);
      var sync := ValueString(j, "synchronous", Defaults.synchronous);
      var migrate := ValueBool(j, "auto_migrate", Defaults.autoMigrate);
      var snapshot := ValueBool(j, "status_snapshot_enable", Defaults.statusSnapshotEnable);
      var interval := ValueInt(j, "status_snapshot_interval_ms", Defaults.statusSnapshotIntervalMs);
      if enable.Failure? then Failure(enable.error)
      else if dbType.Failure? then Failure(dbType.error)
      else if path.Failure? then Failure(path.error)
      else if busy.Failure? then Failure(busy.error)
      else if wal.Failure? then Failure(wal.error)
      else if sync.Failure? then Failure(sync.error)
      else if migrate.Failure? then Failure(migrate.error)
      else if snapshot.Failure? then Failure(snapshot.error)
      else if interval.Failure? then Failure(interval.error)
      else Success(DbConfig(enable.value, dbType.value, path.value, busy.value, wal.value, sync.value,
                            migrate.value, snapshot.value, interval.value))
  }

  /** A configuration written out with one key per member. */
  function ConfigObject(c: DbConfig): Json
  {
    Obj(map[
      "enable" := Bool(c.enable),
      "type" := Str(c.dbType),
      "path" := Str(c.path),
      "busy_timeout_ms" := Int(c.busyTimeoutMs),
      "wal" := Bool(c.wal),
      "synchronous" := Str(c.synchronous),
      "auto_migrate" := Bool(c.autoMigrate),
      "status_snapshot_enable" := Bool(c.statusSnapshotEnable),
      "status_snapshot_interval_ms" := Int(c.statusSnapshotIntervalMs)])
  }

  /** Every configuration is read back from its own object. */
  lemma FromJsonReadsBack(c: DbConfig)
    ensures FromJson(ConfigObject(c)) == Success(c)
  {
    var f := ConfigObject(c).fields;
    assert Typed(f);
    assert Overrides(f, FromJson(ConfigObject(c)).value);
  }

  /** An empty object reads as the defaults. */
  lemma FromJsonEmptyIsDefaults()
    ensures FromJson(Obj(map[])) == Success(Defaults)
  {
  }

  /** The synchronous levels SQLite is asked for. */
  predicate KnownSync(s: string)
  {
    s == "OFF" || s == "NORMAL" || s == "FULL"
  }

  /** ApplyPragmasLocked's synchronous level: a known level is kept, any
      other falls back to NORMAL. */
  function SyncMode(s: string): (m: string)
    ensures KnownSync(m)
    ensures m == s <==> KnownSync(s)
    ensures !KnownSync(s) ==> m == "NORMAL"
  {
    if KnownSync(s) then s else "NORMAL"
  }

  const BeginSql := "BEGIN IMMEDIATE;"
  const CommitSql := "COMMIT;"
  const RollbackSql := "ROLLBACK;"
  const NotInitialized := "db not initialized"
  const Aborted := "transaction aborted"
  const UnknownException := "unknown exception"

  function UnsupportedType(t: string): string
  {
    "unsupported db.type=" + t + " (only sqlite supported)"
  }

  /** The pragmas ApplyPragmasLocked sends, in order. */
  function Pragmas(c: DbConfig): seq<string>
  {
    [ if c.wal then "PRAGMA journal_mode=WAL;" else "PRAGMA journal_mode=DELETE;",
      "PRAGMA synchronous=" + SyncMode(c.synchronous) + ";",
      "PRAGMA foreign_keys=ON;" ]
  }

  /** The statements the migration transaction runs. The column lists of
      the four CREATE TABLE statements are elided. */
  const InsertVersion := "INSERT INTO schema_version(version) SELECT 1 WHERE NOT EXISTS (SELECT 1 FROM schema_version);"
  const CreateTasks := "CREATE TABLE IF NOT EXISTS tasks (...);"
  const IndexTasksDevice := "CREATE INDEX IF NOT EXISTS idx_tasks_device_created ON tasks(device_id, created_at_ms);"
  const IndexTasksCommand := "CREATE INDEX IF NOT EXISTS idx_tasks_command_id ON tasks(command_id);"
  const CreateTaskResults := "CREATE TABLE IF NOT EXISTS task_results (...);"
  const CreateDeviceSnapshots := "CREATE TABLE IF NOT EXISTS device_status_snapshots (...);"
  const IndexDeviceSnapshots := "CREATE INDEX IF NOT EXISTS idx_dev_status_device_ts ON device_status_snapshots(device_id, ts_ms);"
  const CreateEdgeSnapshots := "CREATE TABLE IF NOT EXISTS edge_status_snapshots (...);"
  const IndexEdgeSnapshots := "CREATE INDEX IF NOT EXISTS idx_edge_status_edge_ts ON edge_status_snapshots(edge_id, ts_ms);"
  const SchemaVersionSql := "CREATE TABLE IF NOT EXISTS schema_version (version INTEGER NOT NULL);"

  /** The migration transaction's statements, in order. */
  const MigrationSteps: seq<string> := [InsertVersion, CreateTasks, IndexTasksDevice, IndexTasksCommand, CreateTaskResults, CreateDeviceSnapshots, IndexDeviceSnapshots, CreateEdgeSnapshots, IndexEdgeSnapshots]

  /** What SQLite answers: the error message for each statement, numbered
      from 0 over the connection's life, that it refuses. */
  datatype Engine = Engine(refusals: map<nat, string>)

  /** SQLite's answer to the n-th statement: None for SQLITE_OK. */
  function Answer(e: Engine, n: nat): Option<string>
  {
    if n in e.refusals then Some(e.refusals[n]) else None
  }

  /** The connection's log after a chain of
      `if (!ExecLocked(...)) return false;`, and the error, if any. */
  datatype Outcome = Outcome(log: seq<string>, error: Option<string>)

  /** A chain of statements run after `log`: each is sent in turn, and the
      first one refused ends the chain with its error. */
  function Run(e: Engine, log: seq<string>, stmts: seq<string>): (o: Outcome)
    decreases |stmts|
    ensures |log| <= |o.log| <= |log| + |stmts| && o.log == log + stmts[..|o.log| - |log|]
    ensures o.error.None? ==> o.log == log + stmts && forall i :: |log| <= i < |log| + |stmts| ==> Answer(e, i).None?
    ensures o.error.Some? ==>
              && |log| < |o.log|
              && o.error == Answer(e, |o.log| - 1)
              && forall i :: |log| <= i < |o.log| - 1 ==> Answer(e, i).None?
  {
    if stmts == [] then Outcome(log, None)
    else if Answer(e, |log|).Some? then Outcome(log + [stmts[0]], Answer(e, |log|))
    else
      var o := Run(e, log + [stmts[0]], stmts[1..]);
      assert log + [stmts[0]] + stmts[1..][..|o.log| - |log| - 1] == log + stmts[..|o.log| - |log|];
      o
  }

  /** What the transaction callback does when it does not go through the
      connection: it returns a verdict (having possibly written an error),
      throws a std::exception, or throws something else. */
  datatype FnOutcome = Returned(ok: bool, err: string) | Threw(what: string) | ThrewOther

  /** The callback of a transaction: a chain of statements on the
      connection (the migration), or code whose outcome is given. */
  datatype Body = Script(stmts: seq<string>) | Opaque(outcome: FnOutcome)

  /** The log after the callback, its verdict and the error it leaves in
      `fn_err`. */
  datatype Verdict = Verdict(log: seq<string>, ok: bool, err: string)

  /** Runs the callback after `log`. */
  function Call(e: Engine, log: seq<string>, body: Body): (v: Verdict)
  {
    match body
    case Script(stmts) =>
      var o := Run(e, log, stmts);
      Verdict(o.log, o.error.None?, if o.error.Some? then o.error.value else "")
    case Opaque(Returned(ok, err)) => Verdict(log, ok, err)
    case Opaque(Threw(what)) => Verdict(log, false, what)
    case Opaque(ThrewOther) => Verdict(log, false, UnknownException)
  }

  /** The log after a transaction, its answer and its error. */
  datatype TxOutcome = TxOutcome(log: seq<string>, ok: bool, err: Option<string>)

  /** TransactionLocked after `log`: BEGIN IMMEDIATE, the callback, then
      COMMIT when the callback succeeded (ROLLBACK if the commit is
      refused) or ROLLBACK when it did not. */
  function Tx(e: Engine, log: seq<string>, body: Body): (t: TxOutcome)
  {
    if Answer(e, |log|).Some? then TxOutcome(log + [BeginSql], false, Answer(e, |log|))
    else
      var v := Call(e, log + [BeginSql], body);
      if !v.ok then TxOutcome(v.log + [RollbackSql], false, Some(if v.err == "" then Aborted else v.err))
      else if Answer(e, |v.log|).Some? then TxOutcome(v.log + [CommitSql] + [RollbackSql], false, Answer(e, |v.log|))
      else TxOutcome(v.log + [CommitSql], true, None)
  }

  /** A transaction succeeds exactly when BEGIN is accepted, the callback
      succeeds and COMMIT is accepted; it then ends with COMMIT. Any other
      transaction that got past BEGIN ends with ROLLBACK, and a failed
      callback reports its own error, or "transaction aborted" when it left
      none. */
  lemma {:induction false} TxCommitsOnlyOnSuccess(e: Engine, log: seq<string>, body: Body)
    ensures var t := Tx(e, log, body);
            var v := Call(e, log + [BeginSql], body);
            && |log| < |t.log| && t.log[..|log| + 1] == log + [BeginSql]
            && (t.ok <==> Answer(e, |log|).None? && v.ok && Answer(e, |v.log|).None?)
            && (t.ok ==> t.log[|t.log| - 1] == CommitSql && t.err.None?)
            && (!t.ok ==> t.err.Some?)
            && (Answer(e, |log|).None? && !t.ok ==> t.log[|t.log| - 1] == RollbackSql)
            && (Answer(e, |log|).None? && !v.ok ==> t.err == Some(if v.err == "" then Aborted else v.err))
  {
    var t := Tx(e, log, body);
    var v := Call(e, log + [BeginSql], body);
    if Answer(e, |log|).None? {
      assert |log| + 1 <= |v.log| && v.log[..|log| + 1] == log + [BeginSql] by {
        if body.Script? {
          assert v.log == log + [BeginSql] + body.stmts[..|v.log| - |log| - 1];
        }
      }
      assert t.log[..|log| + 1] == v.log[..|log| + 1];
    }
  }

  /** A migration whose statements are all accepted commits, having sent
      every step between BEGIN and COMMIT. */
  lemma {:induction false} MigrationCommitsWhenAccepted(e: Engine, log: seq<string>)
    requires forall i :: |log| <= i <= |log| + 1 + |MigrationSteps| ==> Answer(e, i).None?
    ensures Tx(e, log, Script(MigrationSteps)) == TxOutcome(log + [BeginSql] + MigrationSteps + [CommitSql], true, None)
  {
    var o := Run(e, log + [BeginSql], MigrationSteps);
    if o.error.Some? {
      assert false;
    }
  }

  /** A refused migration step rolls the transaction back with that step's
      error, and the steps after it are not sent. */
  lemma {:induction false} MigrationStopsAtRefusal(e: Engine, log: seq<string>, k: nat, msg: string)
    requires k < |MigrationSteps|
    requires forall i :: |log| <= i <= |log| + k ==> Answer(e, i).None?
    requires Answer(e, |log| + 1 + k) == Some(msg) && msg != ""
    ensures Tx(e, log, Script(MigrationSteps)) == TxOutcome(log + [BeginSql] + MigrationSteps[..k + 1] + [RollbackSql], false, Some(msg))
  {
    var o := Run(e, log + [BeginSql], MigrationSteps);
    if o.error.None? || |o.log| != |log| + k + 2 {
      assert false;
    }
  }

  /** The process-wide database: its configuration, whether Init succeeded,
      whether a connection is open, and the statements sent over it. */
  class Database {
    var cfg: DbConfig
    var initialized: bool
    var open: bool
    var sent: seq<string>

    /** A connection is open exactly when Init succeeded, and Init only
        succeeds with an enabled SQLite configuration. */
    ghost predicate Valid()
      reads this
    {
      && open == initialized
      && (initialized ==> cfg.enable && cfg.dbType == "sqlite")
    }

    constructor ()
      ensures Valid() && cfg == Defaults && !initialized && sent == []
    {
      cfg := Defaults;
      initialized := false;
      open := false;
      sent := [];
    }

    /** ExecLocked: the statement is sent, and SQLite's error, if any, is
        the answer. */
    method ExecLocked(sql: string, e: Engine) returns (err: Option<string>)
      requires open
      modifies this
      ensures sent == old(sent) + [sql] && err == Answer(e, |old(sent)|)
      ensures cfg == old(cfg) && initialized == old(initialized) && open
    {
      err := Answer(e, |sent|);
      sent := sent + [sql];
    }

    /** A chain of `if (!ExecLocked(...)) return false;`, as in
        ApplyPragmasLocked and the migration callback. */
    method RunLocked(stmts: seq<string>, e: Engine) returns (err: Option<string>)
      requires open
      modifies this
      ensures sent == Run(e, old(sent), stmts).log && err == Run(e, old(sent), stmts).error
      ensures cfg == old(cfg) && initialized == old(initialized) && open
    {
      var i := 0;
      while i < |stmts|
        invariant 0 <= i <= |stmts| && open
        invariant cfg == old(cfg) && initialized == old(initialized)
        invariant Run(e, old(sent), stmts) == Run(e, sent, stmts[i..])
        decreases |stmts| - i
      {
        assert stmts[i..][1..] == stmts[i + 1..];
        err := ExecLocked(stmts[i], e);
        if err.Some? {
          return;
        }
        i := i + 1;
      }
      err := None;
    }

    /** The transaction callback: the migration's chain of statements, or
        code whose outcome is given (an exception becomes `false` with its
        message, or "unknown exception"). */
    method CallLocked(body: Body, e: Engine) returns (fnOk: bool, fnErr: string)
      requires open
      modifies this
      ensures sent == Call(e, old(sent), body).log
      ensures fnOk == Call(e, old(sent), body).ok && fnErr == Call(e, old(sent), body).err
      ensures cfg == old(cfg) && initialized == old(initialized) && open
    {
      match body {
        case Script(stmts) =>
          var r := RunLocked(stmts, e);
          fnOk := r.None?;
          fnErr := if r.Some? then r.value else "";
        case Opaque(Returned(v, msg)) =>
          fnOk, fnErr := v, msg;
        case Opaque(Threw(what)) =>
          fnOk, fnErr := false, what;
        case Opaque(ThrewOther) =>
          fnOk, fnErr := false, UnknownException;
      }
    }

    /** ApplyPragmasLocked: the journal mode, the synchronous level (with
        its fallback) and foreign keys, stopping at the first refusal. */
    method ApplyPragmasLocked(e: Engine) returns (err: Option<string>)
      requires open
      modifies this
      ensures sent == Run(e, old(sent), Pragmas(cfg)).log && err == Run(e, old(sent), Pragmas(cfg)).error
      ensures cfg == old(cfg) && initialized == old(initialized) && open
    {
      err := RunLocked(Pragmas(cfg), e);
    }

    /** Init. An initialised database ignores the call. Otherwise the new
        configuration is kept and: a disabled one succeeds without opening;
        a type other than sqlite, a parent directory that cannot be created
        (`dirError`), a failed sqlite3_open (`openError`) or a refused
        pragma fail; else the database is initialised. */
    method Init(c: DbConfig, dirError: Option<string>, openError: Option<string>, e: Engine)
      returns (ok: bool, err: Option<string>)
      requires Valid()
      modifies this
      ensures Valid()
      ensures old(initialized) ==>
                ok && err.None? && initialized && cfg == old(cfg) && sent == old(sent)
      ensures !old(initialized) ==> cfg == c && (initialized <==> ok && c.enable)
      ensures !old(initialized) && !c.enable ==> ok && err.None? && sent == old(sent)
      ensures !old(initialized) && c.enable && c.dbType != "sqlite" ==>
                !ok && err == Some(UnsupportedType(c.dbType)) && sent == old(sent)
      ensures !old(initialized) && c.enable && c.dbType == "sqlite" && dirError.Some? ==>
                !ok && err == dirError && sent == old(sent)
      ensures !old(initialized) && c.enable && c.dbType == "sqlite" && dirError.None? && openError.Some? ==>
                !ok && err == Some("sqlite3_open failed: " + openError.value) && sent == old(sent)
      ensures !old(initialized) && c.enable && c.dbType == "sqlite" && dirError.None? && openError.None? ==>
                && sent == Run(e, old(sent), Pragmas(c)).log
                && err == Run(e, old(sent), Pragmas(c)).error
                && (ok <==> err.None?)
    {
      if initialized {
        return true, None;
      }
      cfg := c;
      if !cfg.enable {
        initialized := false;
        return true, None;
      }
      if cfg.dbType != "sqlite" {
        return false, Some(UnsupportedType(cfg.dbType));
      }
      if dirError.Some? {
        return false, dirError;
      }
      if openError.Some? {
        return false, Some("sqlite3_open failed: " + openError.value);
      }
      open := true;
      err := ApplyPragmasLocked(e);
      if err.Some? {
        open := false;
        return false, err;
      }
      initialized := true;
      ok := true;
    }

    /** Exec: refused with "db not initialized" before Init succeeded;
        otherwise the statement is sent and SQLite's answer returned. */
    method Exec(sql: string, e: Engine) returns (ok: bool, err: Option<string>)
      requires Valid()
      modifies this
      ensures Valid() && cfg == old(cfg) && initialized == old(initialized)
      ensures !initialized ==> !ok && err == Some(NotInitialized) && sent == old(sent)
      ensures initialized ==>
                sent == old(sent) + [sql] && err == Answer(e, |old(sent)|) && (ok <==> err.None?)
    {
      if !initialized || !open {
        return false, Some(NotInitialized);
      }
      err := ExecLocked(sql, e);
      ok := err.None?;
    }

    /** TransactionLocked: BEGIN IMMEDIATE, the callback, then COMMIT or
        ROLLBACK as `Tx` describes. */
    method TransactionLocked(body: Body, e: Engine) returns (ok: bool, err: Option<string>)
      requires open
      modifies this
      ensures sent == Tx(e, old(sent), body).log
      ensures ok == Tx(e, old(sent), body).ok && err == Tx(e, old(sent), body).err
      ensures cfg == old(cfg) && initialized == old(initialized) && open
    {
      var e1 := ExecLocked(BeginSql, e);
      if e1.Some? {
        return false, e1;
      }
      var fnOk, fnErr := CallLocked(body, e);
      if fnOk {
        var e2 := ExecLocked(CommitSql, e);
        if e2.Some? {
          var _ := ExecLocked(RollbackSql, e);
          return false, e2;
        }
        return true, None;
      } else {
        var _ := ExecLocked(RollbackSql, e);
        return false, Some(if fnErr == "" then Aborted else fnErr);
      }
    }

    /** Transaction: refused with "db not initialized" before Init
        succeeded; otherwise a transaction around the callback. */
    method Transaction(fn: FnOutcome, e: Engine) returns (ok: bool, err: Option<string>)
      requires Valid()
      modifies this
      ensures Valid() && cfg == old(cfg) && initialized == old(initialized)
      ensures !initialized ==> !ok && err == Some(NotInitialized) && sent == old(sent)
      ensures initialized ==>
                var t := Tx(e, old(sent), Opaque(fn));
                sent == t.log && ok == t.ok && err == t.err
    {
      if !initialized || !open {
        return false, Some(NotInitialized);
      }
      ok, err := TransactionLocked(Opaque(fn), e);
    }

    /** Migrate: nothing to do for a disabled database, refused before Init
        succeeded; otherwise the schema_version table, then the migration
        steps in one transaction. */
    method Migrate(e: Engine) returns (ok: bool, err: Option<string>)
      requires Valid()
      modifies this
      ensures Valid() && cfg == old(cfg) && initialized == old(initialized)
      ensures !cfg.enable ==> ok && err.None? && sent == old(sent)
      ensures cfg.enable && !initialized ==> !ok && err == Some(NotInitialized) && sent == old(sent)
      ensures initialized && Answer(e, |old(sent)|).Some? ==>
                !ok && err == Answer(e, |old(sent)|) && sent == old(sent) + [SchemaVersionSql]
      ensures initialized && Answer(e, |old(sent)|).None? ==>
                var t := Tx(e, old(sent) + [SchemaVersionSql], Script(MigrationSteps));
                sent == t.log && ok == t.ok && err == t.err
    {
      if !cfg.enable {
        return true, None;
      }
      if !initialized || !open {
        return false, Some(NotInitialized);
      }
      err := ExecLocked(SchemaVersionSql, e);
      if err.Some? {
        return false, err;
      }
      ok, err := TransactionLocked(Script(MigrationSteps), e);
    }

    /** Close: the connection, if any, is closed and the database is no
        longer initialised; the configuration stays. */
    method Close()
      modifies this
      ensures Valid() && !initialized && !open
      ensures cfg == old(cfg) && sent == old(sent)
    {
      if open {
        open := false;
      }
      initialized := false;
    }
  }
}
