/**
  What the scripts read in the environment a CR compiles to is what the CR's spec says: the
  switches as the scripts' `case` statements read them, numbers as numbers, names as they are.
*/
module EnvMeaning {
  import opened Wrappers
  import opened SourcePath
  import opened PodSpec
  import opened PodLaws
  import Names = BackupNames
  import Retention
  import Run = RestoreRun

  // ------------------------------------------------------------------ how scripts read

  /** `case "${V:-}" in yes|YES|true|TRUE|1)`. */
  predicate Yes(env: Env, v: Var) {
    v in env && env[v] in ["yes", "YES", "true", "TRUE", "1"]
  }

  lemma SwitchReads(env: Env, v: Var, o: Option<bool>, default: bool)
    requires v in env && env[v] == BoolEnv(o, default)
    ensures Yes(env, v) <==> if o.Some? then o.value else default
  {
    assert "false"[0] == 'f';
  }

  /** The number a string of digits stands for. */
  function Digits(s: string): int {
    if s == "" then 0 else 10 * Digits(s[..|s| - 1]) + (s[|s| - 1] as int - '0' as int)
  }

  function Number(s: string): int {
    if s != "" && s[0] == '-' then -Digits(s[1..]) else Digits(s)
  }

  lemma {:induction false} DigitsRead(n: nat)
    ensures Itoa(n) != "" && Itoa(n)[0] != '-' && Digits(Itoa(n)) == n
    decreases n
  {
    var ten := "0123456789";
    assert forall d :: 0 <= d < 10 ==> ten[d] as int - '0' as int == d;
    if n < 10 {
      assert Itoa(n)[..0] == "";
    } else {
      DigitsRead(n / 10);
      var s := Itoa(n / 10) + [ten[n % 10]];
      assert Itoa(n) == s && s[..|s| - 1] == Itoa(n / 10);
    }
  }

  /** Printing a number and reading it gives it back. */
  lemma NumberReads(n: int)
    ensures Number(Itoa(n)) == n
  {
    if n < 0 {
      DigitsRead(-n);
      assert Itoa(n)[1..] == Itoa(-n);
    } else {
      DigitsRead(n);
    }
  }

  // ------------------------------------------------------------------ parts of the environment

  lemma DatabaseKeys(c: Common)
    ensures DatabaseEnv(c).Keys == DatabaseVars(c.engine)
  {
  }

  lemma SourceKeys(b: Backup)
    ensures SourceEnv(b).Keys ==
            if Effective(b.c.engine).Pvc? then {PVC_CLAIM_NAME, PVC_SOURCE_DIR, PVC_PATH, PVC_EXCLUDES}
            else DatabaseVars(b.c.engine)
  {
    if !Effective(b.c.engine).Pvc? {
      DatabaseKeys(b.c);
    }
  }

  /** Everything a part says is said by the whole. */
  ghost predicate Within(part: Env, env: Env) {
    forall v :: v in part ==> v in env && env[v] == part[v]
  }

  datatype Section = Basics | Storage | Data | EngineOnly

  /** Which part of the environment a variable belongs to. */
  function SectionOf(v: Var): Section {
    match v
    case S3_ENDPOINT => Storage
    case S3_BUCKET => Storage
    case S3_PATH => Storage
    case S3_RETENTION_DAYS => Storage
    case MYSQL_HOST => Data
    case MYSQL_PORT => Data
    case MYSQL_DATABASE => Data
    case REDIS_HOST => Data
    case REDIS_PORT => Data
    case REDIS_NAME => Data
    case PGHOST => Data
    case PGPORT => Data
    case PGDATABASE => Data
    case PVC_CLAIM_NAME => Data
    case PVC_SOURCE_DIR => Data
    case PVC_PATH => Data
    case PVC_EXCLUDES => Data
    case PG_OWNER_ROLE => EngineOnly
    case STRIP_PGAUDIT_EXTENSION => EngineOnly
    case _ => Basics
  }

  ghost predicate Is(part: Env, section: Section) {
    forall v :: v in part ==> SectionOf(v) == section
  }

  /** Different parts can all be read in the whole. */
  lemma PartsStay(x: Env, y: Env, z: Env)
    requires Is(x, Basics) && Is(y, Storage) && Is(z, Data)
    ensures Within(x, x + y + z) && Within(y, x + y + z) && Within(z, x + y + z)
  {
  }

  lemma WithinTrans(x: Env, y: Env, z: Env)
    requires Within(x, y) && Within(y, z)
    ensures Within(x, z)
  {
  }

  lemma DatabaseIsData(c: Common)
    ensures Is(DatabaseEnv(c), Data)
  {
    DatabaseKeys(c);
  }

  lemma SourceIsData(b: Backup)
    ensures Is(SourceEnv(b), Data)
  {
    if Effective(b.c.engine).Pvc? {
      SourceKeys(b);
    } else {
      DatabaseIsData(b.c);
    }
  }

  lemma BackupParts(b: Backup, fl: Flags)
    ensures Within(BackupBase(b), BackupEnv(b, fl))
    ensures Within(BackupS3Env(b.c, fl), BackupEnv(b, fl))
    ensures Within(SourceEnv(b), BackupEnv(b, fl))
  {
    SourceIsData(b);
    BaseKeys(b, fl);
    PartsStay(BackupBase(b), BackupS3Env(b.c, fl), SourceEnv(b));
  }

  lemma BaseKeys(b: Backup, fl: Flags)
    ensures {DUMP_PREFIX, DATA_DIR, LOCAL_RETENTION_DAYS, LOG_FILE_ENABLED} <= BackupBase(b).Keys
    ensures Is(BackupBase(b), Basics) && Is(BackupS3Env(b.c, fl), Storage)
  {
  }

  lemma RestoreParts(r: Restore, fl: Flags)
    ensures Within(RestoreBase(r), RestoreEnv(r, fl)) && Within(S3Env(r.c, fl), RestoreEnv(r, fl))
    ensures Within(DatabaseEnv(r.c), RestoreEnv(r, fl)) && Within(PostgresEnv(r), RestoreEnv(r, fl))
  {
    RestoreBaseKeys(r);
    RestoreOtherKeys(r, fl);
    DatabaseIsData(r.c);
    FourParts(RestoreBase(r), S3Env(r.c, fl), DatabaseEnv(r.c), PostgresEnv(r));
  }

  lemma FourParts(x: Env, y: Env, z: Env, u: Env)
    requires Is(x, Basics) && Is(y, Storage) && Is(z, Data) && Is(u, EngineOnly)
    ensures Within(x, x + y + z + u) && Within(y, x + y + z + u)
    ensures Within(z, x + y + z + u) && Within(u, x + y + z + u)
  {
    var most := x + y + z;
    PartsStay(x, y, z);
    assert Within(most, most + u) && Within(u, most + u);
    WithinTrans(x, most, most + u);
    WithinTrans(y, most, most + u);
    WithinTrans(z, most, most + u);
  }

  lemma RestoreBaseKeys(r: Restore)
    ensures {WORKDIR, BACKUP_FILE, USE_LATEST_BACKUP_AS_FALLBACK, DROP_DATABASE_IF_EXISTS, LOG_FILE_ENABLED} <=
            RestoreBase(r).Keys
    ensures Is(RestoreBase(r), Basics)
  {
  }

  lemma RestoreOtherKeys(r: Restore, fl: Flags)
    ensures {S3_ENDPOINT, S3_BUCKET, S3_PATH} == S3Env(r.c, fl).Keys && Is(S3Env(r.c, fl), Storage)
    ensures Is(PostgresEnv(r), EngineOnly)
  {
  }

  /** A variable holds a value. */
  predicate Says(env: Env, v: Var, value: string) {
    v in env && env[v] == value
  }

  predicate Counts(env: Env, v: Var, n: int) {
    v in env && Number(env[v]) == n
  }

  // ------------------------------------------------------------------ the database

  /** Host, port and name under the variables of the engine; the port is the spec's or the engine's usual one. */
  ghost predicate SaysDatabase(c: Common, env: Env) {
    var (host, port, name, usual) :=
      match Effective(c.engine)
      case MariaDB => (MYSQL_HOST, MYSQL_PORT, MYSQL_DATABASE, 3306)
      case Redis => (REDIS_HOST, REDIS_PORT, REDIS_NAME, 6379)
      case _ => (PGHOST, PGPORT, PGDATABASE, 5432);
    && Says(env, host, c.database.host) && Says(env, name, c.database.name)
    && Counts(env, port, if c.database.port > 0 then c.database.port else usual)
  }

  lemma DatabaseSays(c: Common, env: Env)
    requires Within(DatabaseEnv(c), env)
    ensures SaysDatabase(c, env)
  {
    var usual := match Effective(c.engine) case MariaDB => 3306 case Redis => 6379 case _ => 5432;
    NumberReads(if c.database.port > 0 then c.database.port else usual);
    DatabaseKeys(c);
  }

  // ------------------------------------------------------------------ the engine and the S3 client

  /** The engine's name and the prefix of its dumps; an engine nobody knows is treated as PostgreSQL. */
  ghost predicate SaysEngine(e: Engine, env: Env) {
    match e
    case MariaDB => Says(env, ENGINE, "mariadb") && Says(env, DUMP_PREFIX, "mysqldump")
    case Redis => Says(env, ENGINE, "redis") && Says(env, DUMP_PREFIX, "redisdump")
    case Pvc => Says(env, ENGINE, "pvc") && Says(env, DUMP_PREFIX, "pvcdump")
    case Unknown(name) => Says(env, ENGINE, name) && Says(env, DUMP_PREFIX, "pg_dump")
    case _ => Says(env, ENGINE, "postgres") && Says(env, DUMP_PREFIX, "pg_dump")
  }

  lemma EngineSays(part: Env, e: Engine, env: Env)
    requires Within(part, env) && ENGINE in part && DUMP_PREFIX in part
    requires part[ENGINE] == EngineString(Effective(e)) && part[DUMP_PREFIX] == DumpPrefix(e)
    ensures SaysEngine(e, env)
  {
  }

  /** Both kinds of pod know their engine and where the S3 client keeps its configuration. */
  lemma EnvNamesTheEngine(b: Backup, r: Restore, fl: Flags)
    ensures SaysEngine(b.c.engine, BackupEnv(b, fl)) && SaysEngine(r.c.engine, RestoreEnv(r, fl))
    ensures Says(BackupEnv(b, fl), MC_CONFIG_DIR, if b.c.mcDir != "" then b.c.mcDir else "/tmp/mc-config")
    ensures Says(RestoreEnv(r, fl), MC_CONFIG_DIR, if r.c.mcDir != "" then r.c.mcDir else "/tmp/mc-config")
  {
    BackupParts(b, fl);
    RestoreParts(r, fl);
    BackupBaseNames(b);
    RestoreBaseNames(r);
    EngineSays(BackupBase(b), b.c.engine, BackupEnv(b, fl));
    EngineSays(RestoreBase(r), r.c.engine, RestoreEnv(r, fl));
  }

  lemma BackupBaseNames(b: Backup)
    ensures {ENGINE, DUMP_PREFIX, MC_CONFIG_DIR} <= BackupBase(b).Keys
    ensures BackupBase(b)[ENGINE] == EngineString(Effective(b.c.engine))
    ensures BackupBase(b)[DUMP_PREFIX] == DumpPrefix(b.c.engine)
    ensures BackupBase(b)[MC_CONFIG_DIR] == if b.c.mcDir != "" then b.c.mcDir else "/tmp/mc-config"
  {
  }

  lemma RestoreBaseNames(r: Restore)
    ensures {ENGINE, DUMP_PREFIX, MC_CONFIG_DIR} <= RestoreBase(r).Keys
    ensures RestoreBase(r)[ENGINE] == EngineString(Effective(r.c.engine))
    ensures RestoreBase(r)[DUMP_PREFIX] == DumpPrefix(r.c.engine)
    ensures RestoreBase(r)[MC_CONFIG_DIR] == if r.c.mcDir != "" then r.c.mcDir else "/tmp/mc-config"
  {
  }

  // ------------------------------------------------------------------ backups

  /** What the scripts of a backup pod read is what the spec says. */
  lemma BackupEnvSays(b: Backup, fl: Flags)
    ensures var env := BackupEnv(b, fl);
            && Says(env, DATA_DIR, if b.c.dataDir != "" then b.c.dataDir else "/backup/data")
            && Counts(env, LOCAL_RETENTION_DAYS, if b.localDays.Some? then b.localDays.value else 7)
            && (Yes(env, LOG_FILE_ENABLED) <==> b.c.logFile == Some(true))
            && (!Effective(b.c.engine).Pvc? ==> SaysDatabase(b.c, env))
  {
    var env := BackupEnv(b, fl);
    BackupParts(b, fl);
    BaseKeys(b, fl);
    NumberReads(Deref(b.localDays, 7));
    SwitchReads(env, LOG_FILE_ENABLED, b.c.logFile, false);
    if !Effective(b.c.engine).Pvc? {
      assert SourceEnv(b) == DatabaseEnv(b.c);
      DatabaseSays(b.c, env);
    }
  }

  /** The S3 settings, where S3 is on; endpoint and bucket fall back to the operator's flags. */
  lemma BackupS3Says(b: Backup, fl: Flags)
    requires b.c.s3.enabled != Some(false)
    ensures var env := BackupEnv(b, fl);
            && Says(env, S3_ENDPOINT, if b.c.s3.endpoint != "" then b.c.s3.endpoint else fl.s3Endpoint)
            && Says(env, S3_BUCKET, if b.c.s3.bucket != "" then b.c.s3.bucket else fl.s3Bucket)
            && Says(env, S3_PATH, b.c.s3.path)
            && Counts(env, S3_RETENTION_DAYS, if b.c.s3.retentionDays.Some? then b.c.s3.retentionDays.value else 14)
  {
    BackupParts(b, fl);
    NumberReads(Deref(b.c.s3.retentionDays, 14));
    S3Keys(b.c, fl);
  }

  lemma S3Keys(c: Common, fl: Flags)
    requires c.s3.enabled != Some(false)
    ensures BackupS3Env(c, fl).Keys == {S3_ENDPOINT, S3_BUCKET, S3_PATH, S3_RETENTION_DAYS}
  {
  }

  /** The source of a PVC backup: the claim, its mount, the cleaned path, and excludes that read back as the list. */
  lemma BackupSourceSays(b: Backup, fl: Flags)
    requires Effective(b.c.engine).Pvc? && b.pvc.Some? && ValidExcludes(b.pvc.value.excludes)
    ensures var env := BackupEnv(b, fl);
            && Says(env, PVC_CLAIM_NAME, b.pvc.value.claim) && Says(env, PVC_SOURCE_DIR, "/source")
            && Says(env, PVC_PATH, SourceSubPath(b.pvc.value.path))
            && PVC_EXCLUDES in env
            && Lines(if env[PVC_EXCLUDES] == "" then "" else env[PVC_EXCLUDES] + "\n") == b.pvc.value.excludes
  {
    BackupParts(b, fl);
    SourceKeys(b);
    ExcludesRoundTrip(b.pvc.value.excludes);
  }

  /** A cleanup that reads its settings from the environment. */
  ghost predicate Reads(w: Retention.Sweep, env: Env) {
    && Counts(env, LOCAL_RETENTION_DAYS, w.keep) && (w.logs <==> Yes(env, LOG_FILE_ENABLED))
    && DUMP_PREFIX in env && w.format == GlobsAs(env[DUMP_PREFIX])
  }

  /** A cleanup of a Backup's pod keeps what the spec says, and prunes the archives of its engine. */
  lemma CleanupFollowsSpec(b: Backup, fl: Flags, w: Retention.Sweep)
    requires Reads(w, BackupEnv(b, fl))
    ensures w.keep == if b.localDays.Some? then b.localDays.value else 7
    ensures w.logs <==> b.c.logFile == Some(true)
    ensures w.format == match Effective(b.c.engine)
                        case MariaDB => Names.MariaDB
                        case Redis => Names.Redis
                        case Pvc => Names.Volume
                        case _ => Names.Postgres
  {
    BackupEnvSays(b, fl);
    BackupParts(b, fl);
    BaseKeys(b, fl);
    PrefixesDiffer(b.c.engine);
  }

  // ------------------------------------------------------------------ restores

  /** What the scripts of a restore pod read is what the spec says. */
  lemma RestoreEnvSays(r: Restore, fl: Flags)
    ensures var env := RestoreEnv(r, fl);
            && Says(env, WORKDIR, if r.c.dataDir != "" then r.c.dataDir else "/workdir")
            && Says(env, BACKUP_FILE, r.backupFile)
            && (Yes(env, DROP_DATABASE_IF_EXISTS) <==> r.drop != Some(false))
            && (Yes(env, USE_LATEST_BACKUP_AS_FALLBACK) <==> r.fallback != Some(false))
            && (Yes(env, LOG_FILE_ENABLED) <==> r.c.logFile == Some(true))
            && SaysDatabase(r.c, env)
  {
    RestoreParts(r, fl);
    RestoreBaseSays(r, RestoreEnv(r, fl));
    DatabaseSays(r.c, RestoreEnv(r, fl));
  }

  lemma RestoreBaseSays(r: Restore, env: Env)
    requires Within(RestoreBase(r), env)
    ensures Says(env, WORKDIR, if r.c.dataDir != "" then r.c.dataDir else "/workdir")
    ensures Says(env, BACKUP_FILE, r.backupFile)
    ensures Yes(env, DROP_DATABASE_IF_EXISTS) <==> r.drop != Some(false)
    ensures Yes(env, USE_LATEST_BACKUP_AS_FALLBACK) <==> r.fallback != Some(false)
    ensures Yes(env, LOG_FILE_ENABLED) <==> r.c.logFile == Some(true)
  {
    RestoreBaseKeys(r);
    SwitchReads(env, DROP_DATABASE_IF_EXISTS, r.drop, true);
    SwitchReads(env, USE_LATEST_BACKUP_AS_FALLBACK, r.fallback, true);
    SwitchReads(env, LOG_FILE_ENABLED, r.c.logFile, false);
  }

  lemma RestoreS3Says(r: Restore, fl: Flags)
    ensures var env := RestoreEnv(r, fl);
            && Says(env, S3_ENDPOINT, if r.c.s3.endpoint != "" then r.c.s3.endpoint else fl.s3Endpoint)
            && Says(env, S3_BUCKET, if r.c.s3.bucket != "" then r.c.s3.bucket else fl.s3Bucket)
            && Says(env, S3_PATH, r.c.s3.path)
  {
    RestoreParts(r, fl);
    RestoreOtherKeys(r, fl);
  }

  lemma RestorePostgresSays(r: Restore, fl: Flags)
    requires EngineScript(r.c.engine).PgRestore?
    ensures var env := RestoreEnv(r, fl);
            && (Yes(env, STRIP_PGAUDIT_EXTENSION) <==> r.stripPgAudit != Some(false))
            && Says(env, PG_OWNER_ROLE, if r.ownerRole != "" then r.ownerRole else r.c.database.name)
  {
    var env := RestoreEnv(r, fl);
    RestoreParts(r, fl);
    assert PostgresEnv(r).Keys == {PG_OWNER_ROLE, STRIP_PGAUDIT_EXTENSION};
    SwitchReads(env, STRIP_PGAUDIT_EXTENSION, r.stripPgAudit, true);
  }

  /** The config map is refused exactly for want of an endpoint or a bucket, of the spec or the operator. */
  lemma ConfigMapAcceptedIff(b: Backup, r: Restore, fl: Flags)
    ensures b.c.s3.enabled != Some(false) ==>
              (S3EnvOk(BackupEnv(b, fl)) <==>
                 (b.c.s3.endpoint != "" || fl.s3Endpoint != "") && (b.c.s3.bucket != "" || fl.s3Bucket != ""))
    ensures S3EnvOk(RestoreEnv(r, fl)) <==>
            (r.c.s3.endpoint != "" || fl.s3Endpoint != "") && (r.c.s3.bucket != "" || fl.s3Bucket != "")
  {
    RestoreS3Says(r, fl);
    if b.c.s3.enabled != Some(false) {
      BackupS3Says(b, fl);
    }
  }

  /** A restore pod whose scripts read their settings from the environment. */
  ghost predicate Configures(env: Env, engine: Script, x: Run.Setup) {
    && (x.dropAllowed <==> Yes(env, DROP_DATABASE_IF_EXISTS))
    && (x.fallback <==> Yes(env, USE_LATEST_BACKUP_AS_FALLBACK))
    && Says(env, BACKUP_FILE, x.backupFile)
    && (x.redis <==> engine.RedisRestore?)
    && (engine.PgRestore? ==> (x.audit <==> Yes(env, STRIP_PGAUDIT_EXTENSION)))
  }

  /** The pod of a Restore does what its spec allows and asks for. */
  lemma PodFollowsSpec(r: Restore, fl: Flags, x: Run.Setup)
    requires Configures(RestoreEnv(r, fl), EngineScript(r.c.engine), x)
    ensures x.dropAllowed <==> r.drop != Some(false)
    ensures x.fallback <==> r.fallback != Some(false)
    ensures x.backupFile == r.backupFile
    ensures x.redis <==> r.c.engine.Redis?
    ensures EngineScript(r.c.engine).PgRestore? ==> (x.audit <==> r.stripPgAudit != Some(false))
  {
    RestoreEnvSays(r, fl);
    if EngineScript(r.c.engine).PgRestore? {
      RestorePostgresSays(r, fl);
    }
  }

  /** From the spec to the database: with dropping forbidden, no run touches a target the engine sees something in. */
  lemma ForbiddenDropIsHonoured(r: Restore, fl: Flags, x: Run.Setup, ss: seq<Run.Pod>, acts: seq<Run.Act>, i: nat)
    requires r.drop == Some(false) && Configures(RestoreEnv(r, fl), EngineScript(r.c.engine), x)
    requires Run.IsPodRun(x, ss, acts) && i < |ss| && Run.Visible(x.target0)
    ensures ss[i].d.target == x.target0
  {
    PodFollowsSpec(r, fl, x);
    Run.RefusalIsSafe(x, ss, acts, i);
  }
}
