/**
  Every accepted CR compiles to a closed, live pipeline: its containers are the stages of the
  marker protocol in order, and what a stage waits for, reads, mounts or logs in with is there.
*/
module PodLaws {
  import opened Wrappers
  import opened OwnedNames
  import opened Protocol
  import opened PodSpec
  import Names = BackupNames
  import BackupRun
  import RestoreRun

  // ------------------------------------------------------------------ what a script does with markers

  const JOB_DONE := ".step-job-done"
  const FAILED := ".step-failed"

  function DoneFile(stage: string): string {
    ".step-" + stage + "-done"
  }

  predicate IsDump(s: Script) {
    s.PgDump? || s.MysqlDump? || s.RedisDump? || s.PvcDump?
  }

  predicate IsEngine(s: Script) {
    s.PgRestore? || s.MysqlRestore? || s.RedisRestore?
  }

  /** The stage name in the script's own marker; the finishers that have none use job-done. */
  function OwnStage(s: Script): Option<string> {
    if s.BackupCleanup? || s.RestoreCleanup? then Some("cleanup")
    else if IsDump(s) then Some("dump")
    else if s.Compress? then Some("compress")
    else if s.Encrypt? then Some("encrypt")
    else if s.Fetch? then Some("fetch")
    else if s.DecryptDump? then Some("decrypt")
    else if s.Extract? then Some("extract")
    else None
  }

  /** The stage named in the script's `wait_for`. */
  function AwaitedStage(s: Script): Option<string> {
    if IsDump(s) || s.Fetch? then Some("cleanup")
    else if s.Compress? then Some("dump")
    else if s.Encrypt? then Some("compress")
    else if s.S3Sync? then Some("encrypt")
    else if s.DecryptDump? then Some("fetch")
    else if s.Extract? then Some("decrypt")
    else if IsEngine(s) then Some("extract")
    else None
  }

  /** `s3_enabled` of encrypt.sh. */
  predicate S3Disabled(env: Env) {
    S3_ENABLED in env && env[S3_ENABLED] in ["0", "no", "NO", "false", "FALSE"]
  }

  /** The script touches job-done when its work is over. */
  predicate Finishes(s: Script, env: Env) {
    s.S3Sync? || IsEngine(s) || (s.Encrypt? && S3Disabled(env))
  }

  /** The markers the script touches, in order. */
  function Writes(s: Script, env: Env): seq<string> {
    (if OwnStage(s).Some? then [DoneFile(OwnStage(s).value)] else []) + if Finishes(s, env) then [JOB_DONE] else []
  }

  /** `rm -f .step-*`, `clear_step_failed`, and the removal of the scratch directory at the end. */
  predicate Sweeps(s: Script) {
    s.BackupCleanup? || s.RestoreCleanup?
  }

  predicate ClearsFailed(s: Script) {
    IsDump(s) || s.Fetch?
  }

  // ------------------------------------------------------------------ the pod is the protocol

  function FileOf(stages: seq<string>, m: Marker): string {
    match m
    case Done(i) => if i < |stages| then DoneFile(stages[i]) else ""
    case JobDone => JOB_DONE
    case Failed => FAILED
  }

  /**
    The script is stage `i` of the protocol: it waits for the stage before, skips its work on
    and leaves the marker of its own stage, and finishes the job if it is the last.
  */
  ghost predicate Behaves(cfg: Config, stages: seq<string>, i: nat, s: Script, env: Env)
    requires ValidConfig(cfg) && i < cfg.n
  {
    && |stages| == (if cfg.finisherMarks then cfg.n else cfg.n - 1)
    && AwaitedStage(s) == (if i == 0 then None else Some(stages[i - 1]))
    && OwnStage(s) == (if Marks(cfg, i) then Some(stages[i]) else None)
    && (Finishes(s, env) <==> i == cfg.n - 1)
    && (Sweeps(s) <==> i == 0)
    && (ClearsFailed(s) <==> i == 1)
    && (IsEngine(s) <==> i == cfg.n - 1 && cfg.teardown)
  }

  ghost predicate Follows(cfg: Config, stages: seq<string>, cs: seq<Container>, env: Env) {
    && ValidConfig(cfg) && |cs| == cfg.n
    && forall i: nat :: i < cfg.n ==> Behaves(cfg, stages, i, cs[i].script, env)
  }

  const BACKUP_STAGES := ["cleanup", "dump", "compress", "encrypt"]
  const RESTORE_STAGES := ["cleanup", "fetch", "decrypt", "extract"]

  function BackupConfig(b: Backup): Config {
    Config(if S3On(b.c) then 5 else 4, !S3On(b.c), RestartPolicy(b.c) != "Never", false)
  }

  function RestoreConfig(r: Restore): Config {
    Config(5, false, RestartPolicy(r.c) != "Never", true)
  }

  lemma EnvSaysS3(b: Backup, fl: Flags)
    ensures S3Disabled(BackupEnv(b, fl)) <==> !S3On(b.c)
  {
    var env := BackupEnv(b, fl);
    assert S3_ENABLED in BackupBase(b) && S3_ENABLED !in BackupS3Env(b.c, fl) && S3_ENABLED !in SourceEnv(b);
    assert env[S3_ENABLED] == BoolEnv(b.c.s3.enabled, true);
    assert S3On(b.c) ==> env[S3_ENABLED] == "true";
    TrueIsNotOff();
  }

  lemma TrueIsNotOff()
    ensures "true" !in ["0", "no", "NO", "false", "FALSE"]
  {
    assert "true"[0] == 't';
  }

  /** The scripts of a backup pod, in order. */
  function BackupScripts(b: Backup): seq<Script> {
    [BackupCleanup, DumpScript(b.c.engine), Compress, Encrypt] + if S3On(b.c) then [S3Sync] else []
  }

  function DumpScript(e: Engine): Script {
    match Effective(e)
    case MariaDB => MysqlDump
    case Redis => RedisDump
    case Pvc => PvcDump
    case _ => PgDump
  }

  /** The scripts of a restore pod, in order. */
  function RestoreScripts(r: Restore): seq<Script> {
    [RestoreCleanup, Fetch, DecryptDump, Extract, EngineScript(r.c.engine)]
  }

  function EngineScript(e: Engine): Script {
    match Effective(e)
    case MariaDB => MysqlRestore
    case Redis => RedisRestore
    case _ => PgRestore
  }

  /** A script in its place of a backup pod. */
  lemma BackupStage(cfg: Config, i: nat, s: Script, env: Env)
    requires (cfg.n == 5 && !cfg.finisherMarks && !S3Disabled(env)) ||
             (cfg.n == 4 && cfg.finisherMarks && S3Disabled(env))
    requires i < cfg.n && !cfg.teardown
    requires if i == 1 then IsDump(s) else s == [BackupCleanup, PgDump, Compress, Encrypt, S3Sync][i]
    ensures Behaves(cfg, BACKUP_STAGES, i, s, env)
  {
  }

  /** A script in its place of a restore pod. */
  lemma RestoreStage(cfg: Config, i: nat, s: Script, env: Env)
    requires cfg.n == 5 && !cfg.finisherMarks && cfg.teardown && i < 5
    requires if i == 4 then IsEngine(s) else s == [RestoreCleanup, Fetch, DecryptDump, Extract][i]
    ensures Behaves(cfg, RESTORE_STAGES, i, s, env)
  {
  }

  /** The last container of a pod can write job-done, and no other. */
  ghost predicate LastFinishes(cs: seq<Container>, env: Env) {
    forall i :: 0 <= i < |cs| ==> (JOB_DONE in Writes(cs[i].script, env) <==> i == |cs| - 1)
  }

  lemma BackupStagesFollow(cfg: Config, cs: seq<Container>, env: Env)
    requires (cfg.n == 5 && !cfg.finisherMarks && !S3Disabled(env)) ||
             (cfg.n == 4 && cfg.finisherMarks && S3Disabled(env))
    requires |cs| == cfg.n && !cfg.teardown && cs[0].script == BackupCleanup && IsDump(cs[1].script)
    requires cs[2].script == Compress && cs[3].script == Encrypt && (cfg.n == 5 ==> cs[4].script == S3Sync)
    ensures Follows(cfg, BACKUP_STAGES, cs, env) && LastFinishes(cs, env)
  {
    forall i: nat | i < cfg.n ensures Behaves(cfg, BACKUP_STAGES, i, cs[i].script, env) {
      BackupStage(cfg, i, cs[i].script, env);
    }
    StagesAreDistinct();
    forall i: nat | i < cfg.n ensures JOB_DONE in Writes(cs[i].script, env) <==> i == cfg.n - 1 {
      OneFinisher(cfg, BACKUP_STAGES, cs, env, i);
    }
  }

  lemma RestoreStagesFollow(cfg: Config, cs: seq<Container>, env: Env)
    requires cfg.n == 5 && !cfg.finisherMarks && cfg.teardown
    requires |cs| == 5 && cs[0].script == RestoreCleanup && cs[1].script == Fetch && cs[2].script == DecryptDump
    requires cs[3].script == Extract && IsEngine(cs[4].script)
    ensures Follows(cfg, RESTORE_STAGES, cs, env) && LastFinishes(cs, env)
  {
    forall i: nat | i < cfg.n ensures Behaves(cfg, RESTORE_STAGES, i, cs[i].script, env) {
      RestoreStage(cfg, i, cs[i].script, env);
    }
    StagesAreDistinct();
    forall i: nat | i < cfg.n ensures JOB_DONE in Writes(cs[i].script, env) <==> i == cfg.n - 1 {
      OneFinisher(cfg, RESTORE_STAGES, cs, env, i);
    }
  }

  /**
    A backup pod runs the marker protocol, with or without S3, whatever its engine, and exactly
    one of its containers can write job-done, the last.
  */
  lemma BackupFollowsProtocol(b: Backup, fl: Flags)
    ensures Follows(BackupConfig(b), BACKUP_STAGES, BackupPod(b).containers, BackupEnv(b, fl))
    ensures LastFinishes(BackupPod(b).containers, BackupEnv(b, fl))
    ensures RestartPolicy(b.c) == "Never" ==>
              forall x: BackupRun.Setup :: x.s3 == S3On(b.c) ==> BackupRun.Config(x) == BackupConfig(b)
  {
    BackupOrder(b);
    EnvSaysS3(b, fl);
    BackupStagesFollow(BackupConfig(b), BackupContainers(b), BackupEnv(b, fl));
  }

  lemma BackupOrder(b: Backup)
    ensures var cs := BackupContainers(b);
            && |cs| == BackupConfig(b).n && cs[0].script == BackupCleanup && IsDump(cs[1].script)
            && cs[2].script == Compress && cs[3].script == Encrypt && (S3On(b.c) ==> cs[4].script == S3Sync)
  {
    BackupIsStandard(b);
  }

  /** And so does a restore pod. */
  lemma RestoreFollowsProtocol(r: Restore, fl: Flags)
    ensures Follows(RestoreConfig(r), RESTORE_STAGES, RestorePod(r).containers, RestoreEnv(r, fl))
    ensures LastFinishes(RestorePod(r).containers, RestoreEnv(r, fl))
    ensures RestartPolicy(r.c) == "Never" ==> RestoreConfig(r) == RestoreRun.CONFIG
  {
    RestoreIsStandard(r);
    RestoreStagesFollow(RestoreConfig(r), RestoreContainers(r), RestoreEnv(r, fl));
  }

  /** Different markers are different files, so the protocol's markers stand for the files. */
  lemma MarkersAreFiles(stages: seq<string>, m: Marker, n: Marker)
    requires forall i, j :: 0 <= i < j < |stages| ==> stages[i] != stages[j]
    requires "job" !in stages
    requires (m.Done? ==> m.stage < |stages|) && (n.Done? ==> n.stage < |stages|)
    ensures FileOf(stages, m) == FileOf(stages, n) <==> m == n
  {
    assert JOB_DONE == DoneFile("job");
    assert FAILED[|FAILED| - 1] == 'd';
    StageOfFile("job");
    if m.Done? {
      StageOfFile(stages[m.stage]);
    }
    if n.Done? {
      StageOfFile(stages[n.stage]);
    }
  }

  lemma StageOfFile(stage: string)
    ensures DoneFile(stage)[6..|DoneFile(stage)| - 5] == stage
    ensures DoneFile(stage)[|DoneFile(stage)| - 1] == 'e'
  {
  }

  lemma StagesAreDistinct()
    ensures forall i, j :: 0 <= i < j < 4 ==>
              BACKUP_STAGES[i] != BACKUP_STAGES[j] && RESTORE_STAGES[i] != RESTORE_STAGES[j]
    ensures "job" !in BACKUP_STAGES && "job" !in RESTORE_STAGES
  {
    assert BACKUP_STAGES[0][1] == 'l' && BACKUP_STAGES[2][1] == 'o';
    assert RESTORE_STAGES[3][1] == 'x';
  }

  /** Exactly one container of the pod can write job-done: the last. */
  lemma OneFinisher(cfg: Config, stages: seq<string>, cs: seq<Container>, env: Env, i: nat)
    requires Follows(cfg, stages, cs, env) && i < cfg.n
    requires forall i, j :: 0 <= i < j < |stages| ==> stages[i] != stages[j]
    requires "job" !in stages
    ensures JOB_DONE in Writes(cs[i].script, env) <==> i == cfg.n - 1
  {
    assert Behaves(cfg, stages, i, cs[i].script, env);
    if Marks(cfg, i) {
      MarkersAreFiles(stages, Done(i), JobDone);
    }
  }

  // ------------------------------------------------------------------ nothing is missing

  /** What the containers of one pod have in common: config map, scratch mount, database login and Secret. */
  datatype Kit = Kit(cm: string, scratch: Mount, login: SecretKeys, secret: string)

  /** The container a script has to run in: the variables bound to Secrets and the mounts that it uses. */
  function Standard(s: Script, kit: Kit): Container {
    Container(s, kit.cm, Bindings(s, kit), MountsOf(s, kit.scratch))
  }

  /** Each login variable, bound to the key that holds what its name says. */
  function Bindings(s: Script, kit: Kit): seq<SecretEnv> {
    var (user, pass) := (kit.login.userKey, kit.login.passKey);
    if s.PgDump? || s.PgRestore? then
      [SecretEnv(PGUSER, kit.login.name, user), SecretEnv(PGPASSWORD, kit.login.name, pass)]
    else if s.MysqlDump? || s.MysqlRestore? then
      [SecretEnv(MYSQL_USER, kit.login.name, user), SecretEnv(MYSQL_PASSWORD, kit.login.name, pass)]
    else if s.RedisDump? || s.RedisRestore? then
      [SecretEnv(REDIS_USERNAME, kit.login.name, user), SecretEnv(REDIS_PASSWORD, kit.login.name, pass)]
    else if s.S3Sync? || s.Fetch? then
      [SecretEnv(S3_ACCESS_KEY, kit.secret, "s3_access_key"), SecretEnv(S3_SECRET_KEY, kit.secret, "s3_secret_key")]
    else []
  }

  /** Scratch and /tmp for all, the passphrase for the two gpg stages, the source for its archiver, read-only. */
  function MountsOf(s: Script, scratch: Mount): seq<Mount> {
    [scratch, Mount(TmpVolume, MountTmp, false)]
    + (if s.Encrypt? || s.DecryptDump? then [Mount(GpgVolume, MountGpg, true)] else [])
    + (if s.PvcDump? then [Mount(SourceVolume, MountSource, true)] else [])
  }

  function BackupKit(b: Backup): Kit {
    Kit(OwnedName(CrKind.Backup, b.c.name), Mount(DataVolume, MountData, false),
        SecretKeys(b.c.secret, "username", "password"), b.c.secret)
  }

  function RestoreKit(r: Restore): Kit {
    Kit(OwnedName(CrKind.Restore, r.c.name), Mount(WorkVolume, MountAt(RestoreDir(r)), false),
        TargetSecret(r), r.c.secret)
  }

  ghost predicate AllStandard(cs: seq<Container>, scripts: seq<Script>, kit: Kit) {
    |cs| == |scripts| && forall i :: 0 <= i < |cs| ==> cs[i] == Standard(scripts[i], kit)
  }

  lemma DumpIsStandard(b: Backup)
    ensures DumpContainer(b, BackupKit(b).cm) == Standard(DumpScript(b.c.engine), BackupKit(b))
  {
  }

  lemma StageIsStandard(s: Script, kit: Kit)
    requires kit.scratch == Mount(DataVolume, MountData, false)
    ensures var c := ScriptContainer(s, kit.cm, DataVolume, MountData);
            && (s.BackupCleanup? || s.Compress? ==> c == Standard(s, kit))
            && (s.Encrypt? ==> WithMount(c, Mount(GpgVolume, MountGpg, true)) == Standard(s, kit))
            && (s.S3Sync? ==> WithEnv(c, S3Login(kit.secret)) == Standard(s, kit))
  {
  }

  lemma BackupIsStandard(b: Backup)
    ensures AllStandard(BackupContainers(b), BackupScripts(b), BackupKit(b))
  {
    DumpIsStandard(b);
    StageIsStandard(BackupCleanup, BackupKit(b));
    StageIsStandard(Compress, BackupKit(b));
    StageIsStandard(Encrypt, BackupKit(b));
    StageIsStandard(S3Sync, BackupKit(b));
  }

  lemma RestoreIsStandard(r: Restore)
    ensures AllStandard(RestoreContainers(r), RestoreScripts(r), RestoreKit(r))
  {
  }

  /** The settings a script cannot do without: unset or empty, it stops or works on nothing. */
  function Needs(s: Script): set<Var> {
    if s.BackupCleanup? || s.Compress? || s.Encrypt? then {DATA_DIR}
    else if s.PgDump? then {DATA_DIR, PGHOST, PGPORT, PGDATABASE}
    else if s.MysqlDump? then {DATA_DIR, MYSQL_HOST, MYSQL_DATABASE}
    else if s.RedisDump? then {DATA_DIR, REDIS_HOST, REDIS_NAME}
    else if s.PvcDump? then {DATA_DIR, PVC_CLAIM_NAME, PVC_SOURCE_DIR}
    else if s.S3Sync? then {DATA_DIR, S3_ENDPOINT, S3_BUCKET, S3_PATH}
    else if s.Fetch? then {WORKDIR, S3_ENDPOINT, S3_BUCKET, S3_PATH}
    else if s.PgRestore? then {WORKDIR, PGHOST, PGPORT, PGDATABASE}
    else if s.MysqlRestore? then {WORKDIR, MYSQL_HOST, MYSQL_DATABASE}
    else if s.RedisRestore? then {WORKDIR, REDIS_HOST, REDIS_NAME}
    else {WORKDIR}
  }

  /** The variables are there and not empty. */
  ghost predicate Set(env: Env, vars: set<Var>) {
    forall v :: v in vars ==> v in env && env[v] != ""
  }

  lemma FirstStays(x: Env, y: Env, z: Env, v: Var)
    requires v in x && v !in y && v !in z
    ensures v in x + y + z && (x + y + z)[v] == x[v]
  {
  }

  lemma LastWins(x: Env, y: Env)
    ensures forall v :: v in y ==> v in x + y && (x + y)[v] == y[v]
    ensures forall v :: v in x && v !in y ==> v in x + y && (x + y)[v] == x[v]
  {
  }

  function DatabaseVars(e: Engine): set<Var> {
    match Effective(e)
    case MariaDB => {MYSQL_HOST, MYSQL_PORT, MYSQL_DATABASE}
    case Redis => {REDIS_HOST, REDIS_PORT, REDIS_NAME}
    case _ => {PGHOST, PGPORT, PGDATABASE}
  }

  lemma DatabaseIsSet(c: Common)
    requires c.database.host != "" && c.database.name != ""
    ensures DatabaseEnv(c).Keys == DatabaseVars(c.engine) && Set(DatabaseEnv(c), DatabaseVars(c.engine))
  {
  }

  function SourceVars(e: Engine): set<Var> {
    if Effective(e).Pvc? then {PVC_CLAIM_NAME, PVC_SOURCE_DIR} else DatabaseVars(e)
  }

  lemma SourceIsSet(b: Backup)
    requires ValidateSource(b).None?
    ensures SourceVars(b.c.engine) <= SourceEnv(b).Keys && Set(SourceEnv(b), SourceVars(b.c.engine))
    ensures SourceEnv(b).Keys <= SourceVars(b.c.engine) + {PVC_PATH, PVC_EXCLUDES}
  {
    if !Effective(b.c.engine).Pvc? {
      DatabaseIsSet(b.c);
    }
  }

  lemma BackupSourceIsSet(b: Backup, fl: Flags)
    requires ValidateSource(b).None?
    ensures Set(BackupEnv(b, fl), SourceVars(b.c.engine))
  {
    SourceIsSet(b);
    LastWins(BackupBase(b) + BackupS3Env(b.c, fl), SourceEnv(b));
  }

  lemma BackupDirIsSet(b: Backup, fl: Flags)
    requires ValidateSource(b).None?
    ensures Set(BackupEnv(b, fl), {DATA_DIR})
  {
    var base, s3, source := BackupBase(b), BackupS3Env(b.c, fl), SourceEnv(b);
    SourceIsSet(b);
    assert DATA_DIR !in s3 && base[DATA_DIR] == BackupDir(b) != "";
    FirstStays(base, s3, source, DATA_DIR);
  }

  lemma BackupPathIsSet(b: Backup, fl: Flags)
    requires ValidateSource(b).None? && b.c.s3.path != "" && S3On(b.c)
    ensures Set(BackupEnv(b, fl), {S3_PATH})
  {
    var base, s3, source := BackupBase(b), BackupS3Env(b.c, fl), SourceEnv(b);
    SourceIsSet(b);
    assert S3_PATH in s3 && s3[S3_PATH] == b.c.s3.path;
    LastWins(base, s3);
    LastWins(base + s3, source);
  }

  lemma BackupEnvIsSet(b: Backup, fl: Flags)
    requires ValidateBackup(b).None? && (S3On(b.c) ==> S3EnvOk(BackupEnv(b, fl)))
    ensures Set(BackupEnv(b, fl), {DATA_DIR} + SourceVars(b.c.engine))
    ensures S3On(b.c) ==> Set(BackupEnv(b, fl), {S3_ENDPOINT, S3_BUCKET, S3_PATH})
  {
    BackupSourceIsSet(b, fl);
    BackupDirIsSet(b, fl);
    if S3On(b.c) {
      BackupPathIsSet(b, fl);
    }
  }

  /** Each script of a backup pod needs the data directory, and what its stage is about. */
  lemma BackupNeeds(b: Backup, i: nat)
    requires i < |BackupScripts(b)|
    ensures Needs(BackupScripts(b)[i]) <=
            {DATA_DIR} + (if i == 1 then SourceVars(b.c.engine) else {})
            + (if i == 4 then {S3_ENDPOINT, S3_BUCKET, S3_PATH} else {})
  {
  }

  lemma RestoreDatabaseIsSet(r: Restore, fl: Flags)
    requires r.c.database.host != "" && r.c.database.name != ""
    ensures Set(RestoreEnv(r, fl), DatabaseVars(r.c.engine))
  {
    var before, db, pg := RestoreBase(r) + S3Env(r.c, fl), DatabaseEnv(r.c), PostgresEnv(r);
    DatabaseIsSet(r.c);
    assert pg.Keys <= {PG_OWNER_ROLE, STRIP_PGAUDIT_EXTENSION};
    LastWins(before, db);
    LastWins(before + db, pg);
  }

  lemma RestoreDirIsSet(r: Restore, fl: Flags)
    requires r.c.database.host != "" && r.c.database.name != ""
    ensures Set(RestoreEnv(r, fl), {WORKDIR})
  {
    var base, s3, db, pg := RestoreBase(r), S3Env(r.c, fl), DatabaseEnv(r.c), PostgresEnv(r);
    DatabaseIsSet(r.c);
    assert pg.Keys <= {PG_OWNER_ROLE, STRIP_PGAUDIT_EXTENSION};
    assert WORKDIR in base && base[WORKDIR] == RestoreDir(r) != "" && WORKDIR !in s3;
    FirstStays(base, s3, db, WORKDIR);
    LastWins(base + s3 + db, pg);
  }

  lemma RestorePathIsSet(r: Restore, fl: Flags)
    requires r.c.database.host != "" && r.c.database.name != "" && r.c.s3.path != ""
    ensures Set(RestoreEnv(r, fl), {S3_PATH})
  {
    var base, s3, db, pg := RestoreBase(r), S3Env(r.c, fl), DatabaseEnv(r.c), PostgresEnv(r);
    DatabaseIsSet(r.c);
    assert pg.Keys <= {PG_OWNER_ROLE, STRIP_PGAUDIT_EXTENSION};
    assert S3_PATH in s3 && s3[S3_PATH] == r.c.s3.path;
    LastWins(base, s3);
    FirstStays(base + s3, db, pg, S3_PATH);
  }

  lemma RestoreEnvIsSet(r: Restore, fl: Flags)
    requires ValidateRestore(r).None? && S3EnvOk(RestoreEnv(r, fl))
    ensures Set(RestoreEnv(r, fl), {WORKDIR, S3_ENDPOINT, S3_BUCKET, S3_PATH})
    ensures Set(RestoreEnv(r, fl), DatabaseVars(r.c.engine))
  {
    RestoreDirIsSet(r, fl);
    RestorePathIsSet(r, fl);
    RestoreDatabaseIsSet(r, fl);
  }

  lemma RestoreNeeds(r: Restore, i: nat)
    requires i < 5
    ensures Needs(RestoreScripts(r)[i]) <=
            {WORKDIR} + (if i == 1 then {S3_ENDPOINT, S3_BUCKET, S3_PATH} else {})
            + (if i == 4 then DatabaseVars(r.c.engine) else {})
  {
  }

  predicate Declared(volumes: seq<Volume>, name: VolumeName) {
    exists i :: 0 <= i < |volumes| && volumes[i].name == name
  }

  /** Every mount names a declared volume, and no name is declared twice. */
  ghost predicate MountsClosed(p: Pod) {
    && (forall i, j :: 0 <= i < |p.containers| && 0 <= j < |p.containers[i].mounts| ==>
          Declared(p.volumes, p.containers[i].mounts[j].volume))
    && (forall i, j :: 0 <= i < j < |p.volumes| ==> p.volumes[i].name != p.volumes[j].name)
  }

  /** Standard containers are closed under volumes of the matching form. */
  lemma StandardIsClosed(p: Pod, scripts: seq<Script>, kit: Kit, source: bool)
    requires AllStandard(p.containers, scripts, kit) && (PvcDump in scripts ==> source)
    requires kit.scratch.volume == DataVolume || kit.scratch.volume == WorkVolume
    requires |p.volumes| == if source then 4 else 3
    requires p.volumes[0].name == kit.scratch.volume && p.volumes[1].name == TmpVolume && p.volumes[2].name == GpgVolume
    requires source ==> p.volumes[3].name == SourceVolume
    ensures MountsClosed(p)
  {
  }

  lemma BackupSettings(b: Backup, fl: Flags, scripts: seq<Script>, env: Env)
    requires ValidateBackup(b).None? && (S3On(b.c) ==> S3EnvOk(BackupEnv(b, fl)))
    requires scripts == BackupScripts(b) && env == BackupEnv(b, fl)
    ensures forall s :: s in scripts ==> Set(env, Needs(s))
  {
    BackupEnvIsSet(b, fl);
    forall i: nat | i < |scripts| ensures Set(env, Needs(scripts[i])) {
      BackupNeeds(b, i);
    }
  }

  lemma RestoreSettings(r: Restore, fl: Flags, scripts: seq<Script>, env: Env)
    requires ValidateRestore(r).None? && S3EnvOk(RestoreEnv(r, fl))
    requires scripts == RestoreScripts(r) && env == RestoreEnv(r, fl)
    ensures forall s :: s in scripts ==> Set(env, Needs(s))
  {
    RestoreEnvIsSet(r, fl);
    forall i: nat | i < 5 ensures Set(env, Needs(scripts[i])) {
      RestoreNeeds(r, i);
    }
  }

  /**
    A validated Backup whose config map is accepted compiles to a closed pod: every container
    is the one its script has to run in, every setting a script needs is there and not empty,
    and every mount names a declared volume.
  */
  lemma BackupPodIsClosed(b: Backup, fl: Flags)
    requires ValidateBackup(b).None? && (S3On(b.c) ==> S3EnvOk(BackupEnv(b, fl)))
    ensures AllStandard(BackupPod(b).containers, BackupScripts(b), BackupKit(b))
    ensures forall s :: s in BackupScripts(b) ==> Set(BackupEnv(b, fl), Needs(s))
    ensures MountsClosed(BackupPod(b))
  {
    BackupIsStandard(b);
    BackupSettings(b, fl, BackupScripts(b), BackupEnv(b, fl));
    BackupMountsClosed(b);
  }

  lemma BackupMountsClosed(b: Backup)
    ensures MountsClosed(BackupPod(b))
  {
    BackupIsStandard(b);
    StandardIsClosed(BackupPod(b), BackupScripts(b), BackupKit(b), Effective(b.c.engine).Pvc?);
  }

  /** And so does a validated Restore. */
  lemma RestorePodIsClosed(r: Restore, fl: Flags)
    requires ValidateRestore(r).None? && S3EnvOk(RestoreEnv(r, fl))
    ensures AllStandard(RestorePod(r).containers, RestoreScripts(r), RestoreKit(r))
    ensures forall s :: s in RestoreScripts(r) ==> Set(RestoreEnv(r, fl), Needs(s))
    ensures MountsClosed(RestorePod(r))
  {
    RestoreIsStandard(r);
    RestoreSettings(r, fl, RestoreScripts(r), RestoreEnv(r, fl));
    StandardIsClosed(RestorePod(r), RestoreScripts(r), RestoreKit(r), false);
  }

  /**
    Where `retained/` is the copy of record, or a holder keeps the volume attached, the scratch
    volume is the CR's own claim; and the source of a PVC backup can only be read.
  */
  lemma BackupStorage(b: Backup)
    requires ValidateBackup(b).None?
    ensures !S3On(b.c) || NeedsHolder(b.c) ==>
              BackupPod(b).volumes[0] == Volume(DataVolume, ClaimSource(OwnedName(CrKind.Backup, b.c.name), false))
    ensures forall c, m :: c in BackupPod(b).containers && m in c.mounts && m.volume == SourceVolume ==>
              c.script == PvcDump && m.readOnly
    ensures forall v :: v in BackupVolumes(b) && v.name == SourceVolume ==>
              b.pvc.Some? && b.pvc.value.claim != "" && v.source == ClaimSource(b.pvc.value.claim, true)
  {
    BackupIsStandard(b);
    SourceMounts(BackupPod(b).containers, BackupScripts(b), BackupKit(b));
  }

  lemma SourceMounts(cs: seq<Container>, scripts: seq<Script>, kit: Kit)
    requires AllStandard(cs, scripts, kit) && kit.scratch.volume != SourceVolume
    ensures forall c, m :: c in cs && m in c.mounts && m.volume == SourceVolume ==> c.script == PvcDump && m.readOnly
  {
  }

  // ------------------------------------------------------------------ file names

  /** The engine whose file names a dump script writes. */
  function DumpsAs(s: Script): Names.Format {
    match s
    case MysqlDump => Names.MariaDB
    case RedisDump => Names.Redis
    case PvcDump => Names.Volume
    case _ => Names.Postgres
  }

  /** The `case "${DUMP_PREFIX}"` of compress.sh, encrypt.sh, s3-sync.sh and cleanup.sh. */
  function GlobsAs(prefix: string): Names.Format {
    if prefix == "mysqldump" then Names.MariaDB
    else if prefix == "redisdump" then Names.Redis
    else if prefix == "pvcdump" then Names.Volume
    else Names.Postgres
  }

  lemma PrefixesDiffer(e: Engine)
    ensures GlobsAs(DumpPrefix(e)) == match Effective(e)
                                      case MariaDB => Names.MariaDB
                                      case Redis => Names.Redis
                                      case Pvc => Names.Volume
                                      case _ => Names.Postgres
  {
    assert "mysqldump"[0] == 'm' && "redisdump"[0] == 'r' && "pvcdump"[1] == 'v' && "pg_dump"[1] == 'g';
  }

  /** What the dump container writes is what every later stage's pattern matches. */
  lemma StagesFindTheDump(b: Backup, fl: Flags, db: string, t: Names.Stamp, suffix: string)
    ensures var e := DumpsAs(BackupContainers(b)[1].script);
            Names.EngineGlob(GlobsAs(BackupEnv(b, fl)[DUMP_PREFIX]), suffix,
                             Names.ObjectName(Names.Prefix(e), db, t, Names.Extension(e)) + suffix)
  {
    var e := DumpsAs(BackupContainers(b)[1].script);
    BackupIsStandard(b);
    assert DUMP_PREFIX in BackupBase(b) && DUMP_PREFIX !in BackupS3Env(b.c, fl) && DUMP_PREFIX !in SourceEnv(b);
    PrefixesDiffer(b.c.engine);
    assert GlobsAs(BackupEnv(b, fl)[DUMP_PREFIX]) == e;
    Names.GlobsFollowTheFile(e, db, t, suffix);
  }

  // ------------------------------------------------------------------ affinity

  predicate Selects(selector: Labels, labels: Labels) {
    forall k :: k in selector ==> k in labels && labels[k] == selector[k]
  }

  /** The affinity of a CR's Job pods selects that CR's holder pod, no other holder, and no Job pod of any CR. */
  lemma AffinityFindsTheHolder(kind: CrKind, name: string, other: CrKind, c: Common)
    ensures Selects(HolderSelector(kind, name), HolderLabels(other, c)) <==> kind == other && name == c.name
    ensures !Selects(HolderSelector(kind, name), LabelsOf(other, c))
  {
    assert RuntimeRole in HolderSelector(kind, name) && RuntimeRole !in LabelsOf(other, c);
    assert CrLabel(kind) in HolderSelector(kind, name) && HolderSelector(kind, name)[CrLabel(kind)] == name;
  }
}
