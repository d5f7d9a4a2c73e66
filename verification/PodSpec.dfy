/**
  From a CR to the objects of its pipeline: the specs and their validation, the environment,
  the containers, volumes, labels and affinity that the resource builders write.  Images,
  resource requests and security contexts are not part of this model.
*/
module PodSpec {
  import opened Wrappers
  import opened OwnedNames
  import opened SourcePath

  // ------------------------------------------------------------------ specs

  datatype Engine = Unset | Postgres | MariaDB | Redis | Pvc | Unknown(name: string)

  datatype Database = Database(host: string, name: string, port: int)
  datatype S3 = S3(enabled: Option<bool>, endpoint: string, bucket: string, path: string, retentionDays: Option<int>)
  datatype JobPolicy = JobPolicy(concurrency: string, restart: string)

  /** `consumers` stands for a label selector; the cluster decides which pods it selects. */
  datatype PvcSource = PvcSource(claim: string, path: string, excludes: seq<string>, consumers: Option<nat>)

  datatype SecretKeys = SecretKeys(name: string, userKey: string, passKey: string)

  /**
    The fields a Backup and a Restore share.  `scheduleOk` is the verdict of the cron parser,
    `persistent` is spec.persistence.enabled, `dataDir` is spec.dataDir or spec.workdir.
  */
  datatype Common = Common(
    name: string, component: string, scheduleOk: bool, engine: Engine, database: Database, s3: S3,
    persistent: Option<bool>, secret: string, job: Option<JobPolicy>, mode: string,
    dataDir: string, mcDir: string, logFile: Option<bool>)

  /** `selectorOk` is the verdict of the label-selector parser. */
  datatype Backup = Backup(c: Common, pvc: Option<PvcSource>, selectorOk: bool, localDays: Option<int>)

  datatype Restore = Restore(
    c: Common, pgSecret: Option<SecretKeys>, mariaSecret: Option<SecretKeys>, redisSecret: Option<SecretKeys>,
    backupFile: string, fallback: Option<bool>, drop: Option<bool>, stripPgAudit: Option<bool>, ownerRole: string)

  /** Operator flags. */
  datatype Flags = Flags(s3Endpoint: string, s3Bucket: string)

  function Deref<T>(o: Option<T>, default: T): T {
    if o.Some? then o.value else default
  }

  function FirstNonEmpty(a: string, b: string): string {
    if a != "" then a else b
  }

  function Effective(e: Engine): Engine {
    if e.Unset? then Postgres else e
  }

  predicate S3On(c: Common) {
    Deref(c.s3.enabled, true)
  }

  predicate Persistent(c: Common) {
    Deref(c.persistent, true)
  }

  const CRON_JOB := "CronJob"
  const WITH_HOLDER := "CronJobWithVolumeHolder"

  predicate NeedsHolder(c: Common) {
    FirstNonEmpty(c.mode, CRON_JOB) == WITH_HOLDER
  }

  // ------------------------------------------------------------------ validation

  datatype Flaw =
    | BadSchedule | NoClaim | BadPath | BadExcludes | BadSelector | StrayPvc | NoHost | NoDatabase | NoS3Path
    | NothingKept | NoSecret | BadConcurrency | BadRestart | HolderNeedsClaim | BadMode
    | PvcIsBackupOnly | S3Required | NoTargetSecret

  function ValidatePvc(pvc: Option<PvcSource>, selectorOk: bool): Option<Flaw> {
    if pvc.None? || pvc.value.claim == "" then Some(NoClaim)
    else if !ValidPath(pvc.value.path) then Some(BadPath)
    else if !ValidExcludes(pvc.value.excludes) then Some(BadExcludes)
    else if pvc.value.consumers.Some? && !selectorOk then Some(BadSelector)
    else None
  }

  function ValidateJob(job: Option<JobPolicy>): Option<Flaw> {
    if job.None? then None
    else if job.value.concurrency !in ["", "Allow", "Forbid", "Replace"] then Some(BadConcurrency)
    else if job.value.restart !in ["", "Always", "OnFailure", "Never"] then Some(BadRestart)
    else None
  }

  function ValidateRuntime(c: Common): Option<Flaw> {
    if FirstNonEmpty(c.mode, CRON_JOB) == CRON_JOB then None
    else if !NeedsHolder(c) then Some(BadMode)
    else if !Persistent(c) then Some(HolderNeedsClaim)
    else None
  }

  function ValidateTail(c: Common): Option<Flaw> {
    var job := ValidateJob(c.job);
    if job.Some? then job else ValidateRuntime(c)
  }

  function ValidateSource(b: Backup): Option<Flaw> {
    if b.c.engine.Pvc? then ValidatePvc(b.pvc, b.selectorOk)
    else if b.pvc.Some? then Some(StrayPvc)
    else if b.c.database.host == "" then Some(NoHost)
    else if b.c.database.name == "" then Some(NoDatabase)
    else None
  }

  function ValidateBackup(b: Backup): Option<Flaw> {
    var source := ValidateSource(b);
    if !b.c.scheduleOk then Some(BadSchedule)
    else if source.Some? then source
    else if S3On(b.c) && b.c.s3.path == "" then Some(NoS3Path)
    else if !S3On(b.c) && b.c.persistent == Some(false) then Some(NothingKept)
    else if b.c.secret == "" then Some(NoSecret)
    else ValidateTail(b.c)
  }

  function TargetSelector(r: Restore, e: Engine): Option<SecretKeys> {
    match e
    case MariaDB => r.mariaSecret
    case Redis => r.redisSecret
    case _ => r.pgSecret
  }

  function ValidateRestore(r: Restore): Option<Flaw> {
    var target := TargetSelector(r, r.c.engine);
    if !r.c.scheduleOk then Some(BadSchedule)
    else if r.c.engine.Pvc? then Some(PvcIsBackupOnly)
    else if r.c.database.host == "" then Some(NoHost)
    else if r.c.database.name == "" then Some(NoDatabase)
    else if !S3On(r.c) then Some(S3Required)
    else if r.c.s3.path == "" then Some(NoS3Path)
    else if r.c.secret == "" then Some(NoSecret)
    else if target.None? || target.value.name == "" then Some(NoTargetSecret)
    else ValidateTail(r.c)
  }

  // ------------------------------------------------------------------ environment

  datatype Var =
    | ENGINE | DUMP_PREFIX | DATA_DIR | MC_CONFIG_DIR | LOCAL_RETENTION_DAYS | S3_ENABLED | LOG_FILE_ENABLED
    | S3_ENDPOINT | S3_BUCKET | S3_PATH | S3_RETENTION_DAYS
    | MYSQL_HOST | MYSQL_PORT | MYSQL_DATABASE | REDIS_HOST | REDIS_PORT | REDIS_NAME | PGHOST | PGPORT | PGDATABASE
    | PVC_CLAIM_NAME | PVC_SOURCE_DIR | PVC_PATH | PVC_EXCLUDES
    | WORKDIR | BACKUP_FILE | USE_LATEST_BACKUP_AS_FALLBACK | DROP_DATABASE_IF_EXISTS | PG_OWNER_ROLE
    | STRIP_PGAUDIT_EXTENSION
    | PGUSER | PGPASSWORD | MYSQL_USER | MYSQL_PASSWORD | REDIS_USERNAME | REDIS_PASSWORD
    | S3_ACCESS_KEY | S3_SECRET_KEY

  type Env = map<Var, string>

  /** Where a container mounts a volume: one of the fixed paths, or a path of the spec. */
  datatype MountPath = MountData | MountTmp | MountGpg | MountSource | MountAt(dir: string)

  function Path(m: MountPath): string {
    match m
    case MountData => "/backup/data"
    case MountTmp => "/tmp"
    case MountGpg => "/run/secrets/gpg"
    case MountSource => "/source"
    case MountAt(dir) => dir
  }

  const DEFAULT_WORKDIR := "/workdir"
  const DEFAULT_MC_DIR := "/tmp/mc-config"

  function BoolEnv(o: Option<bool>, default: bool): string {
    if Deref(o, default) then "true" else "false"
  }

  /** Decimal notation, as strconv.Itoa prints it. */
  function Itoa(n: int): (s: string)
    ensures s != ""
    decreases if n < 0 then 1 - n else n
  {
    if n < 0 then "-" + Itoa(-n)
    else if n < 10 then ["0123456789"[n]]
    else Itoa(n / 10) + ["0123456789"[n % 10]]
  }

  function EngineString(e: Engine): string {
    match e
    case Unset => ""
    case Postgres => "postgres"
    case MariaDB => "mariadb"
    case Redis => "redis"
    case Pvc => "pvc"
    case Unknown(name) => name
  }

  function DumpPrefix(e: Engine): string {
    match Effective(e)
    case MariaDB => "mysqldump"
    case Redis => "redisdump"
    case Pvc => "pvcdump"
    case _ => "pg_dump"
  }

  function Port(c: Common): string {
    Itoa(if c.database.port > 0 then c.database.port
         else match Effective(c.engine)
              case MariaDB => 3306
              case Redis => 6379
              case _ => 5432)
  }

  function DatabaseEnv(c: Common): Env {
    match Effective(c.engine)
    case MariaDB => map[MYSQL_HOST := c.database.host, MYSQL_PORT := Port(c), MYSQL_DATABASE := c.database.name]
    case Redis => map[REDIS_HOST := c.database.host, REDIS_PORT := Port(c), REDIS_NAME := c.database.name]
    case _ => map[PGHOST := c.database.host, PGPORT := Port(c), PGDATABASE := c.database.name]
  }

  function Source(b: Backup): PvcSource {
    Deref(b.pvc, PvcSource("", "", [], None))
  }

  function SourceEnv(b: Backup): Env {
    if Effective(b.c.engine).Pvc? then
      map[PVC_CLAIM_NAME := Source(b).claim, PVC_SOURCE_DIR := Path(MountSource),
          PVC_PATH := SourceSubPath(Source(b).path), PVC_EXCLUDES := Join(Source(b).excludes, '\n')]
    else DatabaseEnv(b.c)
  }

  function S3Env(c: Common, fl: Flags): Env {
    map[S3_ENDPOINT := FirstNonEmpty(c.s3.endpoint, fl.s3Endpoint),
        S3_BUCKET := FirstNonEmpty(c.s3.bucket, fl.s3Bucket), S3_PATH := c.s3.path]
  }

  function BackupDir(b: Backup): string {
    FirstNonEmpty(b.c.dataDir, Path(MountData))
  }

  function BackupBase(b: Backup): Env {
    map[ENGINE := EngineString(Effective(b.c.engine)), DUMP_PREFIX := DumpPrefix(b.c.engine),
        DATA_DIR := BackupDir(b), MC_CONFIG_DIR := FirstNonEmpty(b.c.mcDir, DEFAULT_MC_DIR),
        LOCAL_RETENTION_DAYS := Itoa(Deref(b.localDays, 7)),
        S3_ENABLED := BoolEnv(b.c.s3.enabled, true), LOG_FILE_ENABLED := BoolEnv(b.c.logFile, false)]
  }

  function BackupS3Env(c: Common, fl: Flags): Env {
    if S3On(c) then S3Env(c, fl)[S3_RETENTION_DAYS := Itoa(Deref(c.s3.retentionDays, 14))] else map[]
  }

  function BackupEnv(b: Backup, fl: Flags): Env {
    BackupBase(b) + BackupS3Env(b.c, fl) + SourceEnv(b)
  }

  function RestoreDir(r: Restore): string {
    FirstNonEmpty(r.c.dataDir, DEFAULT_WORKDIR)
  }

  function RestoreBase(r: Restore): Env {
    map[ENGINE := EngineString(Effective(r.c.engine)), DUMP_PREFIX := DumpPrefix(r.c.engine),
        WORKDIR := RestoreDir(r), MC_CONFIG_DIR := FirstNonEmpty(r.c.mcDir, DEFAULT_MC_DIR),
        BACKUP_FILE := r.backupFile,
        USE_LATEST_BACKUP_AS_FALLBACK := BoolEnv(r.fallback, true),
        DROP_DATABASE_IF_EXISTS := BoolEnv(r.drop, true), LOG_FILE_ENABLED := BoolEnv(r.c.logFile, false)]
  }

  function PostgresEnv(r: Restore): Env {
    if Effective(r.c.engine).MariaDB? || Effective(r.c.engine).Redis? then map[]
    else map[PG_OWNER_ROLE := FirstNonEmpty(r.ownerRole, r.c.database.name),
             STRIP_PGAUDIT_EXTENSION := BoolEnv(r.stripPgAudit, true)]
  }

  function RestoreEnv(r: Restore, fl: Flags): Env {
    RestoreBase(r) + S3Env(r.c, fl) + DatabaseEnv(r.c) + PostgresEnv(r)
  }

  /** The config map's own check. */
  predicate S3EnvOk(env: Env) {
    S3_ENDPOINT in env && env[S3_ENDPOINT] != "" && S3_BUCKET in env && env[S3_BUCKET] != ""
  }

  // ------------------------------------------------------------------ pods

  datatype Script =
    | BackupCleanup | PgDump | MysqlDump | RedisDump | PvcDump | Compress | Encrypt | S3Sync
    | RestoreCleanup | Fetch | DecryptDump | Extract | PgRestore | MysqlRestore | RedisRestore

  datatype VolumeName = DataVolume | WorkVolume | TmpVolume | GpgVolume | SourceVolume

  datatype Mount = Mount(volume: VolumeName, path: MountPath, readOnly: bool)
  datatype SecretEnv = SecretEnv(name: Var, secret: string, key: string)
  datatype Container = Container(script: Script, configMap: string, env: seq<SecretEnv>, mounts: seq<Mount>)

  datatype VolumeSource =
    | ClaimSource(claim: string, readOnly: bool)
    | EmptyDir
    | SecretSource(secret: string, key: string)
  datatype Volume = Volume(name: VolumeName, source: VolumeSource)

  /** The label keys of labels.go. */
  datatype LabelKey =
    | AppName | AppInstance | AppComponent | AppManagedBy | AppPartOf
    | BackupName | RestoreName | EngineLabel | KindLabel | RuntimeRole

  type Labels = map<LabelKey, string>

  /** A required pod-affinity term on the node's host name. */
  datatype Term = ByLabels(labels: Labels) | Consumers(id: nat)

  datatype Pod = Pod(
    labels: Labels, concurrency: string, restart: string, affinity: seq<Term>,
    containers: seq<Container>, volumes: seq<Volume>)

  function ScriptContainer(s: Script, cm: string, volume: VolumeName, path: MountPath): Container {
    Container(s, cm, [], [Mount(volume, path, false), Mount(TmpVolume, MountTmp, false)])
  }

  function WithEnv(c: Container, env: seq<SecretEnv>): Container {
    c.(env := c.env + env)
  }

  function WithMount(c: Container, m: Mount): Container {
    c.(mounts := c.mounts + [m])
  }

  function Login(user: Var, pass: Var, k: SecretKeys): seq<SecretEnv> {
    [SecretEnv(user, k.name, k.userKey), SecretEnv(pass, k.name, k.passKey)]
  }

  const GPG_KEY := "gpg_passphrase"
  const LOGIN_KEYS := ["username", "password"]
  const S3_KEYS := ["s3_access_key", "s3_secret_key"]

  function S3Login(secret: string): seq<SecretEnv> {
    [SecretEnv(S3_ACCESS_KEY, secret, S3_KEYS[0]), SecretEnv(S3_SECRET_KEY, secret, S3_KEYS[1])]
  }

  function DumpContainer(b: Backup, cm: string): Container {
    var login := SecretKeys(b.c.secret, LOGIN_KEYS[0], LOGIN_KEYS[1]);
    match Effective(b.c.engine)
    case MariaDB =>
      WithEnv(ScriptContainer(MysqlDump, cm, DataVolume, MountData), Login(MYSQL_USER, MYSQL_PASSWORD, login))
    case Redis =>
      WithEnv(ScriptContainer(RedisDump, cm, DataVolume, MountData), Login(REDIS_USERNAME, REDIS_PASSWORD, login))
    case Pvc => WithMount(ScriptContainer(PvcDump, cm, DataVolume, MountData), Mount(SourceVolume, MountSource, true))
    case _ => WithEnv(ScriptContainer(PgDump, cm, DataVolume, MountData), Login(PGUSER, PGPASSWORD, login))
  }

  function BackupContainers(b: Backup): seq<Container> {
    var cm := OwnedName(CrKind.Backup, b.c.name);
    [ScriptContainer(BackupCleanup, cm, DataVolume, MountData),
     DumpContainer(b, cm),
     ScriptContainer(Compress, cm, DataVolume, MountData),
     WithMount(ScriptContainer(Encrypt, cm, DataVolume, MountData), Mount(GpgVolume, MountGpg, true))]
    + if S3On(b.c) then [WithEnv(ScriptContainer(S3Sync, cm, DataVolume, MountData), S3Login(b.c.secret))] else []
  }

  function Scratch(c: Common, name: VolumeName, owned: string): Volume {
    Volume(name, if Persistent(c) then ClaimSource(owned, false) else EmptyDir)
  }

  function Passphrase(c: Common): Volume {
    Volume(GpgVolume, SecretSource(c.secret, GPG_KEY))
  }

  function BackupVolumes(b: Backup): seq<Volume> {
    [Scratch(b.c, DataVolume, OwnedName(CrKind.Backup, b.c.name)), Volume(TmpVolume, EmptyDir), Passphrase(b.c)]
    + if Effective(b.c.engine).Pvc? then [Volume(SourceVolume, ClaimSource(Source(b).claim, true))] else []
  }

  function TargetSecret(r: Restore): SecretKeys {
    var default := match Effective(r.c.engine)
                   case MariaDB => "mariadb"
                   case Redis => "redis"
                   case _ => "postgres";
    var s := TargetSelector(r, Effective(r.c.engine));
    if s.None? then SecretKeys(default, LOGIN_KEYS[0], LOGIN_KEYS[1])
    else SecretKeys(FirstNonEmpty(s.value.name, default), FirstNonEmpty(s.value.userKey, LOGIN_KEYS[0]),
                    FirstNonEmpty(s.value.passKey, LOGIN_KEYS[1]))
  }

  function EngineContainer(r: Restore, cm: string): Container {
    var dir := MountAt(RestoreDir(r));
    match Effective(r.c.engine)
    case MariaDB =>
      WithEnv(ScriptContainer(MysqlRestore, cm, WorkVolume, dir), Login(MYSQL_USER, MYSQL_PASSWORD, TargetSecret(r)))
    case Redis =>
      WithEnv(ScriptContainer(RedisRestore, cm, WorkVolume, dir),
              Login(REDIS_USERNAME, REDIS_PASSWORD, TargetSecret(r)))
    case _ => WithEnv(ScriptContainer(PgRestore, cm, WorkVolume, dir), Login(PGUSER, PGPASSWORD, TargetSecret(r)))
  }

  function RestoreContainers(r: Restore): seq<Container> {
    var cm, dir := OwnedName(CrKind.Restore, r.c.name), MountAt(RestoreDir(r));
    [ScriptContainer(RestoreCleanup, cm, WorkVolume, dir),
     WithEnv(ScriptContainer(Fetch, cm, WorkVolume, dir), S3Login(r.c.secret)),
     WithMount(ScriptContainer(DecryptDump, cm, WorkVolume, dir), Mount(GpgVolume, MountGpg, true)),
     ScriptContainer(Extract, cm, WorkVolume, dir),
     EngineContainer(r, cm)]
  }

  function RestoreVolumes(r: Restore): seq<Volume> {
    [Scratch(r.c, WorkVolume, OwnedName(CrKind.Restore, r.c.name)), Volume(TmpVolume, EmptyDir), Passphrase(r.c)]
  }

  // ------------------------------------------------------------------ labels and affinity

  const HOLDER_ROLE := "volume-holder"

  function KindString(kind: CrKind): string {
    match kind
    case Backup => "backup"
    case Restore => "restore"
  }

  function CrLabel(kind: CrKind): LabelKey {
    match kind
    case Backup => BackupName
    case Restore => RestoreName
  }

  /** The labels of every object of a CR, its Job pods included. */
  function LabelsOf(kind: CrKind, c: Common): Labels {
    map[AppName := c.name, AppInstance := c.name, AppComponent := FirstNonEmpty(c.component, c.name),
        AppManagedBy := "karkive", AppPartOf := "karkive", CrLabel(kind) := c.name,
        EngineLabel := EngineString(Effective(c.engine)), KindLabel := KindString(kind)]
  }

  /** The labels of a CR's holder pod. */
  function HolderLabels(kind: CrKind, c: Common): Labels {
    LabelsOf(kind, c)[RuntimeRole := HOLDER_ROLE]
  }

  /** What selects a CR's holder pod, in its Deployment and in the Job pods' affinity. */
  function HolderSelector(kind: CrKind, name: string): Labels {
    map[KindLabel := KindString(kind), RuntimeRole := HOLDER_ROLE, CrLabel(kind) := name]
  }

  function HolderTerms(kind: CrKind, c: Common): seq<Term> {
    if NeedsHolder(c) then [ByLabels(HolderSelector(kind, c.name))] else []
  }

  function ConsumerTerms(b: Backup): seq<Term> {
    if Effective(b.c.engine).Pvc? && b.pvc.Some? && b.pvc.value.consumers.Some?
    then [Consumers(b.pvc.value.consumers.value)] else []
  }

  function Concurrency(c: Common): string {
    FirstNonEmpty(Deref(c.job, JobPolicy("", "")).concurrency, "Forbid")
  }

  function RestartPolicy(c: Common): string {
    FirstNonEmpty(Deref(c.job, JobPolicy("", "")).restart, "Never")
  }

  function BackupPod(b: Backup): Pod {
    Pod(LabelsOf(CrKind.Backup, b.c), Concurrency(b.c), RestartPolicy(b.c),
        HolderTerms(CrKind.Backup, b.c) + ConsumerTerms(b), BackupContainers(b), BackupVolumes(b))
  }

  function RestorePod(r: Restore): Pod {
    Pod(LabelsOf(CrKind.Restore, r.c), Concurrency(r.c), RestartPolicy(r.c),
        HolderTerms(CrKind.Restore, r.c), RestoreContainers(r), RestoreVolumes(r))
  }
}
