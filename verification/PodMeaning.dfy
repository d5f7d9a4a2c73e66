/** What the pods of a CR say: whose Jobs they are, which logins they use, where they run and what they keep. */
module PodMeaning {
  import opened Wrappers
  import opened OwnedNames
  import opened PodSpec
  import Jobs = JobStatus

  // ------------------------------------------------------------------ labels

  /** The label keys as strings. */
  function KeyString(k: LabelKey): string {
    match k
    case AppName => "app.kubernetes.io/name"
    case AppInstance => "app.kubernetes.io/instance"
    case AppComponent => "app.kubernetes.io/component"
    case AppManagedBy => "app.kubernetes.io/managed-by"
    case AppPartOf => "app.kubernetes.io/part-of"
    case BackupName => "karkive.io/backup"
    case RestoreName => "karkive.io/restore"
    case EngineLabel => "karkive.io/engine"
    case KindLabel => "karkive.io/kind"
    case RuntimeRole => "karkive.io/runtime-role"
  }

  /** A Job labelled like this and not otherwise. */
  ghost predicate Carries(j: Jobs.Job, labels: Labels) {
    forall k :: if k in labels then KeyString(k) in j.labels && j.labels[KeyString(k)] == labels[k]
                else KeyString(k) !in j.labels
  }

  /** What a reconcile of a CR looks for. */
  function QueryOf(kind: CrKind, name: string, ns: string): Jobs.Query {
    Jobs.Query(ns, if kind.Backup? then "karkive.io/backup" else "karkive.io/restore", name,
               if kind.Backup? then "backup" else "restore")
  }

  lemma KindsDiffer()
    ensures "backup" != "restore"
  {
    assert "backup"[0] == 'b';
  }

  /** The recommended labels: the CR's name, and its component where it has one. */
  lemma RecommendedLabels(kind: CrKind, c: Common, j: Jobs.Job)
    requires Carries(j, LabelsOf(kind, c))
    ensures Jobs.Label(j, "app.kubernetes.io/name") == c.name && Jobs.Label(j, "app.kubernetes.io/instance") == c.name
    ensures Jobs.Label(j, "app.kubernetes.io/component") == if c.component != "" then c.component else c.name
    ensures Jobs.Label(j, "app.kubernetes.io/part-of") == "karkive"
  {
    var labels := LabelsOf(kind, c);
    assert AppName in labels && AppInstance in labels && AppComponent in labels && AppPartOf in labels;
    assert KeyString(AppName) in j.labels && KeyString(AppInstance) in j.labels;
    assert KeyString(AppComponent) in j.labels && KeyString(AppPartOf) in j.labels;
  }

  /** The labels that say whose Job it is. */
  lemma JobLabels(kind: CrKind, c: Common, j: Jobs.Job)
    requires Carries(j, LabelsOf(kind, c))
    ensures Jobs.Label(j, "app.kubernetes.io/managed-by") == "karkive"
    ensures Jobs.Label(j, "karkive.io/kind") == if kind.Backup? then "backup" else "restore"
    ensures Jobs.Label(j, "karkive.io/backup") == if kind.Backup? then c.name else ""
    ensures Jobs.Label(j, "karkive.io/restore") == if kind.Restore? then c.name else ""
  {
    var labels := LabelsOf(kind, c);
    assert AppManagedBy in labels && KindLabel in labels;
    assert BackupName in labels <==> kind.Backup?;
    assert RestoreName in labels <==> kind.Restore?;
    assert KeyString(AppManagedBy) in j.labels && KeyString(KindLabel) in j.labels;
    assert KeyString(BackupName) in j.labels <==> kind.Backup?;
    assert KeyString(RestoreName) in j.labels <==> kind.Restore?;
  }

  /**
    The Jobs of a CR are found by its own reconcile and by no other: not by one of the other
    kind, not by one of another name, not by one in another namespace.  The metrics collector
    lists them all.
  */
  lemma JobsAreFoundByTheirCr(kind: CrKind, c: Common, j: Jobs.Job, other: CrKind, name: string, ns: string)
    requires Carries(j, LabelsOf(kind, c)) && name != ""
    ensures Jobs.ControllerLists(QueryOf(other, name, ns), j) <==> kind == other && c.name == name && j.ns == ns
    ensures Jobs.Matches(QueryOf(other, name, ns), j) <==> kind == other && c.name == name && j.ns == ns
    ensures Jobs.CollectorLists(j)
  {
    JobLabels(kind, c, j);
    KindsDiffer();
  }

  // ------------------------------------------------------------------ policies

  /** What the spec asks for, and without it neither overlapping Jobs nor restarts in place. */
  ghost predicate KeepsPolicy(job: Option<JobPolicy>, concurrency: string, restart: string) {
    && concurrency == (if job.Some? && job.value.concurrency != "" then job.value.concurrency else "Forbid")
    && restart == (if job.Some? && job.value.restart != "" then job.value.restart else "Never")
    && (concurrency == "Forbid" || concurrency == "Allow" || concurrency == "Replace")
    && (restart == "Never" || restart == "OnFailure" || restart == "Always")
  }

  lemma PolicyIsKept(c: Common)
    requires ValidateJob(c.job).None?
    ensures KeepsPolicy(c.job, Concurrency(c), RestartPolicy(c))
  {
  }

  /** The policies of an accepted CR are its own or the defaults, and values the API knows. */
  lemma PoliciesAreKept(b: Backup, r: Restore)
    ensures ValidateJob(b.c.job).None? ==> KeepsPolicy(b.c.job, BackupPod(b).concurrency, BackupPod(b).restart)
    ensures ValidateJob(r.c.job).None? ==> KeepsPolicy(r.c.job, RestorePod(r).concurrency, RestorePod(r).restart)
  {
    if ValidateJob(b.c.job).None? {
      PolicyIsKept(b.c);
    }
    if ValidateJob(r.c.job).None? {
      PolicyIsKept(r.c);
    }
  }

  // ------------------------------------------------------------------ where the pods run

  /**
    A pod is bound to the node of its holder exactly if the mode asks for a holder, and a pod of
    a PVC backup to that of the source's consumers exactly if the spec selects them.
  */
  lemma AffinityFollowsTheSpec(b: Backup, r: Restore, t: Term)
    ensures t in BackupPod(b).affinity <==>
            || (b.c.mode == "CronJobWithVolumeHolder" && t == ByLabels(HolderSelector(CrKind.Backup, b.c.name)))
            || (b.c.engine == Pvc && b.pvc.Some? && b.pvc.value.consumers.Some?
                && t == Consumers(b.pvc.value.consumers.value))
    ensures t in RestorePod(r).affinity <==>
            r.c.mode == "CronJobWithVolumeHolder" && t == ByLabels(HolderSelector(CrKind.Restore, r.c.name))
  {
    assert "CronJob"[..7] != "CronJobWithVolumeHolder"[..8];
  }

  // ------------------------------------------------------------------ logins

  datatype Account = Account(secret: string, user: string, password: string)

  /** A setting taken from a Secret comes from the right key of the right one. */
  predicate Right(e: SecretEnv, s3: Account, db: Account) {
    match e.name
    case S3_ACCESS_KEY => e.secret == s3.secret && e.key == s3.user
    case S3_SECRET_KEY => e.secret == s3.secret && e.key == s3.password
    case PGUSER => e.secret == db.secret && e.key == db.user
    case MYSQL_USER => e.secret == db.secret && e.key == db.user
    case REDIS_USERNAME => e.secret == db.secret && e.key == db.user
    case PGPASSWORD => e.secret == db.secret && e.key == db.password
    case MYSQL_PASSWORD => e.secret == db.secret && e.key == db.password
    case REDIS_PASSWORD => e.secret == db.secret && e.key == db.password
    case _ => false
  }

  ghost predicate AllRight(env: seq<SecretEnv>, s3: Account, db: Account) {
    forall i :: 0 <= i < |env| ==> Right(env[i], s3, db)
  }

  ghost predicate LogsIn(cs: seq<Container>, s3: Account, db: Account) {
    forall i :: 0 <= i < |cs| ==> AllRight(cs[i].env, s3, db)
  }

  lemma PairIsRight(user: Var, password: Var, k: SecretKeys, s3: Account, db: Account)
    requires k == SecretKeys(db.secret, db.user, db.password)
    requires || (user.PGUSER? && password.PGPASSWORD?) || (user.MYSQL_USER? && password.MYSQL_PASSWORD?)
             || (user.REDIS_USERNAME? && password.REDIS_PASSWORD?)
    ensures AllRight(Login(user, password, k), s3, db)
  {
  }

  const USER_KEY := "username"
  const PASSWORD_KEY := "password"

  /** The S3 account of a CR, in its own Secret. */
  function S3Account(c: Common): Account {
    Account(c.secret, "s3_access_key", "s3_secret_key")
  }

  /** A backup pod logs in to the source and to S3 with the CR's Secret. */
  lemma BackupLogins(b: Backup)
    ensures LogsIn(BackupPod(b).containers, S3Account(b.c), Account(b.c.secret, USER_KEY, PASSWORD_KEY))
  {
    var s3, db := S3Account(b.c), Account(b.c.secret, USER_KEY, PASSWORD_KEY);
    DumpLogsIn(b, OwnedName(CrKind.Backup, b.c.name), s3, db);
    S3LogsIn(b.c, db);
  }

  lemma S3LogsIn(c: Common, db: Account)
    ensures AllRight(S3Login(c.secret), S3Account(c), db)
  {
  }

  lemma DumpLogsIn(b: Backup, cm: string, s3: Account, db: Account)
    requires db == Account(b.c.secret, LOGIN_KEYS[0], LOGIN_KEYS[1])
    ensures AllRight(DumpContainer(b, cm).env, s3, db)
  {
    var k := SecretKeys(b.c.secret, LOGIN_KEYS[0], LOGIN_KEYS[1]);
    PairIsRight(MYSQL_USER, MYSQL_PASSWORD, k, s3, db);
    PairIsRight(REDIS_USERNAME, REDIS_PASSWORD, k, s3, db);
    PairIsRight(PGUSER, PGPASSWORD, k, s3, db);
    WithNothing(MysqlDump, cm, DataVolume, MountData, Login(MYSQL_USER, MYSQL_PASSWORD, k));
    WithNothing(RedisDump, cm, DataVolume, MountData, Login(REDIS_USERNAME, REDIS_PASSWORD, k));
    WithNothing(PgDump, cm, DataVolume, MountData, Login(PGUSER, PGPASSWORD, k));
  }

  lemma WithNothing(s: Script, cm: string, volume: VolumeName, path: MountPath, env: seq<SecretEnv>)
    ensures WithEnv(ScriptContainer(s, cm, volume, path), env).env == env
  {
  }

  /** The account of a target: Secret and keys of the spec, where it names them, or the engine's usual ones. */
  function TargetAccount(r: Restore): Account {
    var (s, usual) := if r.c.engine == MariaDB then (r.mariaSecret, "mariadb")
                      else if r.c.engine == Redis then (r.redisSecret, "redis") else (r.pgSecret, "postgres");
    Account(if s.Some? && s.value.name != "" then s.value.name else usual,
            if s.Some? && s.value.userKey != "" then s.value.userKey else USER_KEY,
            if s.Some? && s.value.passKey != "" then s.value.passKey else PASSWORD_KEY)
  }

  /** A restore pod fetches with the CR's Secret and logs in to the target with the Secret of its engine. */
  lemma RestoreLogins(r: Restore)
    ensures LogsIn(RestorePod(r).containers, S3Account(r.c), TargetAccount(r))
  {
    var s3, db := S3Account(r.c), TargetAccount(r);
    TargetIsAccount(r);
    EngineLogsIn(r, OwnedName(CrKind.Restore, r.c.name), s3, db);
    S3LogsIn(r.c, db);
  }

  lemma TargetIsAccount(r: Restore)
    ensures var a := TargetAccount(r); TargetSecret(r) == SecretKeys(a.secret, a.user, a.password)
  {
  }

  lemma EngineLogsIn(r: Restore, cm: string, s3: Account, db: Account)
    requires TargetSecret(r) == SecretKeys(db.secret, db.user, db.password)
    ensures AllRight(EngineContainer(r, cm).env, s3, db)
  {
    var k, dir := TargetSecret(r), MountAt(RestoreDir(r));
    PairIsRight(MYSQL_USER, MYSQL_PASSWORD, k, s3, db);
    PairIsRight(REDIS_USERNAME, REDIS_PASSWORD, k, s3, db);
    PairIsRight(PGUSER, PGPASSWORD, k, s3, db);
    WithNothing(MysqlRestore, cm, WorkVolume, dir, Login(MYSQL_USER, MYSQL_PASSWORD, k));
    WithNothing(RedisRestore, cm, WorkVolume, dir, Login(REDIS_USERNAME, REDIS_PASSWORD, k));
    WithNothing(PgRestore, cm, WorkVolume, dir, Login(PGUSER, PGPASSWORD, k));
  }

  // ------------------------------------------------------------------ volumes

  /** What stands behind a volume. */
  ghost predicate Backs(vs: seq<Volume>, name: VolumeName, source: VolumeSource) {
    (exists i :: 0 <= i < |vs| && vs[i].name == name) &&
    forall i :: 0 <= i < |vs| && vs[i].name == name ==> vs[i].source == source
  }

  /** Scratch is the CR's own claim, or nothing that lasts. */
  ghost predicate KeepsScratch(c: Common, vs: seq<Volume>, name: VolumeName, claim: string) {
    Backs(vs, name, if c.persistent == Some(false) then EmptyDir else ClaimSource(claim, false))
  }

  /** Scratch as the spec says, and the passphrase from the CR's Secret. */
  lemma BackupVolumesFollow(b: Backup)
    ensures KeepsScratch(b.c, BackupPod(b).volumes, DataVolume, "karkive-backup-" + b.c.name)
    ensures Backs(BackupPod(b).volumes, GpgVolume, SecretSource(b.c.secret, "gpg_passphrase"))
  {
    var vs := BackupVolumes(b);
    assert vs[0].name == DataVolume && vs[2].name == GpgVolume;
  }

  lemma SourceVolumeFollows(b: Backup)
    requires b.c.engine == Pvc && b.pvc.Some?
    ensures Backs(BackupPod(b).volumes, SourceVolume, ClaimSource(b.pvc.value.claim, true))
  {
    assert BackupVolumes(b)[3].name == SourceVolume;
  }

  lemma RestoreVolumesFollow(r: Restore)
    ensures KeepsScratch(r.c, RestorePod(r).volumes, WorkVolume, "karkive-restore-" + r.c.name)
    ensures Backs(RestorePod(r).volumes, GpgVolume, SecretSource(r.c.secret, "gpg_passphrase"))
  {
    var vs := RestoreVolumes(r);
    assert vs[0].name == WorkVolume && vs[2].name == GpgVolume;
  }
}
