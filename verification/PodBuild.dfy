/** The resource builders and the Secret checks as code that updates objects step by step. */
module PodBuild {
  import opened OwnedNames
  import opened SourcePath
  import opened PodSpec

  class ConfigMap {
    var labels: Labels
    var data: Env

    /** MutateBackupConfigMap; `ok` is false when the S3 endpoint or bucket is empty. */
    method MutateBackup(b: Backup, fl: Flags) returns (ok: bool)
      modifies this
      ensures labels == LabelsOf(CrKind.Backup, b.c) && data == BackupEnv(b, fl)
      ensures ok <==> (S3On(b.c) ==> S3EnvOk(BackupEnv(b, fl)))
    {
      labels := LabelsOf(CrKind.Backup, b.c);
      WriteBackup(b, fl);
      ok := !S3On(b.c) || S3EnvOk(data);
    }

    method WriteBackup(b: Backup, fl: Flags)
      modifies this`data
      ensures data == BackupEnv(b, fl)
    {
      data := BackupBase(b);
      if S3On(b.c) {
        WriteBackupS3(b.c, fl);
      }
      if Effective(b.c.engine).Pvc? {
        WriteSource(b);
      } else {
        WriteDatabase(b.c);
      }
    }

    method WriteS3(c: Common, fl: Flags)
      modifies this`data
      ensures data == old(data) + S3Env(c, fl)
    {
      data := data[S3_ENDPOINT := FirstNonEmpty(c.s3.endpoint, fl.s3Endpoint)];
      data := data[S3_BUCKET := FirstNonEmpty(c.s3.bucket, fl.s3Bucket)];
      data := data[S3_PATH := c.s3.path];
    }

    method WriteBackupS3(c: Common, fl: Flags)
      requires S3On(c)
      modifies this`data
      ensures data == old(data) + BackupS3Env(c, fl)
    {
      WriteS3(c, fl);
      data := data[S3_RETENTION_DAYS := Itoa(Deref(c.s3.retentionDays, 14))];
    }

    method WriteSource(b: Backup)
      requires Effective(b.c.engine).Pvc?
      modifies this`data
      ensures data == old(data) + SourceEnv(b)
    {
      var src := Source(b);
      data := data[PVC_CLAIM_NAME := src.claim];
      data := data[PVC_SOURCE_DIR := Path(MountSource)];
      data := data[PVC_PATH := SourceSubPath(src.path)];
      data := data[PVC_EXCLUDES := Join(src.excludes, '\n')];
    }

    method WriteDatabase(c: Common)
      modifies this`data
      ensures data == old(data) + DatabaseEnv(c)
    {
      var engine := Effective(c.engine);
      if engine.MariaDB? {
        data := data[MYSQL_HOST := c.database.host][MYSQL_PORT := Port(c)][MYSQL_DATABASE := c.database.name];
      } else if engine.Redis? {
        data := data[REDIS_HOST := c.database.host][REDIS_PORT := Port(c)][REDIS_NAME := c.database.name];
      } else {
        data := data[PGHOST := c.database.host][PGPORT := Port(c)][PGDATABASE := c.database.name];
      }
    }

    /** MutateRestoreConfigMap. */
    method MutateRestore(r: Restore, fl: Flags) returns (ok: bool)
      modifies this
      ensures labels == LabelsOf(CrKind.Restore, r.c) && data == RestoreEnv(r, fl)
      ensures ok <==> S3EnvOk(RestoreEnv(r, fl))
    {
      labels := LabelsOf(CrKind.Restore, r.c);
      WriteRestore(r, fl);
      ok := S3EnvOk(data);
    }

    method WriteRestore(r: Restore, fl: Flags)
      modifies this`data
      ensures data == RestoreEnv(r, fl)
    {
      data := RestoreBase(r);
      WriteS3(r.c, fl);
      WriteDatabase(r.c);
      WritePostgres(r);
    }

    method WritePostgres(r: Restore)
      modifies this`data
      ensures data == old(data) + PostgresEnv(r)
    {
      if !Effective(r.c.engine).MariaDB? && !Effective(r.c.engine).Redis? {
        data := data[PG_OWNER_ROLE := FirstNonEmpty(r.ownerRole, r.c.database.name)];
        data := data[STRIP_PGAUDIT_EXTENSION := BoolEnv(r.stripPgAudit, true)];
      }
    }
  }

  /** WithRuntimeRole: copy the labels one by one, then set the role. */
  method WithRuntimeRole(labels: Labels, role: string) returns (out: Labels)
    ensures out == labels[RuntimeRole := role]
  {
    out := map[];
    var todo := labels.Keys;
    while todo != {}
      invariant todo <= labels.Keys
      invariant out.Keys == labels.Keys - todo && forall k :: k in out ==> out[k] == labels[k]
      decreases |todo|
    {
      var k :| k in todo;
      out := out[k := labels[k]];
      todo := todo - {k};
    }
    out := out[RuntimeRole := role];
  }

  // ------------------------------------------------------------------ Secret checks

  /** The Secrets of the namespace: name to keys. */
  type Secrets = map<string, set<string>>

  datatype Verdict = Fine | NoSuchSecret(name: string) | NoSuchKey(name: string, key: string)

  /** Every key of the list is there, or the first one that is not is named. */
  method CheckKeys(secrets: Secrets, name: string, keys: seq<string>) returns (v: Verdict)
    requires name in secrets
    ensures v == FirstMissing(secrets, name, keys)
  {
    for i := 0 to |keys|
      invariant forall j :: 0 <= j < i ==> keys[j] in secrets[name]
      invariant FirstMissing(secrets, name, keys) == FirstMissing(secrets, name, keys[i..])
    {
      if keys[i] !in secrets[name] {
        return NoSuchKey(name, keys[i]);
      }
      assert keys[i..][1..] == keys[i + 1..];
    }
    v := Fine;
  }

  function FirstMissing(secrets: Secrets, name: string, keys: seq<string>): Verdict
    requires name in secrets
    decreases |keys|
  {
    if keys == [] then Fine
    else if keys[0] !in secrets[name] then NoSuchKey(name, keys[0])
    else FirstMissing(secrets, name, keys[1..])
  }

  lemma {:induction false} FineMeansAll(secrets: Secrets, name: string, keys: seq<string>)
    requires name in secrets
    ensures FirstMissing(secrets, name, keys) == Fine <==> forall k :: k in keys ==> k in secrets[name]
    decreases |keys|
  {
    if keys != [] {
      FineMeansAll(secrets, name, keys[1..]);
      assert keys == [keys[0]] + keys[1..];
    }
  }

  /** ensureSecret: it passes exactly if everything the pod refers to is there. */
  method EnsureSecret(b: Backup, secrets: Secrets) returns (v: Verdict)
    ensures v.NoSuchSecret? <==> b.c.secret !in secrets
    ensures v.NoSuchKey? ==>
              && v.name in secrets && v.key !in secrets[v.name]
              && (v.name, v.key) in SecretRefs(BackupPod(b))
    ensures v.Fine? <==> Resolved(secrets, BackupPod(b))
  {
    BackupRefs(b);
    var required := [GPG_KEY];
    if !Effective(b.c.engine).Pvc? {
      required := LOGIN_KEYS + required;
    }
    assert forall k :: k in BackupKeys(b) <==> k in required || (S3On(b.c) && k in S3_KEYS);
    if b.c.secret !in secrets {
      assert GPG_KEY in BackupKeys(b) && (b.c.secret, GPG_KEY) in SecretRefs(BackupPod(b));
      return NoSuchSecret(b.c.secret);
    }
    MissingIsListed(secrets, b.c.secret, required);
    FineMeansAll(secrets, b.c.secret, required);
    v := CheckKeys(secrets, b.c.secret, required);
    if v.Fine? && S3On(b.c) {
      MissingIsListed(secrets, b.c.secret, S3_KEYS);
      FineMeansAll(secrets, b.c.secret, S3_KEYS);
      v := CheckKeys(secrets, b.c.secret, S3_KEYS);
    }
  }

  lemma {:induction false} MissingIsListed(secrets: Secrets, name: string, keys: seq<string>)
    requires name in secrets
    ensures var v := FirstMissing(secrets, name, keys);
            !v.NoSuchSecret? && (v.NoSuchKey? ==> v.name == name && v.key in keys && v.key !in secrets[name])
    decreases |keys|
  {
    if keys != [] {
      MissingIsListed(secrets, name, keys[1..]);
    }
  }

  /** The Secret keys a pod refers to, through variables and through volumes. */
  ghost function SecretRefs(p: Pod): set<(string, string)> {
    EnvRefs(p.containers) + set v | v in p.volumes && v.source.SecretSource? :: (v.source.secret, v.source.key)
  }

  ghost function EnvRefs(cs: seq<Container>): set<(string, string)> {
    set c, e | c in cs && e in c.env :: (e.secret, e.key)
  }

  ghost predicate Resolved(secrets: Secrets, p: Pod) {
    forall r :: r in SecretRefs(p) ==> r.0 in secrets && r.1 in secrets[r.0]
  }

  lemma RefsOfNone(c: Container)
    requires c.env == []
    ensures EnvRefs([c]) == {}
  {
  }

  lemma RefsOfTwo(c: Container)
    requires |c.env| == 2
    ensures EnvRefs([c]) == {(c.env[0].secret, c.env[0].key), (c.env[1].secret, c.env[1].key)}
  {
    assert c.env[0] in c.env && c.env[1] in c.env && c in [c];
  }

  /** The keys ensureSecret asks for. */
  function BackupKeys(b: Backup): seq<string> {
    (if Effective(b.c.engine).Pvc? then [] else LOGIN_KEYS) + [GPG_KEY] + if S3On(b.c) then S3_KEYS else []
  }

  /** The references to keys of one Secret. */
  ghost function RefsTo(secret: string, keys: seq<string>): set<(string, string)> {
    set k | k in keys :: (secret, k)
  }

  lemma DumpRefs(b: Backup, cm: string)
    ensures EnvRefs([DumpContainer(b, cm)]) == if Effective(b.c.engine).Pvc? then {} else RefsTo(b.c.secret, LOGIN_KEYS)
  {
    var c := DumpContainer(b, cm);
    if Effective(b.c.engine).Pvc? {
      RefsOfNone(c);
    } else {
      RefsOfTwo(c);
      RefsToTwo(b.c.secret, LOGIN_KEYS);
    }
  }

  lemma RefsToAppend(secret: string, a: seq<string>, b: seq<string>)
    ensures RefsTo(secret, a + b) == RefsTo(secret, a) + RefsTo(secret, b)
  {
  }

  lemma RefsToTwo(secret: string, keys: seq<string>)
    requires |keys| == 2
    ensures RefsTo(secret, keys) == {(secret, keys[0]), (secret, keys[1])}
  {
  }

  /** The references of a pod whose second stage and, if it has one, fifth stage carry variables. */
  lemma StageRefs(cs: seq<Container>)
    requires |cs| == 4 || |cs| == 5
    requires cs[0].env == [] && cs[2].env == [] && cs[3].env == []
    ensures EnvRefs(cs) == EnvRefs([cs[1]]) + if |cs| == 5 then EnvRefs([cs[4]]) else {}
  {
    assert forall c :: c in cs <==> c == cs[0] || c == cs[1] || c == cs[2] || c == cs[3] || (|cs| == 5 && c == cs[4]);
  }

  lemma VolumeRefs(p: Pod, c: Common)
    requires Passphrase(c) in p.volumes
    requires forall v :: v in p.volumes && v.source.SecretSource? ==> v == Passphrase(c)
    ensures SecretRefs(p) == EnvRefs(p.containers) + RefsTo(c.secret, [GPG_KEY])
  {
  }

  lemma BackupStages(b: Backup)
    ensures var cs := BackupContainers(b);
            && |cs| == (if S3On(b.c) then 5 else 4)
            && cs[0].env == [] && cs[2].env == [] && cs[3].env == []
            && cs[1] == DumpContainer(b, OwnedName(CrKind.Backup, b.c.name))
            && (S3On(b.c) ==> cs[4].env == S3Login(b.c.secret))
  {
  }

  lemma BackupSecretVolumes(b: Backup)
    ensures Passphrase(b.c) in BackupVolumes(b)
    ensures forall v :: v in BackupVolumes(b) && v.source.SecretSource? ==> v == Passphrase(b.c)
  {
    assert BackupVolumes(b)[2] == Passphrase(b.c);
  }

  lemma BackupEnvRefs(b: Backup)
    ensures EnvRefs(BackupContainers(b)) ==
            RefsTo(b.c.secret, if Effective(b.c.engine).Pvc? then [] else LOGIN_KEYS)
            + RefsTo(b.c.secret, if S3On(b.c) then S3_KEYS else [])
  {
    var cs := BackupContainers(b);
    BackupStages(b);
    DumpRefs(b, OwnedName(CrKind.Backup, b.c.name));
    StageRefs(cs);
    if S3On(b.c) {
      RefsOfTwo(cs[4]);
      RefsToTwo(b.c.secret, S3_KEYS);
    }
  }

  lemma BackupRefs(b: Backup)
    ensures SecretRefs(BackupPod(b)) == RefsTo(b.c.secret, BackupKeys(b))
  {
    BackupEnvRefs(b);
    BackupSecretVolumes(b);
    VolumeRefs(BackupPod(b), b.c);
    var login := if Effective(b.c.engine).Pvc? then [] else LOGIN_KEYS;
    var s3 := if S3On(b.c) then S3_KEYS else [];
    RefsToAppend(b.c.secret, login, [GPG_KEY]);
    RefsToAppend(b.c.secret, login + [GPG_KEY], s3);
  }

  // ------------------------------------------------------------------ Restore

  /** ensureJobSecret. */
  method EnsureJobSecret(r: Restore, secrets: Secrets) returns (v: Verdict)
    ensures v.NoSuchSecret? <==> r.c.secret !in secrets
    ensures v.Fine? <==> AllThere(secrets, r.c.secret, S3_KEYS + [GPG_KEY])
  {
    if r.c.secret !in secrets {
      return NoSuchSecret(r.c.secret);
    }
    MissingIsListed(secrets, r.c.secret, S3_KEYS + [GPG_KEY]);
    FineMeansAll(secrets, r.c.secret, S3_KEYS + [GPG_KEY]);
    v := CheckKeys(secrets, r.c.secret, S3_KEYS + [GPG_KEY]);
  }

  /** ensureTargetSecret. */
  method EnsureTargetSecret(r: Restore, secrets: Secrets) returns (v: Verdict)
    ensures v.NoSuchSecret? <==> TargetSecret(r).name !in secrets
    ensures v.Fine? <==> AllThere(secrets, TargetSecret(r).name, TargetKeys(r))
  {
    var name, keys := TargetSecret(r).name, TargetKeys(r);
    if name !in secrets {
      return NoSuchSecret(name);
    }
    MissingIsListed(secrets, name, keys);
    FineMeansAll(secrets, name, keys);
    v := CheckKeys(secrets, name, keys);
  }

  function TargetKeys(r: Restore): seq<string> {
    [TargetSecret(r).userKey, TargetSecret(r).passKey]
  }

  predicate AllThere(secrets: Secrets, name: string, keys: seq<string>) {
    name in secrets && forall k :: k in keys ==> k in secrets[name]
  }

  lemma RestoreStages(r: Restore)
    ensures var cs := RestoreContainers(r);
            && |cs| == 5 && cs[0].env == [] && cs[2].env == [] && cs[3].env == []
            && cs[1].env == S3Login(r.c.secret)
            && |cs[4].env| == 2
            && (forall i :: 0 <= i < 2 ==>
                  cs[4].env[i].secret == TargetSecret(r).name && cs[4].env[i].key == TargetKeys(r)[i])
  {
  }

  lemma RestoreSecretVolumes(r: Restore)
    ensures Passphrase(r.c) in RestoreVolumes(r)
    ensures forall v :: v in RestoreVolumes(r) && v.source.SecretSource? ==> v == Passphrase(r.c)
  {
    assert RestoreVolumes(r)[2] == Passphrase(r.c);
  }

  lemma RestoreRefs(r: Restore)
    ensures SecretRefs(RestorePod(r)) ==
            RefsTo(r.c.secret, S3_KEYS + [GPG_KEY]) + RefsTo(TargetSecret(r).name, TargetKeys(r))
  {
    var cs := RestoreContainers(r);
    RestoreStages(r);
    StageRefs(cs);
    RefsOfTwo(cs[1]);
    RefsToTwo(r.c.secret, S3_KEYS);
    RefsOfTwo(cs[4]);
    RefsToTwo(TargetSecret(r).name, TargetKeys(r));
    RestoreSecretVolumes(r);
    VolumeRefs(RestorePod(r), r.c);
    RefsToAppend(r.c.secret, S3_KEYS, [GPG_KEY]);
  }

  /** The two Secret checks of a Restore pass exactly if everything its pod refers to is there. */
  lemma RestoreChecksAreExact(r: Restore, secrets: Secrets)
    ensures Resolved(secrets, RestorePod(r)) <==>
            AllThere(secrets, r.c.secret, S3_KEYS + [GPG_KEY]) && AllThere(secrets, TargetSecret(r).name, TargetKeys(r))
  {
    RestoreRefs(r);
    RefsResolve(secrets, r.c.secret, S3_KEYS + [GPG_KEY]);
    RefsResolve(secrets, TargetSecret(r).name, TargetKeys(r));
  }

  lemma RefsResolve(secrets: Secrets, name: string, keys: seq<string>)
    requires keys != []
    ensures (forall x :: x in RefsTo(name, keys) ==> x.0 in secrets && x.1 in secrets[x.0]) <==>
            AllThere(secrets, name, keys)
  {
    assert (name, keys[0]) in RefsTo(name, keys);
    assert forall k :: k in keys ==> (name, k) in RefsTo(name, keys);
  }
}
