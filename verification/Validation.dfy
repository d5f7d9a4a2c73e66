/** Which specs validation accepts, over their fields, and what a rejection tells. */
module Validation {
  import opened Wrappers
  import opened SourcePath
  import opened PodSpec

  /** The code points with the Unicode property White_Space. */
  const WHITE_SPACE: set<int> := {
    9, 10, 11, 12, 13, 32, 133, 160, 5760, 8192, 8193, 8194, 8195, 8196, 8197, 8198, 8199, 8200, 8201, 8202, 8232,
    8233, 8239, 8287, 12288
  }

  lemma SpaceIff(c: char)
    ensures IsSpace(c) <==> c as int in WHITE_SPACE
  {
  }

  /** One line with something on it. */
  ghost predicate IsPattern(e: string) {
    (exists k :: 0 <= k < |e| && e[k] as int !in WHITE_SPACE) && '\n' !in e && '\r' !in e
  }

  lemma BlankIff(e: string)
    ensures Blank(e) <==> forall k :: 0 <= k < |e| ==> e[k] as int in WHITE_SPACE
  {
    forall k | 0 <= k < |e| ensures IsSpace(e[k]) <==> e[k] as int in WHITE_SPACE {
      SpaceIff(e[k]);
    }
  }

  /** No `..` stands between slashes. */
  ghost predicate StaysBelow(p: string) {
    forall i: nat, j: nat :: Stands(p, '/', i, j) ==> p[i..j] != ".."
  }

  /** Empty, or relative, on one line and without `..`. */
  ghost predicate IsSubPath(p: string) {
    p == "" || (p[0] != '/' && StaysBelow(p) && '\n' !in p && '\r' !in p)
  }

  lemma SubPathIff(p: string)
    ensures ValidPath(p) <==> IsSubPath(p)
  {
    PieceIff(p, '/', "..");
  }

  /** The claim to be read, with a path and patterns that reach tar unchanged. */
  ghost predicate IsSource(src: PvcSource, selectorOk: bool) {
    && src.claim != "" && IsSubPath(src.path) && (forall e :: e in src.excludes ==> IsPattern(e))
    && (src.consumers.None? || selectorOk)
  }

  lemma PatternsIff(excludes: seq<string>)
    ensures ValidExcludes(excludes) <==> forall e :: e in excludes ==> IsPattern(e)
  {
    if ValidExcludes(excludes) {
      forall e | e in excludes ensures IsPattern(e) {
        var i: nat :| i < |excludes| && excludes[i] == e;
        assert !Blank(excludes[i]);
        BlankIff(e);
      }
    }
    if forall e :: e in excludes ==> IsPattern(e) {
      forall i | 0 <= i < |excludes|
        ensures !Blank(excludes[i]) && '\n' !in excludes[i] && '\r' !in excludes[i]
      {
        assert IsPattern(excludes[i]);
        BlankIff(excludes[i]);
      }
    }
  }

  ghost predicate IsPolicy(job: JobPolicy) {
    && (|| job.concurrency == "" || job.concurrency == "Allow" || job.concurrency == "Forbid"
        || job.concurrency == "Replace")
    && (job.restart == "" || job.restart == "Always" || job.restart == "OnFailure" || job.restart == "Never")
  }

  /** A mode that exists, and a claim for the holder to hold. */
  ghost predicate CanRun(mode: string, persistent: Option<bool>) {
    || mode == "" || mode == "CronJob"
    || (mode == "CronJobWithVolumeHolder" && persistent != Some(false))
  }

  lemma TailIff(c: Common)
    ensures ValidateTail(c).None? <==>
            (c.job.None? || IsPolicy(c.job.value)) && CanRun(c.mode, c.persistent)
  {
  }

  /** A Backup is accepted exactly if its schedule, source, storage, Secret, policies and mode are in order. */
  lemma BackupAcceptedIff(b: Backup)
    ensures ValidateBackup(b).None? <==>
            && b.c.scheduleOk
            && (if b.c.engine == Pvc then b.pvc.Some? && IsSource(b.pvc.value, b.selectorOk)
                else b.pvc.None? && b.c.database.host != "" && b.c.database.name != "")
            && (if b.c.s3.enabled == Some(false) then b.c.persistent != Some(false) else b.c.s3.path != "")
            && b.c.secret != ""
            && (b.c.job.None? || IsPolicy(b.c.job.value))
            && CanRun(b.c.mode, b.c.persistent)
  {
    TailIff(b.c);
    if b.pvc.Some? {
      SubPathIff(b.pvc.value.path);
      PatternsIff(b.pvc.value.excludes);
    }
  }

  /** The login for the database to be restored, by engine; an unset engine means PostgreSQL. */
  ghost predicate HasLogin(r: Restore) {
    var login := if r.c.engine == MariaDB then r.mariaSecret
                 else if r.c.engine == Redis then r.redisSecret else r.pgSecret;
    login.Some? && login.value.name != ""
  }

  /** A Restore is accepted exactly if it also has a login, S3 is not switched off and the engine is a database. */
  lemma RestoreAcceptedIff(r: Restore)
    ensures ValidateRestore(r).None? <==>
            && r.c.scheduleOk && r.c.engine != Pvc
            && r.c.database.host != "" && r.c.database.name != ""
            && r.c.s3.enabled != Some(false) && r.c.s3.path != ""
            && r.c.secret != "" && HasLogin(r)
            && (r.c.job.None? || IsPolicy(r.c.job.value))
            && CanRun(r.c.mode, r.c.persistent)
  {
    TailIff(r.c);
  }

  /** What a rejection says about the fields both kinds have. */
  ghost predicate Tells(c: Common, pvc: Option<PvcSource>, selectorOk: bool, flaw: Flaw) {
    match flaw
    case BadSchedule => !c.scheduleOk
    case NoClaim => pvc.None? || pvc.value.claim == ""
    case BadPath => pvc.Some? && !IsSubPath(pvc.value.path)
    case BadExcludes => pvc.Some? && exists e :: e in pvc.value.excludes && !IsPattern(e)
    case BadSelector => pvc.Some? && pvc.value.consumers.Some? && !selectorOk
    case StrayPvc => c.engine != Pvc && pvc.Some?
    case NoHost => c.database.host == ""
    case NoDatabase => c.database.name == ""
    case NoS3Path => c.s3.enabled != Some(false) && c.s3.path == ""
    case NothingKept => c.s3.enabled == Some(false) && c.persistent == Some(false)
    case NoSecret => c.secret == ""
    case BadConcurrency => c.job.Some? && !IsPolicy(c.job.value.(restart := ""))
    case BadRestart => c.job.Some? && !IsPolicy(c.job.value.(concurrency := ""))
    case HolderNeedsClaim => c.mode == "CronJobWithVolumeHolder" && c.persistent == Some(false)
    case BadMode => c.mode != "" && c.mode != "CronJob" && c.mode != "CronJobWithVolumeHolder"
    case PvcIsBackupOnly => c.engine == Pvc
    case S3Required => c.s3.enabled == Some(false)
    case NoTargetSecret => true
  }

  /** The reported flaw is there. */
  lemma BackupFlawIsReal(b: Backup, flaw: Flaw)
    requires ValidateBackup(b) == Some(flaw)
    ensures Tells(b.c, b.pvc, b.selectorOk, flaw)
    ensures flaw.NoClaim? || flaw.BadPath? || flaw.BadExcludes? || flaw.BadSelector? ==> b.c.engine == Pvc
    ensures !flaw.PvcIsBackupOnly? && !flaw.S3Required? && !flaw.NoTargetSecret?
  {
    if b.pvc.Some? {
      SubPathIff(b.pvc.value.path);
      PatternsIff(b.pvc.value.excludes);
    }
  }

  lemma RestoreFlawIsReal(r: Restore, flaw: Flaw)
    requires ValidateRestore(r) == Some(flaw)
    ensures Tells(r.c, None, true, flaw) && (flaw.NoTargetSecret? ==> !HasLogin(r))
    ensures !flaw.NoClaim? && !flaw.BadPath? && !flaw.BadExcludes? && !flaw.BadSelector? && !flaw.StrayPvc?
  {
  }
}
