/** A backup run and a later restore run put together. */
module RoundTrip {
  import opened Wrappers
  import opened Artifacts
  import opened Sed
  import opened DumpFilter
  import Names = BackupNames
  import Backup = BackupRun
  import Restore = RestoreRun
  import Choice = RestoreChoice
  import opened Protocol

  /** A backup pod with S3 that succeeded, at the end of its run. */
  ghost predicate BackedUp(b: Backup.Setup, bs: seq<Backup.Pod>, bacts: seq<Backup.Act>) {
    Backup.IsPodRun(b, bs, bacts) && b.s3 && Exited(true) in bs[|bacts|].p.pc
  }

  /** The bucket still holds what the backup pod uploaded for the dump `name`. */
  predicate StillThere(r: Restore.Setup, d: Backup.Data, name: string) {
    && Backup.Gpg(name) in d.uploaded && name + ".gz.gpg" in r.bucket
    && r.bucket[name + ".gz.gpg"] == d.uploaded[Backup.Gpg(name)]
  }

  /**
    If a backup pod with S3 succeeded and a successful restore pod settled on the object it
    uploaded, then both use the same passphrase, and the target was loaded with exactly the lines
    the backup dumped, but for those that set the transaction timeout and, in PostgreSQL, the
    unwanted statements.
  */
  lemma RestoredBytesAreDumpedBytes(
    b: Backup.Setup, bs: seq<Backup.Pod>, bacts: seq<Backup.Act>,
    r: Restore.Setup, rs: seq<Restore.Pod>, racts: seq<Restore.Act>, name: string)
    requires BackedUp(b, bs, bacts) && StillThere(r, bs[|bacts|].d, name)
    requires Choice.Restores(r, rs, racts, name + ".gz.gpg")
    ensures bs[|bacts|].d.dumped.Some? && bs[|bacts|].d.dumped.value.0 == name
    ensures r.key == b.key
    ensures var lines := Unmatched(b.setTransactionTimeout, bs[|bacts|].d.dumped.value.1);
            && rs[|racts|].d.target.There? && rs[|racts|].d.target.shown.Loaded?
            && var loaded := rs[|racts|].d.target.shown.c;
               if r.redis then loaded == Raw(lines)
               else loaded.Raw? && IsFiltered(r.patterns, r.audit, lines, loaded.lines)
  {
    Backup.ExitZeroMeansArchived(b, bs, bacts, |bacts|);
    Restore.ExitZeroMeansRestored(r, rs, racts, |racts|);
  }

  /**
    A fallback restore of one database's archives hands the engine the dump of the newest of the
    backup runs whose uploads are listed.
  */
  lemma NewestDumpIsRestored(
    b: Backup.Setup, bs: seq<Backup.Pod>, bacts: seq<Backup.Act>,
    r: Restore.Setup, rs: seq<Restore.Pod>, racts: seq<Restore.Act>,
    db: string, stamps: seq<Names.Stamp>, newest: Names.Stamp)
    requires BackedUp(b, bs, bacts) && !r.redis
    requires StillThere(r, bs[|bacts|].d, Names.ObjectName("pg_dump", db, newest, "pgdump"))
    requires Choice.Succeeds(r, rs, racts) && r.backupFile == "" && Choice.Unbroken(r, racts)
    requires Choice.ListsOnly(r, db, stamps) && Choice.IsNewest(newest, stamps)
    ensures bs[|bacts|].d.dumped.Some? && r.key == b.key
    ensures var lines := Unmatched(b.setTransactionTimeout, bs[|bacts|].d.dumped.value.1);
            && rs[|racts|].d.target.There? && rs[|racts|].d.target.shown.Loaded?
            && var loaded := rs[|racts|].d.target.shown.c;
               if r.redis then loaded == Raw(lines)
               else loaded.Raw? && IsFiltered(r.patterns, r.audit, lines, loaded.lines)
  {
    Choice.FallbackRestoresNewest(r, rs, racts, db, stamps, newest);
    RestoredBytesAreDumpedBytes(b, bs, bacts, r, rs, racts, Names.ObjectName("pg_dump", db, newest, "pgdump"));
  }
}
