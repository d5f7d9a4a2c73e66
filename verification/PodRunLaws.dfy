/** The failure and timing laws of the marker protocol, carried to the runs of whole pods. */
module PodRunLaws {
  import opened Protocol
  import opened ProtocolFailure
  import opened ProtocolTiming
  import Backup = BackupRun
  import Restore = RestoreRun

  /** What the protocol promises about a state at the end of a run. */
  ghost predicate Lawful(c: Config, s: State)
    requires ValidConfig(c)
  {
    && (Undisturbed(c, s) ==> !(Failed in s.markers && JobDone in s.markers))
    && (Undisturbed(c, s) && Failed in s.markers ==> Exited(true) !in s.pc)
    && (!s.torn && JobDone in s.markers && s.jobDoneAt < 86400 ==> !s.timedOut)
  }

  lemma RunIsLawful(c: Config, ps: seq<State>, pacts: seq<Action>)
    requires ValidConfig(c) && IsRun(c, ps, pacts)
    ensures Lawful(c, ps[|pacts|])
  {
    var n := |pacts|;
    if Undisturbed(c, ps[n]) {
      FailedExcludesJobDone(c, ps, pacts, n);
    }
    if !ps[n].torn && JobDone in ps[n].markers && ps[n].jobDoneAt < DAY {
      NoTimeoutWithinADay(c, ps, pacts, n);
    }
  }

  /** Failure and job-done exclude each other, and a timely pod does not time out: backup pods. */
  lemma BackupPodIsLawful(b: Backup.Setup, ss: seq<Backup.Pod>, acts: seq<Backup.Act>)
    requires Backup.IsPodRun(b, ss, acts)
    ensures Lawful(Backup.Config(b), ss[|acts|].p)
  {
    var ps, pacts := Backup.PodRunRefinesProtocol(b, ss, acts);
    RunIsLawful(Backup.Config(b), ps, pacts);
  }

  /**
    The same for restore pods; and if peers poll at intervals under 20 s, none of them misses
    job-done before the work directory goes.
  */
  lemma RestorePodIsLawful(r: Restore.Setup, ss: seq<Restore.Pod>, acts: seq<Restore.Act>, gap: nat)
    requires Restore.IsPodRun(r, ss, acts)
    ensures Lawful(Restore.CONFIG, ss[|acts|].p)
    ensures var s := ss[|acts|].p;
            s.torn && !s.killed && !s.timedOut && gap < 20 &&
            (forall i :: 0 <= i < |ss| ==> Timely(ss[i].p, gap)) ==>
              PeersGone(Restore.CONFIG, s)
  {
    var ps, pacts := Restore.PodRunRefinesProtocol(r, ss, acts);
    RunIsLawful(Restore.CONFIG, ps, pacts);
    var s := ss[|acts|].p;
    if gap < LINGER && (forall i :: 0 <= i < |ss| ==> Timely(ss[i].p, gap)) && s.torn && !s.killed && !s.timedOut {
      forall j | 0 <= j < |ps| ensures Timely(ps[j], gap) {
        assert ps[j] in ps;
        var i :| 0 <= i < |ss| && ss[i].p == ps[j];
      }
      TeardownIsSeenByAll(Restore.CONFIG, ps, pacts, gap, |pacts|);
    }
  }
}
