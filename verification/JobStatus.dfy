/** The last finished Job of a CR: jobstatus.go. */
module JobStatus {
  import opened Wrappers
  import Status = StatusCalc

  datatype ConditionType = JobComplete | JobFailed | OtherType

  datatype JobCondition = JobCondition(
    typ: ConditionType, isTrue: bool, since: Option<nat>, reason: string, message: string)

  datatype Job = Job(
    name: string, ns: string, labels: map<string, string>,
    completion: Option<nat>, start: Option<nat>, failedPods: nat, conditions: seq<JobCondition>)

  const KIND_LABEL := "karkive.io/kind"
  const MANAGED_LABEL := "app.kubernetes.io/managed-by"
  const MANAGED_BY := "karkive"

  /** A missing label reads as the empty string. */
  function Label(j: Job, key: string): string {
    if key in j.labels then j.labels[key] else ""
  }

  function FirstFinish(cs: seq<JobCondition>): Option<nat> {
    if cs == [] then None
    else if cs[0].isTrue && !cs[0].typ.OtherType? && cs[0].since.Some? then cs[0].since
    else FirstFinish(cs[1..])
  }

  function FinishedAt(j: Job): Option<nat> {
    if j.completion.Some? then j.completion else FirstFinish(j.conditions)
  }

  /** Condition `i` says that the Job has ended, and when. */
  predicate Ends(j: Job, i: nat) {
    && i < |j.conditions| && j.conditions[i].isTrue && j.conditions[i].since.Some?
    && (j.conditions[i].typ == JobComplete || j.conditions[i].typ == JobFailed)
  }

  /**
    `t` is when the Job ended, by its own fields: the completion time if it is set, else the
    time of the first true Complete or Failed condition that carries one, else never.
  */
  ghost predicate EndedAt(j: Job, t: Option<nat>) {
    if j.completion.Some? then t == j.completion
    else if t.None? then forall i: nat :: !Ends(j, i)
    else exists i: nat :: Ends(j, i) && t == j.conditions[i].since && forall k: nat :: k < i ==> !Ends(j, k)
  }

  lemma {:induction false} FirstFinishByIndex(cs: seq<JobCondition>) returns (i: nat)
    ensures FirstFinish(cs).None? ==> forall k :: 0 <= k < |cs| ==>
              !(cs[k].isTrue && cs[k].since.Some? && (cs[k].typ == JobComplete || cs[k].typ == JobFailed))
    ensures FirstFinish(cs).Some? ==>
              && i < |cs| && cs[i].isTrue && cs[i].since == FirstFinish(cs)
              && (cs[i].typ == JobComplete || cs[i].typ == JobFailed)
              && forall k :: 0 <= k < i ==>
                   !(cs[k].isTrue && cs[k].since.Some? && (cs[k].typ == JobComplete || cs[k].typ == JobFailed))
  {
    i := 0;
    if cs != [] && !(cs[0].isTrue && !cs[0].typ.OtherType? && cs[0].since.Some?) {
      i := FirstFinishByIndex(cs[1..]);
      assert forall k :: 0 < k < |cs| ==> cs[k] == cs[1..][k - 1];
      i := i + 1;
    }
  }

  lemma FinishTime(j: Job)
    ensures EndedAt(j, FinishedAt(j))
  {
    var i := FirstFinishByIndex(j.conditions);
    if j.completion.None? && FinishedAt(j).Some? {
      assert Ends(j, i);
    }
  }

  datatype Query = Query(ns: string, nameLabel: string, name: string, kind: string)

  predicate Matches(q: Query, j: Job) {
    j.ns == q.ns && Label(j, q.nameLabel) == q.name && (q.kind == "" || Label(j, KIND_LABEL) == q.kind)
  }

  /** A job that counts: it matches and has finished. */
  predicate Counts(q: Query, j: Job) {
    Matches(q, j) && FinishedAt(j).Some?
  }

  /** `jobs[k]` is the first job of the greatest finish time among those that count. */
  ghost predicate IsLast(q: Query, jobs: seq<Job>, k: nat) {
    && k < |jobs| && Counts(q, jobs[k])
    && (forall i :: 0 <= i < |jobs| && Counts(q, jobs[i]) ==> FinishedAt(jobs[i]).value <= FinishedAt(jobs[k]).value)
    && (forall i :: 0 <= i < k && Counts(q, jobs[i]) ==> FinishedAt(jobs[i]).value < FinishedAt(jobs[k]).value)
  }

  method LastFinished(q: Query, jobs: seq<Job>) returns (best: Option<Job>, ghost k: nat)
    ensures best.None? <==> forall i :: 0 <= i < |jobs| ==> !Counts(q, jobs[i])
    ensures best.Some? ==> IsLast(q, jobs, k) && best.value == jobs[k]
    ensures best == Last(q, jobs)
    ensures forall i :: 0 <= i < |jobs| ==> EndedAt(jobs[i], FinishedAt(jobs[i]))
  {
    forall i | 0 <= i < |jobs| ensures EndedAt(jobs[i], FinishedAt(jobs[i])) {
      FinishTime(jobs[i]);
    }
    best := None;
    var bestAt := 0;
    for i := 0 to |jobs|
      invariant best == Last(q, jobs[..i])
      invariant best.Some? ==> FinishedAt(best.value) == Some(bestAt)
    {
      var job := jobs[i];
      assert jobs[..i + 1][..i] == jobs[..i];
      if !Matches(q, job) {
        continue;
      }
      var end := FinishedAt(job);
      if end.None? {
        continue;
      }
      if best.None? || bestAt < end.value {
        best, bestAt := Some(job), end.value;
      }
    }
    assert jobs[..|jobs|] == jobs;
    k := LastIsFirstMaximal(q, jobs);
  }

  /** The same choice as a recursion over the list. */
  function Last(q: Query, jobs: seq<Job>): Option<Job> {
    if jobs == [] then None
    else
      var n := |jobs| - 1;
      var best := Last(q, jobs[..n]);
      if Counts(q, jobs[n]) &&
         (best.None? || (FinishedAt(best.value).Some? && FinishedAt(best.value).value < FinishedAt(jobs[n]).value))
      then Some(jobs[n]) else best
  }

  lemma {:induction false} LastIsFirstMaximal(q: Query, jobs: seq<Job>) returns (k: nat)
    ensures Last(q, jobs).None? <==> forall i :: 0 <= i < |jobs| ==> !Counts(q, jobs[i])
    ensures Last(q, jobs).Some? ==> IsLast(q, jobs, k) && Last(q, jobs).value == jobs[k]
    decreases |jobs|
  {
    k := 0;
    if jobs != [] {
      var n := |jobs| - 1;
      k := LastIsFirstMaximal(q, jobs[..n]);
      assert forall i :: 0 <= i < |jobs| ==> i == n || jobs[i] == jobs[..n][i];
      if Counts(q, jobs[n]) && Last(q, jobs) == Some(jobs[n]) &&
         (Last(q, jobs[..n]).None? || Last(q, jobs[..n]) != Last(q, jobs)) {
        k := n;
      }
    }
  }

  function Select(keep: Job -> bool, jobs: seq<Job>): seq<Job> {
    if jobs == [] then []
    else
      var n := |jobs| - 1;
      Select(keep, jobs[..n]) + if keep(jobs[n]) then [jobs[n]] else []
  }

  /** Dropping jobs that do not count does not change the answer. */
  lemma {:induction false} FilteredListAgrees(q: Query, keep: Job -> bool, jobs: seq<Job>)
    requires forall i :: 0 <= i < |jobs| && Counts(q, jobs[i]) ==> keep(jobs[i])
    ensures Last(q, Select(keep, jobs)) == Last(q, jobs)
  {
    if jobs != [] {
      var n := |jobs| - 1;
      FilteredListAgrees(q, keep, jobs[..n]);
      var rest := Select(keep, jobs[..n]);
      if keep(jobs[n]) {
        assert Select(keep, jobs) == rest + [jobs[n]];
        assert (rest + [jobs[n]])[..|rest|] == rest;
      } else {
        assert Select(keep, jobs) == rest;
      }
    }
  }

  /** What the controller lists: the CR's own jobs, selected by the API server. */
  predicate ControllerLists(q: Query, j: Job) {
    && j.ns == q.ns
    && Label(j, MANAGED_LABEL) == MANAGED_BY && Label(j, KIND_LABEL) == q.kind && Label(j, q.nameLabel) == q.name
  }

  /** What the metrics collector lists: every managed job of the cluster. */
  predicate CollectorLists(j: Job) {
    Label(j, MANAGED_LABEL) == MANAGED_BY
  }

  /** Status and metrics name the same job when they look at the same cluster. */
  lemma StatusAndMetricsAgree(q: Query, cluster: seq<Job>)
    requires q.kind != ""
    ensures Last(q, Select(j => ControllerLists(q, j), cluster)) == Last(q, Select(j => CollectorLists(j), cluster))
  {
    var managed := Select(j => CollectorLists(j), cluster);
    SelectAll(j => CollectorLists(j), cluster);
    FilteredListAgrees(q, j => ControllerLists(q, j), managed);
    SelectTwice(j => ControllerLists(q, j), j => CollectorLists(j), cluster);
  }

  lemma {:induction false} SelectAll(keep: Job -> bool, jobs: seq<Job>)
    ensures forall i :: 0 <= i < |Select(keep, jobs)| ==> keep(Select(keep, jobs)[i])
  {
    if jobs != [] {
      SelectAll(keep, jobs[..|jobs| - 1]);
    }
  }

  lemma {:induction false} SelectTwice(narrow: Job -> bool, wide: Job -> bool, jobs: seq<Job>)
    requires forall j :: narrow(j) ==> wide(j)
    ensures Select(narrow, Select(wide, jobs)) == Select(narrow, jobs)
  {
    if jobs != [] {
      var n := |jobs| - 1;
      SelectTwice(narrow, wide, jobs[..n]);
      var rest := Select(wide, jobs[..n]);
      if wide(jobs[n]) {
        assert Select(wide, jobs) == rest + [jobs[n]];
        assert (rest + [jobs[n]])[..|rest|] == rest;
      } else {
        assert Select(wide, jobs) == rest;
      }
    }
  }

  predicate Failed(j: Job) {
    j.failedPods > 0 || exists i :: 0 <= i < |j.conditions| && j.conditions[i].typ.JobFailed? && j.conditions[i].isTrue
  }

  /** Reason and message of the first true condition of a type. */
  function Condition(cs: seq<JobCondition>, typ: ConditionType): (string, string) {
    if cs == [] then ("", "")
    else if cs[0].typ == typ && cs[0].isTrue then (cs[0].reason, cs[0].message)
    else Condition(cs[1..], typ)
  }

  function Summarize(j: Option<Job>): Option<Status.LastJob> {
    match j
    case None => None
    case Some(job) =>
      var (reason, message) := Condition(job.conditions, if Failed(job) then JobFailed else JobComplete);
      Some(Status.LastJob(job.name, !Failed(job), reason, message, job.start, FinishedAt(job)))
  }

  lemma {:induction false} ConditionByIndex(cs: seq<JobCondition>, typ: ConditionType) returns (i: nat)
    ensures i <= |cs| && forall k :: 0 <= k < i ==> !(cs[k].typ == typ && cs[k].isTrue)
    ensures if i == |cs| then Condition(cs, typ) == ("", "")
            else cs[i].typ == typ && cs[i].isTrue && Condition(cs, typ) == (cs[i].reason, cs[i].message)
  {
    i := 0;
    if cs != [] && !(cs[0].typ == typ && cs[0].isTrue) {
      i := ConditionByIndex(cs[1..], typ);
      assert forall k :: 0 < k < |cs| ==> cs[k] == cs[1..][k - 1];
      i := i + 1;
    }
  }

  /**
    The summary of a Job, by its own fields: its name and times, failed exactly if it counts a
    failed pod or a true Failed condition, with the reason and message of the first true
    condition of the type that goes with the verdict.
  */
  lemma SummaryTellsTheJob(j: Job) returns (i: nat)
    ensures var s := Summarize(Some(j));
            && s.Some? && s.value.name == j.name && s.value.start == j.start && EndedAt(j, s.value.end)
            && (s.value.succeeded <==>
                  j.failedPods == 0 &&
                  forall k :: 0 <= k < |j.conditions| && j.conditions[k].typ == JobFailed ==> !j.conditions[k].isTrue)
            && var typ := if s.value.succeeded then JobComplete else JobFailed;
            && i <= |j.conditions|
            && (forall k :: 0 <= k < i ==> !(j.conditions[k].typ == typ && j.conditions[k].isTrue))
            && if i == |j.conditions| then s.value.reason == "" && s.value.message == ""
               else j.conditions[i].typ == typ && j.conditions[i].isTrue &&
                    s.value.reason == j.conditions[i].reason && s.value.message == j.conditions[i].message
  {
    FinishTime(j);
    i := ConditionByIndex(j.conditions, if Failed(j) then JobFailed else JobComplete);
  }

  lemma LastIsUnique(q: Query, jobs: seq<Job>, k: nat)
    requires IsLast(q, jobs, k)
    ensures Last(q, jobs) == Some(jobs[k])
  {
    var m := LastIsFirstMaximal(q, jobs);
    assert k <= m || m < k;
  }

  /**
    From the Jobs to the condition of the CR: true exactly if the last finished Job counts
    neither a failed pod nor a true Failed condition, unknown exactly if no matching Job has
    ended by its own fields.  So a Job that completed on a retry makes it false.
  */
  lemma StatusFollowsTheJobs(q: Query, jobs: seq<Job>, s: Status.Status, r: Status.Report, now: nat, last: nat)
    returns (k: nat)
    requires Status.ValidReport(r) && r.lastJob == Summarize(Last(q, jobs))
    requires IsLast(q, jobs, last) || (forall i :: 0 <= i < |jobs| ==> !Counts(q, jobs[i]))
    ensures var cs := Status.NextStatus(s, r, now).conditions;
            && k < |cs| && cs[k].typ == r.jobType
            && (cs[k].truth.Unknown? <==> forall i :: 0 <= i < |jobs| && Matches(q, jobs[i]) ==> EndedAt(jobs[i], None))
            && (IsLast(q, jobs, last) ==>
                  (cs[k].truth.True? <==>
                    && jobs[last].failedPods == 0
                    && forall i :: 0 <= i < |jobs[last].conditions| && jobs[last].conditions[i].typ.JobFailed? ==>
                         !jobs[last].conditions[i].isTrue))
  {
    k := Status.StatusTellsTheJob(s, r, now);
    var m := LastIsFirstMaximal(q, jobs);
    forall i | 0 <= i < |jobs| ensures EndedAt(jobs[i], None) <==> FinishedAt(jobs[i]).None? {
      FinishTime(jobs[i]);
    }
    if IsLast(q, jobs, last) {
      LastIsUnique(q, jobs, last);
    }
  }

  /**
    A failed last Job is explained in the Job's own words: those of its first true Failed
    condition, and its name where that condition has no message or is missing.
  */
  lemma FailureIsExplained(q: Query, jobs: seq<Job>, s: Status.Status, r: Status.Report, now: nat, last: nat)
    returns (k: nat, i: nat)
    requires Status.ValidReport(r) && r.lastJob == Summarize(Last(q, jobs))
    requires IsLast(q, jobs, last) && Failed(jobs[last])
    ensures var cs, own, name := Status.NextStatus(s, r, now).conditions, jobs[last].conditions, jobs[last].name;
            && k < |cs| && cs[k].typ == r.jobType && cs[k].truth.False? && i <= |own|
            && (forall m :: 0 <= m < i ==> !(own[m].typ == JobFailed && own[m].isTrue))
            && (i < |own| ==> own[i].typ == JobFailed && own[i].isTrue)
            && cs[k].message == (if i < |own| && own[i].message != "" then own[i].message
                                 else if name != "" then "Job " + name + " failed" else "Last Job failed")
            && cs[k].reason == if i < |own| && own[i].reason != "" then own[i].reason else "JobFailed"
  {
    LastIsUnique(q, jobs, last);
    k := Status.StatusTellsTheJob(s, r, now);
    i := ConditionByIndex(jobs[last].conditions, JobFailed);
    assert "Last Job" + " failed" == "Last Job failed";
  }

  /** What the collector exports: the stored summary if there is one, else one of its own. */
  function Exported(stored: Option<Status.LastJob>, q: Query, managed: seq<Job>): Option<Status.LastJob> {
    if stored.Some? then stored else Summarize(Last(q, managed))
  }

  /** A stored summary outlives its Job, and without one the collector looks for itself. */
  lemma ExportedSurvivesTheJob(stored: Option<Status.LastJob>, q: Query, managed: seq<Job>)
    ensures (forall i :: 0 <= i < |managed| ==> !Counts(q, managed[i])) ==> Exported(stored, q, managed) == stored
    ensures stored.None? ==> Exported(stored, q, managed) == Summarize(Last(q, managed))
  {
    var k := LastIsFirstMaximal(q, managed);
  }

  /**
    Right after a reconcile has worked out the status, what the collector exports from it and
    from its own list is what it would export without it: the summary of the last finished Job.
  */
  lemma MetricsAgreeAfterReconcile(q: Query, cluster: seq<Job>, s: Status.Status, r: Status.Report, now: nat)
    requires q.kind != ""
    requires r.lastJob == Summarize(Last(q, Select(j => ControllerLists(q, j), cluster)))
    ensures var managed := Select(j => CollectorLists(j), cluster);
            var stored := Status.SetStatus(s, r, now).status.lastJob;
            Exported(stored, q, managed) == Summarize(Last(q, managed)) == stored
  {
    StatusAndMetricsAgree(q, cluster);
  }
}
