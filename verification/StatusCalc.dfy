/** The status of a Backup or Restore and when it is written: status.go and both `setStatus` methods. */
module StatusCalc {
  import opened Wrappers

  datatype Truth = True | False | Unknown

  /** `since` is the last transition time. */
  datatype Condition = Condition(
    typ: string, truth: Truth, reason: string, message: string, generation: nat, since: nat)

  datatype Change = Change(conditions: seq<Condition>, changed: bool)

  function Find(cs: seq<Condition>, typ: string): (i: nat)
    ensures i <= |cs|
    ensures i < |cs| ==> cs[i].typ == typ
    ensures forall j :: 0 <= j < i ==> cs[j].typ != typ
  {
    if cs == [] then 0 else if cs[0].typ == typ then 0 else 1 + Find(cs[1..], typ)
  }

  /** `meta.SetStatusCondition`: the transition time moves only when the truth value does. */
  function SetCondition(cs: seq<Condition>, c: Condition, now: nat): Change {
    var i := Find(cs, c.typ);
    if i == |cs| then Change(cs + [c.(since := now)], true)
    else
      var same := cs[i].truth == c.truth && cs[i].reason == c.reason && cs[i].message == c.message &&
                  cs[i].generation == c.generation;
      Change(cs[i := c.(since := if cs[i].truth == c.truth then cs[i].since else now)], !same)
  }

  lemma SetConditionReportsChange(cs: seq<Condition>, c: Condition, now: nat)
    ensures SetCondition(cs, c, now).changed <==> SetCondition(cs, c, now).conditions != cs
  {
    var i := Find(cs, c.typ);
    var r := SetCondition(cs, c, now);
    if i < |cs| {
      assert r.conditions[i] == c.(since := if cs[i].truth == c.truth then cs[i].since else now);
    } else {
      assert |r.conditions| == |cs| + 1;
    }
  }

  /** Setting the same condition again, at any later time, changes nothing. */
  lemma SetConditionTwice(cs: seq<Condition>, c: Condition, now: nat, later: nat)
    ensures var once := SetCondition(cs, c, now).conditions; SetCondition(once, c, later) == Change(once, false)
  {
    var i := Find(cs, c.typ);
    var once := SetCondition(cs, c, now).conditions;
    assert once[i].typ == c.typ;
    assert forall j :: 0 <= j < i ==> once[j].typ != c.typ;
    assert Find(once, c.typ) == i;
    assert once[i := once[i]] == once;
  }

  /** Setting a condition of another type leaves this one set. */
  lemma SetConditionOther(cs: seq<Condition>, c: Condition, d: Condition, now: nat, later: nat)
    requires c.typ != d.typ
    requires SetCondition(cs, c, later) == Change(cs, false)
    ensures var next := SetCondition(cs, d, now).conditions; SetCondition(next, c, later) == Change(next, false)
  {
    var i, j := Find(cs, c.typ), Find(cs, d.typ);
    var next := SetCondition(cs, d, now).conditions;
    assert i < |cs|;
    assert next[i] == cs[i];
    assert forall k :: 0 <= k < i ==> next[k].typ == cs[k].typ;
    assert Find(next, c.typ) == i;
    assert cs[i := c.(since := cs[i].since)][i] == cs[i];
    assert next[i := next[i]] == next;
  }

  datatype LastJob = LastJob(
    name: string, succeeded: bool, reason: string, message: string, start: Option<nat>, end: Option<nat>)

  const READY := "Ready"

  /** The BackupSucceeded / RestoreSucceeded condition for the last finished job. */
  function JobCondition(typ: string, generation: nat, job: Option<LastJob>): Condition {
    match job
    case None => Condition(typ, Unknown, "NoFinishedJob", "No finished Job yet", generation, 0)
    case Some(j) =>
      if j.succeeded then
        Condition(typ, True, "JobSucceeded",
                  if j.name != "" then "Job " + j.name + " succeeded" else "Last Job succeeded", generation, 0)
      else
        Condition(typ, False, if j.reason != "" then j.reason else "JobFailed",
                  if j.message != "" then j.message
                  else if j.name != "" then "Job " + j.name + " failed" else "Last Job failed", generation, 0)
  }

  datatype Status = Status(
    phase: string,
    observedGeneration: nat,
    conditions: seq<Condition>,
    lastJob: Option<LastJob>,
    cronJobName: string,
    lastSchedule: Option<nat>,
    lastSuccess: Option<nat>,
    holderName: string)

  datatype CronInfo = CronInfo(name: string, lastSchedule: Option<nat>, lastSuccess: Option<nat>)

  /** What a call of `setStatus` is given; `jobType` is the kind's own condition type. */
  datatype Report = Report(
    generation: nat,
    jobType: string,
    phase: string,
    ready: Truth,
    reason: string,
    message: string,
    normal: bool,
    cron: Option<CronInfo>,
    holderName: string,
    lastJob: Option<LastJob>)

  predicate ValidReport(r: Report) {
    r.phase != "" && r.jobType != READY
  }

  datatype Event = Event(normal: bool, reason: string, message: string, generation: nat)

  /** The outcome of a `setStatus` call before the API is asked to store anything. */
  datatype Decision = Decision(status: Status, write: bool, event: bool)

  function ReadyCondition(r: Report): Condition {
    Condition(READY, r.ready, r.reason, r.message, r.generation, 0)
  }

  predicate GenerationChanged(generation: nat, observed: nat, phase: string) {
    observed != generation || (generation == 0 && observed == 0 && phase == "")
  }

  predicate ShouldRecordEvent(normal: bool, specChanged: bool, phaseChanged: bool, readyChanged: bool) {
    if normal then specChanged else specChanged || phaseChanged || readyChanged
  }

  function NextStatus(s: Status, r: Report, now: nat): Status {
    var ready := SetCondition(s.conditions, ReadyCondition(r), now);
    var jobs := SetCondition(ready.conditions, JobCondition(r.jobType, r.generation, r.lastJob), now);
    Status(
      r.phase, r.generation, jobs.conditions, r.lastJob,
      if r.cron.Some? then r.cron.value.name else s.cronJobName,
      if r.cron.Some? then r.cron.value.lastSchedule else s.lastSchedule,
      if r.cron.Some? then r.cron.value.lastSuccess else s.lastSuccess,
      r.holderName)
  }

  function SetStatus(s: Status, r: Report, now: nat): Decision {
    var specChanged := GenerationChanged(r.generation, s.observedGeneration, s.phase);
    var phaseChanged := s.phase != r.phase;
    var lastJobChanged := s.lastJob != r.lastJob;
    var cronChanged := r.cron.Some? && (s.cronJobName != r.cron.value.name ||
                       s.lastSchedule != r.cron.value.lastSchedule || s.lastSuccess != r.cron.value.lastSuccess);
    var holderChanged := s.holderName != r.holderName;
    var ready := SetCondition(s.conditions, ReadyCondition(r), now);
    var jobs := SetCondition(ready.conditions, JobCondition(r.jobType, r.generation, r.lastJob), now);
    Decision(
      NextStatus(s, r, now),
      specChanged || phaseChanged || (ready.changed || jobs.changed) ||
      lastJobChanged || (cronChanged || holderChanged),
      ShouldRecordEvent(r.normal, specChanged, phaseChanged, ready.changed))
  }

  /** The condition explains the last Job: by the Job's own words if it has any, else by its name. */
  predicate Explains(c: Condition, job: Option<LastJob>) {
    match job
    case None => c.reason == "NoFinishedJob" && c.message == "No finished Job yet"
    case Some(j) =>
      && (j.succeeded ==> c.reason == "JobSucceeded")
      && (!j.succeeded ==> c.reason == if j.reason == "" then "JobFailed" else j.reason)
      && (!j.succeeded && j.message != "" ==> c.message == j.message)
      && (j.succeeded || j.message == "" ==>
            c.message == (if j.name == "" then "Last Job" else "Job " + j.name) +
                         if j.succeeded then " succeeded" else " failed")
  }

  lemma JobConditionExplains(typ: string, generation: nat, job: Option<LastJob>)
    ensures Explains(JobCondition(typ, generation, job), job)
  {
    assert "Last Job" + " succeeded" == "Last Job succeeded";
    assert "Last Job" + " failed" == "Last Job failed";
  }

  /**
    The new status carries the verdict on the last Job (true, false, or unknown without one)
    under the kind's own condition type, with the reason and message that explain it and a
    transition time that moves exactly when the verdict does, and leaves conditions of foreign
    types alone.
  */
  lemma StatusTellsTheJob(s: Status, r: Report, now: nat) returns (k: nat)
    requires ValidReport(r)
    ensures var cs := NextStatus(s, r, now).conditions;
            && k < |cs| && cs[k].typ == r.jobType && cs[k].generation == r.generation
            && (cs[k].truth.Unknown? <==> r.lastJob.None?)
            && (cs[k].truth.True? <==> r.lastJob.Some? && r.lastJob.value.succeeded)
            && Explains(cs[k], r.lastJob)
            && (k < |s.conditions| ==> s.conditions[k].typ == r.jobType)
            && cs[k].since == if k < |s.conditions| && s.conditions[k].truth == cs[k].truth then s.conditions[k].since
                              else now
    ensures forall i :: 0 <= i < |s.conditions| && s.conditions[i].typ != READY && s.conditions[i].typ != r.jobType ==>
              i < |NextStatus(s, r, now).conditions| && NextStatus(s, r, now).conditions[i] == s.conditions[i]
  {
    var c1 := SetCondition(s.conditions, ReadyCondition(r), now).conditions;
    k := Find(c1, r.jobType);
    JobConditionExplains(r.jobType, r.generation, r.lastJob);
    assert k < |s.conditions| ==> c1[k].typ == r.jobType && c1[k] == s.conditions[k];
    assert |s.conditions| <= k ==> k == |c1|;
  }

  /** Which fields of the new status come from where: the times and the name of the CronJob only if there is one. */
  lemma StatusFields(s: Status, r: Report, now: nat)
    ensures var st := SetStatus(s, r, now).status;
            && st.phase == r.phase && st.observedGeneration == r.generation && st.lastJob == r.lastJob
            && st.holderName == r.holderName
            && match r.cron
               case Some(cron) =>
                 && st.cronJobName == cron.name && st.lastSchedule == cron.lastSchedule
                 && st.lastSuccess == cron.lastSuccess
               case None =>
                 st.cronJobName == s.cronJobName && st.lastSchedule == s.lastSchedule && st.lastSuccess == s.lastSuccess
  {
  }

  /** The stored Ready condition, the first of its type, already says what the report says. */
  ghost predicate SaysAlready(s: Status, r: Report) {
    exists i ::
      0 <= i < |s.conditions| && s.conditions[i].typ == "Ready" &&
      (forall k :: 0 <= k < i ==> s.conditions[k].typ != "Ready") &&
      s.conditions[i].truth == r.ready && s.conditions[i].reason == r.reason &&
      s.conditions[i].message == r.message && s.conditions[i].generation == r.generation
  }

  /**
    An event is recorded exactly on a new CR or a new generation and, for a warning, also when
    the phase or the Ready condition changes.
  */
  lemma EventIff(s: Status, r: Report, now: nat)
    ensures SetStatus(s, r, now).event <==>
            || s.observedGeneration != r.generation
            || (r.generation == 0 && s.phase == "")
            || (!r.normal && (s.phase != r.phase || !SaysAlready(s, r)))
  {
    var i := Find(s.conditions, READY);
    if i < |s.conditions| {
      assert SetCondition(s.conditions, ReadyCondition(r), now).changed <==>
             !(s.conditions[i].truth == r.ready && s.conditions[i].reason == r.reason &&
               s.conditions[i].message == r.message && s.conditions[i].generation == r.generation);
    }
  }

  /** The status is written if and only if it differs from the stored one. */
  lemma WrittenIffDifferent(s: Status, r: Report, now: nat)
    requires ValidReport(r)
    ensures SetStatus(s, r, now).write <==> SetStatus(s, r, now).status != s
  {
    var ready := ReadyCondition(r);
    var job := JobCondition(r.jobType, r.generation, r.lastJob);
    var c1 := SetCondition(s.conditions, ready, now);
    var c2 := SetCondition(c1.conditions, job, now);
    SetConditionReportsChange(s.conditions, ready, now);
    SetConditionReportsChange(c1.conditions, job, now);
    if c2.conditions == s.conditions {
      OtherTypeKept(s.conditions, ready, job, now);
    }
  }

  /** Two condition writes of different types cannot cancel out. */
  lemma OtherTypeKept(cs: seq<Condition>, c: Condition, d: Condition, now: nat)
    requires c.typ != d.typ
    requires SetCondition(SetCondition(cs, c, now).conditions, d, now).conditions == cs
    ensures SetCondition(cs, c, now).conditions == cs
  {
    var mid := SetCondition(cs, c, now).conditions;
    var end := SetCondition(mid, d, now).conditions;
    var i, j := Find(cs, c.typ), Find(mid, d.typ);
    assert |mid| <= |end|;
    assert i < |cs| && j < |mid|;
    assert i != j by {
      assert mid[i].typ == c.typ;
    }
    assert mid[i] == end[i];
    assert mid[i := cs[i]] == cs;
  }

  /** The same report again, at any later time, is a no-op: nothing to write and no event. */
  lemma RepeatedReportIsSilent(s: Status, r: Report, now: nat, later: nat)
    requires ValidReport(r)
    ensures var once := SetStatus(s, r, now).status; SetStatus(once, r, later) == Decision(once, false, false)
  {
    var ready := ReadyCondition(r);
    var job := JobCondition(r.jobType, r.generation, r.lastJob);
    var c1 := SetCondition(s.conditions, ready, now).conditions;
    var c2 := SetCondition(c1, job, now).conditions;
    SetConditionTwice(s.conditions, ready, now, later);
    SetConditionOther(c1, ready, job, now, later);
    SetConditionTwice(c1, job, now, later);
  }

  // ------------------------------------------------ events over a whole history

  /** The stored status and the recorded events after a sequence of `setStatus` calls that were all stored. */
  datatype History = History(status: Status, events: seq<Event>)

  function Step(h: History, r: Report, now: nat): History {
    var d := SetStatus(h.status, r, now);
    History(d.status, h.events + if d.event then [Event(r.normal, r.reason, r.message, r.generation)] else [])
  }

  function Replay(h: History, reports: seq<Report>, times: seq<nat>): History
    requires |times| == |reports|
  {
    if reports == [] then h
    else
      var n := |reports| - 1;
      Step(Replay(h, reports[..n], times[..n]), reports[n], times[n])
  }

  const FRESH := Status("", 0, [], None, "", None, None, "")

  /** Generations never go back. */
  predicate Ordered(reports: seq<Report>) {
    forall i, j :: 0 <= i <= j < |reports| ==> reports[i].generation <= reports[j].generation
  }

  /** At most one Normal event of generation `g`, none before `g` is observed, none on a new CR. */
  predicate Quiet(h: History, g: nat) {
    && (forall i, j :: 0 <= i < j < |h.events| && h.events[i].normal && h.events[j].normal ==>
          !(h.events[i].generation == h.events[j].generation == g))
    && (g > h.status.observedGeneration ==>
          forall i :: 0 <= i < |h.events| && h.events[i].normal ==> h.events[i].generation != g)
    && (h.status.phase == "" ==> h.events == [])
  }

  lemma StepStaysQuiet(h: History, r: Report, now: nat, g: nat)
    requires Quiet(h, g) && ValidReport(r) && h.status.observedGeneration <= r.generation
    ensures Quiet(Step(h, r, now), g)
    ensures Step(h, r, now).status.observedGeneration == r.generation
  {
    var e := Event(r.normal, r.reason, r.message, r.generation);
    var d := SetStatus(h.status, r, now);
    assert d.event && r.normal ==> GenerationChanged(r.generation, h.status.observedGeneration, h.status.phase);
    if d.event {
      assert Step(h, r, now).events == h.events + [e];
    } else {
      assert Step(h, r, now).events == h.events;
    }
  }

  /**
    From a new CR on, whatever is reported and however often, two Normal events are never of one
    generation.
  */
  lemma OneNormalEventPerGeneration(reports: seq<Report>, times: seq<nat>, i: nat, j: nat)
    requires |times| == |reports| && Ordered(reports)
    requires forall k :: 0 <= k < |reports| ==> ValidReport(reports[k])
    ensures var events := Replay(History(FRESH, []), reports, times).events;
            i < j < |events| && events[i].normal && events[j].normal ==> events[i].generation != events[j].generation
  {
    var events := Replay(History(FRESH, []), reports, times).events;
    if i < j < |events| {
      EventsStayQuiet(reports, times, events[i].generation);
    }
  }

  lemma {:induction false} EventsStayQuiet(reports: seq<Report>, times: seq<nat>, g: nat)
    requires |times| == |reports| && Ordered(reports)
    requires forall i :: 0 <= i < |reports| ==> ValidReport(reports[i])
    ensures Quiet(Replay(History(FRESH, []), reports, times), g)
    ensures Replay(History(FRESH, []), reports, times).status.observedGeneration ==
            if reports == [] then 0 else reports[|reports| - 1].generation
  {
    if reports != [] {
      var n := |reports| - 1;
      EventsStayQuiet(reports[..n], times[..n], g);
      assert n > 0 ==> reports[..n][n - 1] == reports[n - 1];
      StepStaysQuiet(Replay(History(FRESH, []), reports[..n], times[..n]), reports[n], times[n], g);
    }
  }
}
