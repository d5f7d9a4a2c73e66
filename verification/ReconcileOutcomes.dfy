/**
  How a reconcile ends, over the CR and the objects it finds: what the preconditions decide,
  and when the CR becomes Ready.
*/
module ReconcileOutcomes {
  import opened Wrappers
  import opened StatusCalc
  import opened ReconcileModel
  import opened ReconcileLaws

  /** The precondition holds: nothing refuses it, the object exists, and there is nothing wrong with it. */
  predicate Met(c: Check, objs: map<Key, Obj>) {
    c.refuse.None? && c.key in objs && c.bad(objs[c.key]).None?
  }

  ghost predicate AllMet(cr: Cr, objs: map<Key, Obj>) {
    forall i :: 0 <= i < |cr.checks| ==> Met(cr.checks[i], objs)
  }

  /** The CR is there to be reconciled, and its spec is accepted. */
  predicate Eligible(cr: Cr) {
    cr.found && !cr.deleting && cr.unsupported.None? && cr.invalid.None?
  }

  // ------------------------------------------------------------------ preconditions

  lemma {:induction false} PassedMeansMet(w: World, f: Faults, checks: seq<Check>)
    requires RunChecks(w, f, checks).Passed?
    ensures forall i :: 0 <= i < |checks| ==> Met(checks[i], w.objs)
    decreases |checks|
  {
    if checks != [] {
      PassedMeansMet(Called(w), f, checks[1..]);
      forall i | 0 <= i < |checks| ensures Met(checks[i], w.objs) {
        assert i > 0 ==> checks[i] == checks[1..][i - 1];
      }
    }
  }

  /**
    Under any faults: if a reconcile changes any object or writes Ready, then the CR is there and
    accepted, no precondition refuses it, and every checked object exists with nothing wrong.
  */
  lemma ChangesNeedChecks(w: World, f: Faults, cr: Cr, now: nat)
    requires ValidCr(cr)
    ensures var o := Reconcile(w, f, cr, now);
            o.w.objs != w.objs || (o.w.status != w.status && o.w.status.phase == "Ready") ==>
              Eligible(cr) && AllMet(cr, w.objs)
  {
    if Reaches(w, f, cr) {
      PassedMeansMet(Called(w), f, cr.checks);
    } else {
      OtherNotesAreNotReady(w, f, cr, now);
    }
  }

  /** What the first unmet precondition comes to. */
  function Verdict(c: Check, objs: map<Key, Obj>): Note {
    if c.refuse.Some? then ErrorNote(c.invalidReason, c.refuse.value)
    else if c.key !in objs then PendingNote(c.missingReason, c.missingMessage)
    else
      var bad := c.bad(objs[c.key]);
      ErrorNote(c.invalidReason, if bad.Some? then bad.value else "")
  }

  lemma {:induction false} FirstUnmet(w: World, checks: seq<Check>, i: nat)
    requires i < |checks| && !Met(checks[i], w.objs) && forall k :: 0 <= k < i ==> Met(checks[k], w.objs)
    ensures var v, c := RunChecks(w, Calm, checks), checks[i];
            if c.refuse.None? && c.key !in w.objs then v.Missing? && v.c == c
            else v.Invalid? && v.c == c && v.msg == Verdict(c, w.objs).message
    decreases |checks|
  {
    if i > 0 {
      assert Met(checks[0], w.objs);
      assert forall k :: 0 <= k < i ==> checks[k] == if k == 0 then checks[0] else checks[1..][k - 1];
      FirstUnmet(Called(w), checks[1..], i - 1);
    }
  }

  /** The outcome is this note, stored, with these objects and this requeue, and no error. */
  ghost predicate EndsWith(o: Outcome, cr: Cr, objs: map<Key, Obj>, n: Note, requeue: Option<nat>) {
    && o.err.None? && o.requeue == requeue && o.w.objs == objs
    && o.w.status.phase == n.phase && o.w.status.observedGeneration == cr.generation
    && HasReady(o.w.status.conditions, n.ready, n.reason, n.message, cr.generation)
    && o.w.status.lastJob == cr.lastJob && o.w.status.holderName == n.holderName
    && (n.cron.Some? ==>
          && o.w.status.cronJobName == n.cron.value.name && o.w.status.lastSchedule == n.cron.value.lastSchedule
          && o.w.status.lastSuccess == n.cron.value.lastSuccess)
  }

  /** Events recorded on the way are of this type, for this generation. */
  ghost predicate Tells(before: seq<Event>, after: seq<Event>, normal: bool, generation: nat) {
    && before <= after
    && forall i :: |before| <= i < |after| ==> after[i].normal == normal && after[i].generation == generation
  }

  lemma CalmNotify(w: World, cr: Cr, n: Note, now: nat, requeue: Option<nat>)
    requires ValidCr(cr) && n.phase != ""
    ensures EndsWith(Told(Notify(w, Calm, cr, n, now), requeue), cr, w.objs, n, requeue)
    ensures Tells(w.events, Notify(w, Calm, cr, n, now).w.events, n.normal, cr.generation)
  {
    NotifyStores(w, Calm, cr, n, now);
    var r := ReportOf(cr, n, cr.lastJob);
    WrittenIffDifferent(w.status, r, now);
    StatusFields(w.status, r, now);
    assert Notify(w, Calm, cr, n, now).w.status == SetStatus(w.status, r, now).status;
  }

  /**
    Without faults the first unmet precondition decides: a missing object gives Pending with its
    reason and a retry after 30 s, a refusal or a bad object gives Error with its reason and
    message; no object is changed, and any event is a warning.
  */
  lemma UnmetCheckDecides(w: World, cr: Cr, now: nat, i: nat)
    requires ValidCr(cr) && Eligible(cr) && i < |cr.checks|
    requires !Met(cr.checks[i], w.objs) && forall k :: 0 <= k < i ==> Met(cr.checks[k], w.objs)
    ensures var o, c := Reconcile(w, Calm, cr, now), cr.checks[i];
            && o.err.None? && o.w.objs == w.objs && o.w.status.holderName == ""
            && Tells(w.events, o.w.events, false, cr.generation)
            && (c.refuse.None? && c.key !in w.objs ==>
                  && o.requeue == Some(30) && o.w.status.phase == "Pending"
                  && HasReady(o.w.status.conditions, False, c.missingReason, c.missingMessage, cr.generation))
            && (c.refuse.Some? ==>
                  && o.requeue == None && o.w.status.phase == "Error"
                  && HasReady(o.w.status.conditions, False, c.invalidReason, c.refuse.value, cr.generation))
            && (c.refuse.None? && c.key in w.objs ==>
                  && o.requeue == None && o.w.status.phase == "Error" && c.bad(w.objs[c.key]).Some?
                  && HasReady(o.w.status.conditions, False, c.invalidReason, c.bad(w.objs[c.key]).value, cr.generation))
  {
    var w1, c := Called(w), cr.checks[i];
    FirstUnmet(w1, cr.checks, i);
    ChecksOnlyCall(w1, Calm, cr.checks);
    var missing := c.refuse.None? && c.key !in w.objs;
    CalmNotify(RunChecks(w1, Calm, cr.checks).w, cr, Verdict(c, w.objs), now, if missing then Some(30) else None);
  }

  /** A CR that is gone or going is left alone; an unsupported engine or a bad spec is reported, no object changed. */
  lemma IneligibleIsReported(w: World, cr: Cr, now: nat)
    requires ValidCr(cr) && !Eligible(cr)
    ensures var o := Reconcile(w, Calm, cr, now);
            && o.err.None? && o.requeue.None? && o.w.objs == w.objs
            && Tells(w.events, o.w.events, false, cr.generation)
            && (!cr.found || cr.deleting ==> o.w.status == w.status && o.w.events == w.events)
            && (cr.found && !cr.deleting ==> o.w.status.holderName == "")
            && (cr.found && !cr.deleting && cr.unsupported.Some? ==>
                  && o.w.status.phase == "Unsupported"
                  && HasReady(o.w.status.conditions, False, "UnsupportedEngine", cr.unsupported.value, cr.generation))
            && (cr.found && !cr.deleting && cr.unsupported.None? ==>
                  && o.w.status.phase == "Error" && cr.invalid.Some?
                  && HasReady(o.w.status.conditions, False, "InvalidSpec", cr.invalid.value, cr.generation))
  {
    if cr.found && !cr.deleting {
      if cr.unsupported.Some? {
        CalmNotify(Called(w), cr, UnsupportedNote(cr.unsupported.value), now, None);
      } else {
        CalmNotify(Called(w), cr, ErrorNote("InvalidSpec", cr.invalid.value), now, None);
      }
    }
  }

  // ------------------------------------------------------------------ Ready is reached

  lemma {:induction false} MetMeansPassed(w: World, checks: seq<Check>)
    requires forall i :: 0 <= i < |checks| ==> Met(checks[i], w.objs)
    ensures RunChecks(w, Calm, checks).Passed?
    decreases |checks|
  {
    if checks != [] {
      assert Met(checks[0], w.objs);
      MetMeansPassed(Called(w), checks[1..]);
    }
  }

  /** The step can be done: what it creates or updates is nobody else's. */
  predicate Clear(cr: Cr, s: Step, objs: map<Key, Obj>) {
    s.Put? ==> s.mutateError.None? && (s.key in objs ==> !HeldByOther(cr, objs[s.key]))
  }

  lemma {:induction false} StepsSucceed(w: World, cr: Cr, steps: seq<Step>)
    requires DistinctKeys(steps) && forall i :: 0 <= i < |steps| ==> Clear(cr, steps[i], w.objs)
    ensures RunSteps(w, Calm, cr, steps).failure.None?
    decreases |steps|
  {
    if steps != [] {
      var t := RunStep(w, Calm, cr, steps[0]).w;
      assert Clear(cr, steps[0], w.objs);
      forall i | 0 <= i < |steps[1..]| ensures Clear(cr, steps[1..][i], t.objs) {
        assert steps[1..][i] == steps[i + 1];
        StepIsContained(w, Calm, cr, steps[0], steps[i + 1].key);
      }
      StepsSucceed(t, cr, steps[1..]);
    }
  }

  /** What other controllers reported about an object; nothing about one that is not there. */
  function LiveOf(w: World, key: Key): Live {
    if key in w.objs then w.objs[key].live else Live(0, None, None)
  }

  lemma StepKeepsLive(w: World, f: Faults, cr: Cr, s: Step, key: Key)
    requires s.Drop? ==> s.key != key
    ensures LiveOf(RunStep(w, f, cr, s).w, key) == LiveOf(w, key)
  {
    StepIsContained(w, f, cr, s, key);
  }

  lemma {:induction false} StepsKeepLive(w: World, f: Faults, cr: Cr, steps: seq<Step>, key: Key)
    requires forall i :: 0 <= i < |steps| && steps[i].Drop? ==> steps[i].key != key
    ensures LiveOf(RunSteps(w, f, cr, steps).w, key) == LiveOf(w, key)
    decreases |steps|
  {
    if steps != [] {
      StepKeepsLive(w, f, cr, steps[0], key);
      if RunStep(w, f, cr, steps[0]).err.None? {
        StepsKeepLive(RunStep(w, f, cr, steps[0]).w, f, cr, steps[1..], key);
      }
    }
  }

  /** No foreign owner is in the way of the objects the CR needs, and its config map can be rendered. */
  ghost predicate Unobstructed(cr: Cr, objs: map<Key, Obj>) {
    && cr.configMapError.None?
    && (forall key :: key in objs && HeldByOther(cr, objs[key]) ==>
          && key != Key(ConfigMap, cr.owned) && key != Key(CronJob, cr.owned)
          && (cr.persistent ==> key != Key(Claim, cr.owned)) && (cr.needHolder ==> key != Key(Deployment, cr.holder)))
  }

  lemma StepsAreClear(cr: Cr, objs: map<Key, Obj>)
    requires Unobstructed(cr, objs)
    ensures forall i :: 0 <= i < |Steps(cr)| ==> Clear(cr, Steps(cr)[i], objs)
    ensures forall i :: 0 <= i < |Steps(cr)| && Steps(cr)[i].Drop? ==> Steps(cr)[i].key != Key(CronJob, cr.owned)
    ensures cr.needHolder ==>
              forall i :: 0 <= i < |Steps(cr)| && Steps(cr)[i].Drop? ==> !Steps(cr)[i].key.kind.Deployment?
  {
  }

  /**
    Without faults, with all preconditions met and no foreign owner in the way, a reconcile puts
    the objects in place and ends in Ready as soon as the holder, if one is needed, has a replica
    available; until then it ends in Pending with a retry after 10 s.
  */
  lemma ReadyIsReached(w: World, cr: Cr, now: nat)
    requires ValidCr(cr) && Eligible(cr) && AllMet(cr, w.objs) && Unobstructed(cr, w.objs)
    ensures var o := Reconcile(w, Calm, cr, now);
            var live := LiveOf(w, Key(CronJob, cr.owned));
            && o.err.None? && Tells(w.events, o.w.events, true, cr.generation) && o.w.status.cronJobName == cr.owned
            && o.w.status.lastSchedule == live.lastSchedule && o.w.status.lastSuccess == live.lastSuccess
            && o.w.status.lastJob == cr.lastJob && o.w.status.holderName == (if cr.needHolder then cr.holder else "")
            && if !cr.needHolder || LiveOf(w, Key(Deployment, cr.holder)).available >= 1 then
                 && o.requeue.None? && o.w.status.phase == "Ready" && InPlace(o.w.objs, cr)
                 && HasReady(o.w.status.conditions, True, "Synced", "CronJob " + cr.owned + " is synced", cr.generation)
               else
                 && o.requeue == Some(10) && o.w.status.phase == "Pending"
                 && HasReady(o.w.status.conditions, False, "VolumeHolderNotReady",
                             "waiting for volume holder Deployment " + cr.holder, cr.generation)
  {
    MetMeansPassed(Called(w), cr.checks);
    ReachedIsEnsured(w, Calm, cr, now);
    var w1 := Checkpoint(w, Calm, cr);
    StepsAreClear(cr, w.objs);
    StepsHaveDistinctKeys(cr);
    StepsSucceed(w1, cr, Steps(cr));
    ChecksOnlyCall(Called(w), Calm, cr.checks);
    StepsKeepStatus(w1, Calm, cr, Steps(cr));
    StepsPutInPlace(w1, Calm, cr);
    StepsKeepLive(w1, Calm, cr, Steps(cr), Key(CronJob, cr.owned));
    if cr.needHolder {
      StepsKeepLive(w1, Calm, cr, Steps(cr), Key(Deployment, cr.holder));
    }
    ConcludeCalmly(RunSteps(w1, Calm, cr, Steps(cr)).w, cr, now);
  }

  lemma ConcludeCalmly(w: World, cr: Cr, now: nat)
    requires ValidCr(cr) && (cr.needHolder ==> Key(Deployment, cr.holder) in w.objs)
    ensures var o := Conclude(w, Calm, cr, now);
            var live := LiveOf(w, Key(CronJob, cr.owned));
            && o.err.None? && o.w.objs == w.objs && o.w.status.cronJobName == cr.owned
            && Tells(w.events, o.w.events, true, cr.generation)
            && o.w.status.lastSchedule == live.lastSchedule && o.w.status.lastSuccess == live.lastSuccess
            && o.w.status.lastJob == cr.lastJob && o.w.status.holderName == (if cr.needHolder then cr.holder else "")
            && if !cr.needHolder || LiveOf(w, Key(Deployment, cr.holder)).available >= 1 then
                 && o.requeue.None? && o.w.status.phase == "Ready"
                 && HasReady(o.w.status.conditions, True, "Synced", "CronJob " + cr.owned + " is synced", cr.generation)
               else
                 && o.requeue == Some(10) && o.w.status.phase == "Pending"
                 && HasReady(o.w.status.conditions, False, "VolumeHolderNotReady",
                             "waiting for volume holder Deployment " + cr.holder, cr.generation)
  {
    var cron := CronOf(w, cr);
    if !cr.needHolder {
      CalmNotify(w, cr, ReadyNote(cr, cron), now, None);
    } else {
      CalmNotify(Called(w), cr, ReadyNote(cr, cron), now, None);
      CalmNotify(Called(w), cr, WaitingNote(cr, cron), now, Some(10));
    }
  }
}
