/** What holds of every reconcile, whatever the cluster looks like and whichever API call fails. */
module ReconcileLaws {
  import opened Wrappers
  import opened StatusCalc
  import opened ReconcileModel

  // ------------------------------------------------ steps settle, and settled steps are no-ops

  /** The step has nothing left to do. */
  predicate Settled(objs: map<Key, Obj>, cr: Cr, s: Step) {
    match s
    case Put(key, _, mutateError) =>
      mutateError.None? && key in objs && objs[key] == Mutated(cr, key.kind, Some(objs[key]))
    case Drop(key, _) => key !in objs || objs[key].controller != Some(cr.uid)
    case Peek(_) => true
  }

  predicate DistinctKeys(steps: seq<Step>) {
    forall i, j :: 0 <= i < j < |steps| ==> steps[i].key != steps[j].key
  }

  lemma DistinctAppend(a: seq<Step>, b: seq<Step>)
    requires DistinctKeys(a) && DistinctKeys(b)
    requires forall i, j :: 0 <= i < |a| && 0 <= j < |b| ==> a[i].key != b[j].key
    ensures DistinctKeys(a + b)
  {
  }

  lemma OwnKeys(cr: Cr)
    ensures DistinctKeys(OwnSteps(cr))
    ensures forall i :: 0 <= i < |OwnSteps(cr)| ==>
              var key := OwnSteps(cr)[i].key; key.name == if key.kind.Deployment? then cr.holder else cr.owned
  {
  }

  lemma LegacyKeys(cr: Cr)
    ensures DistinctKeys(LegacySteps(cr))
    ensures forall i :: 0 <= i < |LegacySteps(cr)| ==>
              var key := LegacySteps(cr)[i].key; key.name == cr.legacy != cr.owned && !key.kind.Deployment?
  {
  }

  /** The live steps are of different kinds, so are the legacy ones, and these have another name. */
  lemma StepsHaveDistinctKeys(cr: Cr)
    ensures DistinctKeys(Steps(cr))
  {
    OwnKeys(cr);
    LegacyKeys(cr);
    DistinctAppend(OwnSteps(cr), LegacySteps(cr));
  }

  lemma StepSettles(w: World, f: Faults, cr: Cr, s: Step)
    ensures RunStep(w, f, cr, s).err.None? ==> Settled(RunStep(w, f, cr, s).w.objs, cr, s)
    ensures RunStep(w, f, cr, s).err.Some? ==> RunStep(w, f, cr, s).w.objs == w.objs
  {
  }

  /** A step touches its own key only, and not even that one if somebody else controls the object. */
  lemma StepIsContained(w: World, f: Faults, cr: Cr, s: Step, key: Key)
    ensures var t := RunStep(w, f, cr, s).w;
            key != s.key || s.Peek? || (key in w.objs && HeldByOther(cr, w.objs[key])) ==>
              Lookup(t, key) == Lookup(w, key)
    ensures var t := RunStep(w, f, cr, s).w;
            t.status == w.status && t.events == w.events
  {
  }

  lemma {:induction false} StepsAreContained(w: World, f: Faults, cr: Cr, steps: seq<Step>, key: Key)
    requires (key in w.objs && HeldByOther(cr, w.objs[key]))
             || forall i :: 0 <= i < |steps| ==> steps[i].key != key || steps[i].Peek?
    ensures Lookup(RunSteps(w, f, cr, steps).w, key) == Lookup(w, key)
    decreases |steps|
  {
    if steps != [] {
      StepIsContained(w, f, cr, steps[0], key);
      var a := RunStep(w, f, cr, steps[0]);
      if a.err.None? {
        StepsAreContained(a.w, f, cr, steps[1..], key);
      }
    }
  }

  lemma {:induction false} StepsKeepStatus(w: World, f: Faults, cr: Cr, steps: seq<Step>)
    ensures var t := RunSteps(w, f, cr, steps).w;
            t.status == w.status && t.events == w.events
    decreases |steps|
  {
    if steps != [] {
      StepIsContained(w, f, cr, steps[0], steps[0].key);
      var a := RunStep(w, f, cr, steps[0]);
      if a.err.None? {
        StepsKeepStatus(a.w, f, cr, steps[1..]);
      }
    }
  }

  /** A settled step stays settled while steps with other keys run. */
  lemma {:induction false} SettledStays(w: World, f: Faults, cr: Cr, steps: seq<Step>, s: Step)
    requires Settled(w.objs, cr, s)
    requires forall i :: 0 <= i < |steps| ==> steps[i].key != s.key
    ensures Settled(RunSteps(w, f, cr, steps).w.objs, cr, s)
  {
    StepsAreContained(w, f, cr, steps, s.key);
    assert Lookup(RunSteps(w, f, cr, steps).w, s.key) == Lookup(w, s.key);
  }

  lemma {:induction false} AllStepsSettle(w: World, f: Faults, cr: Cr, steps: seq<Step>, i: nat)
    requires DistinctKeys(steps) && i < |steps|
    requires RunSteps(w, f, cr, steps).failure.None?
    ensures Settled(RunSteps(w, f, cr, steps).w.objs, cr, steps[i])
    decreases |steps|
  {
    var a := RunStep(w, f, cr, steps[0]);
    StepSettles(w, f, cr, steps[0]);
    if i == 0 {
      SettledStays(a.w, f, cr, steps[1..], steps[0]);
    } else {
      AllStepsSettle(a.w, f, cr, steps[1..], i - 1);
    }
  }

  lemma SettledStepIsNoop(v: World, cr: Cr, s: Step)
    requires Settled(v.objs, cr, s)
    ensures RunStep(v, Calm, cr, s) == Answer(Called(v), None)
  {
  }

  /** The outcome of a fault-free step depends on the objects alone. */
  lemma FailedStepFailsAgain(w: World, v: World, cr: Cr, s: Step)
    requires v.objs == w.objs && RunStep(w, Calm, cr, s).err.Some?
    ensures RunStep(v, Calm, cr, s) == Answer(Called(v), RunStep(w, Calm, cr, s).err)
  {
  }

  /** Run again on what the first run left, the steps fail or succeed alike and write nothing. */
  lemma {:induction false} StepsTwice(w: World, v: World, cr: Cr, steps: seq<Step>)
    requires DistinctKeys(steps)
    requires v.objs == RunSteps(w, Calm, cr, steps).w.objs
    ensures var r := RunSteps(v, Calm, cr, steps);
            r.failure == RunSteps(w, Calm, cr, steps).failure && r.w == v.(calls := r.w.calls)
    decreases |steps|
  {
    if steps != [] {
      var a := RunStep(w, Calm, cr, steps[0]);
      StepSettles(w, Calm, cr, steps[0]);
      if a.err.Some? {
        FailedStepFailsAgain(w, v, cr, steps[0]);
      } else {
        SettledStays(a.w, Calm, cr, steps[1..], steps[0]);
        SettledStepIsNoop(v, cr, steps[0]);
        StepsTwice(a.w, Called(v), cr, steps[1..]);
      }
    }
  }

  // ------------------------------------------------ errors

  /** The reported reason is that of the first step that failed, with that step's error. */
  lemma {:induction false} FailureNamesItsStep(w: World, f: Faults, cr: Cr, steps: seq<Step>) returns (k: nat)
    requires RunSteps(w, f, cr, steps).failure.Some?
    ensures k < |steps| && RunSteps(w, f, cr, steps[..k]).failure.None?
    ensures var failure := RunSteps(w, f, cr, steps).failure.value;
            && RunStep(RunSteps(w, f, cr, steps[..k]).w, f, cr, steps[k]).err == Some(failure.err)
            && failure.reason == Reason(steps[k])
    decreases |steps|
  {
    var a := RunStep(w, f, cr, steps[0]);
    if a.err.Some? {
      k := 0;
    } else {
      var j := FailureNamesItsStep(a.w, f, cr, steps[1..]);
      k := j + 1;
      assert steps[..k][0] == steps[0] && steps[..k][1..] == steps[1..][..j];
    }
  }

  /** The reconcile gets as far as the owned objects. */
  predicate Reaches(w: World, f: Faults, cr: Cr) {
    && FaultOf(w, f).None? && cr.found && !cr.deleting
    && cr.unsupported.None? && cr.invalid.None?
    && RunChecks(Called(w), f, cr.checks).Passed?
  }

  function Checkpoint(w: World, f: Faults, cr: Cr): World {
    RunChecks(Called(w), f, cr.checks).w
  }

  lemma {:induction false} ChecksOnlyCall(w: World, f: Faults, checks: seq<Check>)
    ensures RunChecks(w, f, checks).w == w.(calls := RunChecks(w, f, checks).w.calls)
    decreases |checks|
  {
    if checks != [] {
      ChecksOnlyCall(Called(w), f, checks[1..]);
    }
  }

  /** A conflict on an owned object leaves status and events as they were and asks for a quick retry. */
  lemma ConflictIsSilent(w: World, f: Faults, cr: Cr, now: nat)
    requires Reaches(w, f, cr)
    requires var e := RunSteps(Checkpoint(w, f, cr), f, cr, Steps(cr));
             e.failure.Some? && e.failure.value.err.Conflict?
    ensures var o := Reconcile(w, f, cr, now);
            o.w.status == w.status && o.w.events == w.events && o.requeue == Some(1) && o.err.None?
  {
    ChecksOnlyCall(Called(w), f, cr.checks);
    StepsKeepStatus(Checkpoint(w, f, cr), f, cr, Steps(cr));
  }

  /** A Ready condition with these contents is stored. */
  ghost predicate HasReady(cs: seq<Condition>, truth: Truth, reason: string, message: string, generation: nat) {
    exists i :: 0 <= i < |cs| && cs[i].typ == "Ready" && cs[i].truth == truth && cs[i].reason == reason &&
                cs[i].message == message && cs[i].generation == generation
  }

  lemma SetConditionStores(cs: seq<Condition>, c: Condition, now: nat)
    ensures var r := SetCondition(cs, c, now).conditions;
            var i := Find(cs, c.typ);
            i < |r| && r[i] == c.(since := r[i].since)
  {
  }

  lemma NextStatusHasReady(s: Status, r: Report, now: nat)
    requires ValidReport(r)
    ensures HasReady(NextStatus(s, r, now).conditions, r.ready, r.reason, r.message, r.generation)
  {
    var ready := ReadyCondition(r);
    var c1 := SetCondition(s.conditions, ready, now).conditions;
    var i := Find(s.conditions, READY);
    SetConditionStores(s.conditions, ready, now);
    var job := JobCondition(r.jobType, r.generation, r.lastJob);
    var c2 := SetCondition(c1, job, now).conditions;
    assert c2[i] == c1[i];
    assert c2[i].typ == READY && c2[i].reason == r.reason;
  }

  /** Either the status write failed, with nothing stored, or the stored status says what the note says. */
  lemma NotifyStores(w: World, f: Faults, cr: Cr, n: Note, now: nat)
    requires ValidCr(cr) && n.phase != ""
    ensures var a := Notify(w, f, cr, n, now);
            && a.w.objs == w.objs
            && (a.err.Some? ==> a.w.status == w.status)
            && (a.err.None? ==> a.w.status.phase == n.phase && a.w.status.observedGeneration == cr.generation &&
                                HasReady(a.w.status.conditions, n.ready, n.reason, n.message, cr.generation))
  {
    var job := if FaultOf(w, f).Some? then None else cr.lastJob;
    var r := ReportOf(cr, n, job);
    WrittenIffDifferent(w.status, r, now);
    NextStatusHasReady(w.status, r, now);
  }

  /**
    Any other failure of an owned object is reported under the failing step's reason: phase
    Error and Ready false with that reason and message, and the error is returned (unless the
    status write itself fails).
  */
  lemma FailureIsReported(w: World, f: Faults, cr: Cr, now: nat)
    requires ValidCr(cr) && Reaches(w, f, cr)
    requires var e := RunSteps(Checkpoint(w, f, cr), f, cr, Steps(cr));
             e.failure.Some? && !e.failure.value.err.Conflict? && FaultOf(Called(e.w), f).None?
    ensures var fl := RunSteps(Checkpoint(w, f, cr), f, cr, Steps(cr)).failure.value;
            var o := Reconcile(w, f, cr, now);
            o.w.status.phase == "Error" && o.err == Some(fl.err) &&
            HasReady(o.w.status.conditions, False, fl.reason,
                     if fl.err.Other? then fl.err.msg else Message(fl.err), cr.generation)
  {
    var e := RunSteps(Checkpoint(w, f, cr), f, cr, Steps(cr));
    NotifyStores(e.w, f, cr, ErrorNote(e.failure.value.reason, Message(e.failure.value.err)), now);
  }

  // ------------------------------------------------ Ready

  /** The CR's ConfigMap, CronJob, claim and holder are there, its own and up to date; nothing unneeded is left. */
  ghost predicate InPlace(objs: map<Key, Obj>, cr: Cr) {
    && Current(objs, cr, Key(ConfigMap, cr.owned))
    && Current(objs, cr, Key(CronJob, cr.owned))
    && (cr.persistent ==> Current(objs, cr, Key(Claim, cr.owned)))
    && (cr.needHolder ==> Current(objs, cr, Key(Deployment, cr.holder)) &&
                          objs[Key(Deployment, cr.holder)].live.available >= 1)
    && (!cr.needHolder ==> !Own(objs, cr, Key(Deployment, cr.holder)))
    && (cr.legacy != cr.owned ==>
          !Own(objs, cr, Key(ConfigMap, cr.legacy)) && !Own(objs, cr, Key(CronJob, cr.legacy)))
  }

  /** The object is the CR's own and says what the CR asks for; a claim is at least as large. */
  predicate Current(objs: map<Key, Obj>, cr: Cr, key: Key) {
    && Own(objs, cr, key)
    && objs[key].labels == cr.labels
    && (if key.kind.Claim? then objs[key].size >= cr.size else objs[key].spec == cr.specs(key.kind))
  }

  predicate Own(objs: map<Key, Obj>, cr: Cr, key: Key) {
    key in objs && objs[key].controller == Some(cr.uid)
  }

  /** Steps that all succeeded leave the CR's objects in place, up to the holder's availability. */
  lemma StepsPutInPlace(w: World, f: Faults, cr: Cr)
    requires RunSteps(w, f, cr, Steps(cr)).failure.None?
    ensures var objs := RunSteps(w, f, cr, Steps(cr)).w.objs;
            && (cr.needHolder ==> Key(Deployment, cr.holder) in objs)
            && (!cr.needHolder || objs[Key(Deployment, cr.holder)].live.available >= 1 ==> InPlace(objs, cr))
  {
    StepsHaveDistinctKeys(cr);
    var steps := Steps(cr);
    forall i: nat | i < |steps| ensures Settled(RunSteps(w, f, cr, steps).w.objs, cr, steps[i]) {
      AllStepsSettle(w, f, cr, steps, i);
    }
    var k := if cr.persistent then 1 else 0;
    assert steps[0].key == Key(ConfigMap, cr.owned);
    assert cr.persistent ==> steps[1] == Put(Key(Claim, cr.owned), "PVCError", None);
    assert steps[k + 1].key == Key(Deployment, cr.holder);
    assert steps[k + 2] == Put(Key(CronJob, cr.owned), "CronJobError", None);
    assert cr.legacy != cr.owned ==>
        && steps[k + 3] == Drop(Key(ConfigMap, cr.legacy), "LegacyCleanupError")
        && steps[k + 4] == Drop(Key(CronJob, cr.legacy), "LegacyCleanupError");
  }

  /** Under any faults, a status that becomes Ready says the truth about the CR's objects. */
  lemma ReadyMeansInPlace(w: World, f: Faults, cr: Cr, now: nat)
    requires ValidCr(cr)
    ensures var o := Reconcile(w, f, cr, now);
            o.w.status != w.status && o.w.status.phase == "Ready" ==> InPlace(o.w.objs, cr)
  {
    if Reaches(w, f, cr) {
      ReachedIsEnsured(w, f, cr, now);
      EnsureReady(Checkpoint(w, f, cr), f, cr, now);
    } else {
      OtherNotesAreNotReady(w, f, cr, now);
    }
  }

  lemma ReachedIsEnsured(w: World, f: Faults, cr: Cr, now: nat)
    requires Reaches(w, f, cr)
    ensures Reconcile(w, f, cr, now).w == Ensure(Checkpoint(w, f, cr), f, cr, now).w
    ensures Checkpoint(w, f, cr) == w.(calls := Checkpoint(w, f, cr).calls)
  {
    ChecksOnlyCall(Called(w), f, cr.checks);
  }

  lemma EnsureReady(w: World, f: Faults, cr: Cr, now: nat)
    requires ValidCr(cr)
    ensures var o := Ensure(w, f, cr, now);
            o.w.status != w.status && o.w.status.phase == "Ready" ==> InPlace(o.w.objs, cr)
  {
    var e := RunSteps(w, f, cr, Steps(cr));
    StepsKeepStatus(w, f, cr, Steps(cr));
    if e.failure.None? {
      StepsPutInPlace(w, f, cr);
      ConcludeReady(e.w, f, cr, now);
    } else {
      FailIsNotReady(e.w, f, cr, e.failure.value, now);
    }
  }

  lemma FailIsNotReady(w: World, f: Faults, cr: Cr, fl: Failure, now: nat)
    requires ValidCr(cr)
    ensures var o := Fail(w, f, cr, fl, now);
            o.w.objs == w.objs && (o.w.status == w.status || o.w.status.phase != "Ready")
  {
    NotifyStores(w, f, cr, ErrorNote(fl.reason, Message(fl.err)), now);
  }

  lemma ConcludeReady(w: World, f: Faults, cr: Cr, now: nat)
    requires ValidCr(cr)
    ensures var o := Conclude(w, f, cr, now);
            && o.w.objs == w.objs
            && (o.w.status != w.status && o.w.status.phase == "Ready" && cr.needHolder ==>
                  Key(Deployment, cr.holder) in w.objs && w.objs[Key(Deployment, cr.holder)].live.available >= 1)
  {
    var cron := CronOf(w, cr);
    NotifyStores(w, f, cr, ReadyNote(cr, cron), now);
    NotifyStores(Called(w), f, cr, ReadyNote(cr, cron), now);
    NotifyStores(Called(w), f, cr, WaitingNote(cr, cron), now);
    if FaultOf(w, f).Some? {
      FailIsNotReady(Called(w), f, cr, Failure("VolumeHolderError", FaultOf(w, f).value), now);
    }
    FailIsNotReady(Called(w), f, cr, Failure("VolumeHolderError", NotFound), now);
  }

  lemma OtherNotesAreNotReady(w: World, f: Faults, cr: Cr, now: nat)
    requires ValidCr(cr) && !Reaches(w, f, cr)
    ensures var o := Reconcile(w, f, cr, now);
            o.w.objs == w.objs && (o.w.status == w.status || o.w.status.phase != "Ready")
  {
    var w1 := Called(w);
    if FaultOf(w, f).None? && cr.found && !cr.deleting {
      if cr.unsupported.Some? {
        NotifyStores(w1, f, cr, UnsupportedNote(cr.unsupported.value), now);
      } else if cr.invalid.Some? {
        NotifyStores(w1, f, cr, ErrorNote("InvalidSpec", cr.invalid.value), now);
      } else {
        ChecksOnlyCall(w1, f, cr.checks);
        match RunChecks(w1, f, cr.checks) {
          case Missing(w2, c) => NotifyStores(w2, f, cr, PendingNote(c.missingReason, c.missingMessage), now);
          case Invalid(w2, c, msg) => NotifyStores(w2, f, cr, ErrorNote(c.invalidReason, msg), now);
          case Passed(_) =>
        }
      }
    }
  }

  // ------------------------------------------------ containment and repetition

  /** A reconcile changes no Secret, no claim but its own, and nothing another controller holds. */
  lemma ReconcileIsContained(w: World, f: Faults, cr: Cr, now: nat, key: Key)
    requires ValidCr(cr)
    requires
      || (key in w.objs && HeldByOther(cr, w.objs[key]))
      || key.kind.Secret?
      || (key.kind.Claim? && key.name != cr.owned)
    ensures Lookup(Reconcile(w, f, cr, now).w, key) == Lookup(w, key)
  {
    if Reaches(w, f, cr) {
      ChecksOnlyCall(Called(w), f, cr.checks);
      var w2 := Checkpoint(w, f, cr);
      StepsAreContained(w2, f, cr, Steps(cr), key);
      var e := RunSteps(w2, f, cr, Steps(cr));
      if e.failure.Some? {
        FailIsNotReady(e.w, f, cr, e.failure.value, now);
      } else {
        ConcludeReady(e.w, f, cr, now);
      }
    } else {
      OtherNotesAreNotReady(w, f, cr, now);
    }
  }

  /** Same objects, same answers: checks passed once pass again. */
  lemma {:induction false} ChecksTwice(w: World, v: World, cr: Cr, checks: seq<Check>)
    requires forall i :: 0 <= i < |checks| ==>
               checks[i].refuse.Some? || Lookup(v, checks[i].key) == Lookup(w, checks[i].key)
    ensures match RunChecks(w, Calm, checks)
            case Passed(_) => RunChecks(v, Calm, checks).Passed?
            case Missing(_, c) => RunChecks(v, Calm, checks).Missing? && RunChecks(v, Calm, checks).c == c
            case Invalid(_, c, msg) =>
              RunChecks(v, Calm, checks).Invalid? &&
              RunChecks(v, Calm, checks).c == c && RunChecks(v, Calm, checks).msg == msg
    decreases |checks|
  {
    if checks != [] && checks[0].refuse.None? {
      assert Lookup(v, checks[0].key) == Lookup(w, checks[0].key);
      ChecksTwice(Called(w), Called(v), cr, checks[1..]);
    }
  }

  /** Told the same thing again, nothing is stored and nothing recorded. */
  lemma NotifyTwice(w: World, v: World, cr: Cr, n: Note, now: nat, later: nat)
    requires ValidCr(cr) && n.phase != ""
    requires v.status == Notify(w, Calm, cr, n, now).w.status
    ensures Notify(v, Calm, cr, n, later) == Answer(Called(v), None)
    ensures Notify(w, Calm, cr, n, now).err.None?
  {
    var r := ReportOf(cr, n, cr.lastJob);
    WrittenIffDifferent(w.status, r, now);
    RepeatedReportIsSilent(w.status, r, now, later);
    assert v.status == SetStatus(w.status, r, now).status;
    assert v.events + [] == v.events;
  }

  predicate Unchanged(w: World, v: World) {
    v.objs == w.objs && v.status == w.status && v.events == w.events && v.writes == w.writes
  }

  lemma ConcludeTwice(w: World, v: World, cr: Cr, now: nat, later: nat)
    requires ValidCr(cr)
    requires var o := Conclude(w, Calm, cr, now);
             v.objs == o.w.objs && v.status == o.w.status
    ensures Unchanged(v, Conclude(v, Calm, cr, later).w)
  {
    ConcludeReady(w, Calm, cr, now);
    var cron := CronOf(w, cr);
    var key := Key(Deployment, cr.holder);
    if !cr.needHolder {
      NotifyTwice(w, v, cr, ReadyNote(cr, cron), now, later);
    } else if key !in w.objs {
      NotifyTwice(Called(w), Called(v), cr, ErrorNote("VolumeHolderError", Message(NotFound)), now, later);
    } else if w.objs[key].live.available >= 1 {
      NotifyTwice(Called(w), Called(v), cr, ReadyNote(cr, cron), now, later);
    } else {
      NotifyTwice(Called(w), Called(v), cr, WaitingNote(cr, cron), now, later);
    }
  }

  lemma EnsureTwice(w: World, v: World, cr: Cr, now: nat, later: nat)
    requires ValidCr(cr)
    requires var o := Ensure(w, Calm, cr, now);
             v.objs == o.w.objs && v.status == o.w.status
    ensures Unchanged(v, Ensure(v, Calm, cr, later).w)
  {
    var e := RunSteps(w, Calm, cr, Steps(cr));
    StepsHaveDistinctKeys(cr);
    StepsKeepStatus(w, Calm, cr, Steps(cr));
    CalmNeverConflicts(w, cr, Steps(cr));
    if e.failure.Some? {
      var note := ErrorNote(e.failure.value.reason, Message(e.failure.value.err));
      NotifyStores(e.w, Calm, cr, note, now);
      StepsTwice(w, v, cr, Steps(cr));
      NotifyTwice(e.w, RunSteps(v, Calm, cr, Steps(cr)).w, cr, note, now, later);
    } else {
      ConcludeReady(e.w, Calm, cr, now);
      StepsTwice(w, v, cr, Steps(cr));
      ConcludeTwice(e.w, RunSteps(v, Calm, cr, Steps(cr)).w, cr, now, later);
    }
  }

  lemma {:induction false} CalmNeverConflicts(w: World, cr: Cr, steps: seq<Step>)
    ensures var e := RunSteps(w, Calm, cr, steps); e.failure.Some? ==> !e.failure.value.err.Conflict?
    decreases |steps|
  {
    if steps != [] {
      var a := RunStep(w, Calm, cr, steps[0]);
      if a.err.None? {
        CalmNeverConflicts(a.w, cr, steps[1..]);
      }
    }
  }

  /** One note that ends a reconcile early, told twice. */
  lemma EarlyNoteTwice(w: World, v: World, cr: Cr, n: Note, now: nat, later: nat)
    requires ValidCr(cr) && n.phase != ""
    requires v.status == Notify(w, Calm, cr, n, now).w.status
    ensures Unchanged(v, Notify(v, Calm, cr, n, later).w)
  {
    NotifyTwice(w, v, cr, n, now, later);
  }

  /**
    Without faults, a second reconcile of an unchanged cluster writes no object and no status
    and records no event, whichever way the first one ended.
  */
  lemma SecondReconcileIsSilent(w: World, cr: Cr, now: nat, later: nat)
    requires ValidCr(cr)
    ensures var v := Reconcile(w, Calm, cr, now).w;
            Unchanged(v, Reconcile(v, Calm, cr, later).w)
  {
    var v := Reconcile(w, Calm, cr, now).w;
    var w1, v1 := Called(w), Called(v);
    if cr.found && !cr.deleting {
      if cr.unsupported.Some? {
        EarlyNoteTwice(w1, v1, cr, UnsupportedNote(cr.unsupported.value), now, later);
      } else if cr.invalid.Some? {
        EarlyNoteTwice(w1, v1, cr, ErrorNote("InvalidSpec", cr.invalid.value), now, later);
      } else {
        ChecksStable(w, cr, now);
        GateTwice(w1, v1, cr, now, later);
      }
    }
  }

  lemma GateTwice(w: World, v: World, cr: Cr, now: nat, later: nat)
    requires ValidCr(cr)
    requires forall i :: 0 <= i < |cr.checks| ==>
               cr.checks[i].refuse.Some? || Lookup(v, cr.checks[i].key) == Lookup(w, cr.checks[i].key)
    requires var o := Gate(w, Calm, cr, now); v.objs == o.w.objs && v.status == o.w.status
    ensures Unchanged(v, Gate(v, Calm, cr, later).w)
  {
    ChecksTwice(w, v, cr, cr.checks);
    ChecksOnlyCall(w, Calm, cr.checks);
    ChecksOnlyCall(v, Calm, cr.checks);
    var v1 := RunChecks(v, Calm, cr.checks).w;
    match RunChecks(w, Calm, cr.checks) {
      case Missing(w1, c) => EarlyNoteTwice(w1, v1, cr, PendingNote(c.missingReason, c.missingMessage), now, later);
      case Invalid(w1, c, msg) => EarlyNoteTwice(w1, v1, cr, ErrorNote(c.invalidReason, msg), now, later);
      case Passed(w1) => EnsureTwice(w1, v1, cr, now, later);
    }
  }

  /** The reconcile does not change what the preconditions look at. */
  lemma ChecksStable(w: World, cr: Cr, now: nat)
    requires ValidCr(cr)
    ensures forall i :: 0 <= i < |cr.checks| ==>
              cr.checks[i].refuse.Some? ||
              Lookup(Called(Reconcile(w, Calm, cr, now).w), cr.checks[i].key) == Lookup(Called(w), cr.checks[i].key)
  {
    forall i | 0 <= i < |cr.checks| && cr.checks[i].refuse.None?
      ensures Lookup(Called(Reconcile(w, Calm, cr, now).w), cr.checks[i].key) == Lookup(Called(w), cr.checks[i].key)
    {
      ReconcileIsContained(w, Calm, cr, now, cr.checks[i].key);
    }
  }
}
