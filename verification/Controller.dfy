/**
  The reconcilers' code: ordered API calls with early returns, and a status that is updated
  field by field.  Every method is proved equal to its counterpart in ReconcileModel.
*/
module Controller {
  import opened Wrappers
  import opened StatusCalc
  import opened ReconcileModel

  /** `meta.SetStatusCondition`: find the condition by type, then change what differs. */
  method SetStatusCondition(cs: seq<Condition>, c: Condition, now: nat) returns (out: seq<Condition>, changed: bool)
    ensures Change(out, changed) == SetCondition(cs, c, now)
  {
    var i := 0;
    while i < |cs| && cs[i].typ != c.typ
      invariant i <= |cs|
      invariant forall j :: 0 <= j < i ==> cs[j].typ != c.typ
    {
      i := i + 1;
    }
    assert i == Find(cs, c.typ);
    if i == |cs| {
      return cs + [c.(since := now)], true;
    }
    var existing := cs[i];
    changed := false;
    if existing.truth != c.truth {
      existing := existing.(truth := c.truth, since := now);
      changed := true;
    }
    if existing.reason != c.reason {
      existing := existing.(reason := c.reason);
      changed := true;
    }
    if existing.message != c.message {
      existing := existing.(message := c.message);
      changed := true;
    }
    if existing.generation != c.generation {
      existing := existing.(generation := c.generation);
      changed := true;
    }
    out := cs[i := existing];
  }

  /** The body of setStatus: the status updated field by field, and what the changes call for. */
  method ComputeStatus(s: Status, r: Report, now: nat) returns (st: Status, needsWrite: bool, recordEvent: bool)
    ensures Decision(st, needsWrite, recordEvent) == SetStatus(s, r, now)
  {
    st := s;
    var specChanged := GenerationChanged(r.generation, st.observedGeneration, st.phase);
    var phaseChanged := st.phase != r.phase;
    var lastJobChanged := st.lastJob != r.lastJob;

    var cronChanged := false;
    if r.cron.Some? {
      var cron := r.cron.value;
      cronChanged := st.cronJobName != cron.name || st.lastSchedule != cron.lastSchedule ||
        st.lastSuccess != cron.lastSuccess;
      st := st.(cronJobName := cron.name, lastSchedule := cron.lastSchedule, lastSuccess := cron.lastSuccess);
    }
    var holderChanged := st.holderName != r.holderName;
    st := st.(holderName := r.holderName);

    var conditions, readyChanged := SetStatusCondition(
      st.conditions, Condition(READY, r.ready, r.reason, r.message, r.generation, 0), now);
    var succeededChanged;
    conditions, succeededChanged := SetStatusCondition(
      conditions, JobCondition(r.jobType, r.generation, r.lastJob), now);
    st := st.(conditions := conditions, lastJob := r.lastJob, phase := r.phase, observedGeneration := r.generation);

    recordEvent := ShouldRecordEvent(r.normal, specChanged, phaseChanged, readyChanged);
    needsWrite := specChanged || phaseChanged || readyChanged || succeededChanged || lastJobChanged ||
      cronChanged || holderChanged;
  }

  /** The API server as one reconcile sees it, with the faults it injects. */
  class Client {
    const faults: Faults
    var objs: map<Key, Obj>
    var status: Status
    var events: seq<Event>
    var calls: nat
    var writes: nat

    ghost function State(): World
      reads this
    {
      World(objs, status, events, calls, writes)
    }

    constructor (faults: Faults, objs: map<Key, Obj>, status: Status)
      ensures State() == World(objs, status, [], 0, 0) && this.faults == faults
    {
      this.faults := faults;
      this.objs := objs;
      this.status := status;
      this.events := [];
      this.calls := 0;
      this.writes := 0;
    }

    /** One API call: counted, and perhaps failed. */
    method Call() returns (err: Option<ApiError>)
      modifies this
      ensures State() == Called(old(State())) && err == FaultOf(old(State()), faults)
    {
      match faults(calls) {
        case Fine => err := None;
        case ConflictFault => err := Some(Conflict);
        case OtherFault(msg) => err := Some(Other(msg));
      }
      calls := calls + 1;
    }

    method CreateOrUpdate(cr: Cr, key: Key, mutateError: Option<string>) returns (err: Option<ApiError>)
      modifies this
      ensures Answer(State(), err) == Upsert(old(State()), faults, cr, key, mutateError)
    {
      err := Call();
      if err.Some? {
        return;
      }
      if mutateError.Some? {
        return Some(Other(mutateError.value));
      }
      var cur := if key in objs then Some(objs[key]) else None;
      if cur.Some? && cur.value.controller.Some? && cur.value.controller.value != cr.uid {
        return Some(Other("already owned"));
      }
      var next := Mutated(cr, key.kind, cur);
      if cur == Some(next) {
        return None;
      }
      err := Call();
      if err.None? {
        objs := objs[key := next];
        writes := writes + 1;
      }
    }

    method DeleteIfController(cr: Cr, key: Key) returns (err: Option<ApiError>)
      modifies this
      ensures Answer(State(), err) == DeleteOwn(old(State()), faults, cr, key)
    {
      err := Call();
      if err.Some? {
        return;
      }
      if key !in objs || objs[key].controller != Some(cr.uid) {
        return None;
      }
      err := Call();
      if err.None? {
        objs := objs - {key};
        writes := writes + 1;
      }
    }

    /** ensureOwned, then deleteLegacyOwned. */
    method EnsureOwned(cr: Cr) returns (failure: Option<Failure>)
      modifies this
      ensures Ensured(State(), failure) == RunSteps(old(State()), faults, cr, Steps(cr))
    {
      ghost var goal := RunSteps(State(), faults, cr, Steps(cr));
      ghost var rest := Steps(cr);

      var err := CreateOrUpdate(cr, Key(ConfigMap, cr.owned), cr.configMapError);
      if err.Some? {
        return Some(Failure("ConfigMapError", err.value));
      }
      rest := rest[1..];
      assert goal == RunSteps(State(), faults, cr, rest);

      if cr.persistent {
        err := CreateOrUpdate(cr, Key(Claim, cr.owned), None);
        if err.Some? {
          return Some(Failure("PVCError", err.value));
        }
        rest := rest[1..];
        assert goal == RunSteps(State(), faults, cr, rest);
      }

      if cr.needHolder {
        err := CreateOrUpdate(cr, Key(Deployment, cr.holder), None);
        if err.Some? {
          return Some(Failure("VolumeHolderError", err.value));
        }
      } else {
        err := DeleteIfController(cr, Key(Deployment, cr.holder));
        if err.Some? {
          return Some(Failure("VolumeHolderCleanupError", err.value));
        }
      }
      rest := rest[1..];
      assert goal == RunSteps(State(), faults, cr, rest);

      err := CreateOrUpdate(cr, Key(CronJob, cr.owned), None);
      if err.Some? {
        return Some(Failure("CronJobError", err.value));
      }
      rest := rest[1..];
      assert goal == RunSteps(State(), faults, cr, rest);
      assert rest == LegacySteps(cr);
      failure := DeleteLegacyOwned(cr);
    }

    method DeleteLegacyOwned(cr: Cr) returns (failure: Option<Failure>)
      modifies this
      ensures Ensured(State(), failure) == RunSteps(old(State()), faults, cr, LegacySteps(cr))
    {
      if cr.legacy == cr.owned {
        return None;
      }
      ghost var goal := RunSteps(State(), faults, cr, LegacySteps(cr));
      ghost var rest := LegacySteps(cr);
      var err := DeleteIfController(cr, Key(ConfigMap, cr.legacy));
      if err.Some? {
        return Some(Failure("LegacyCleanupError", err.value));
      }
      rest := rest[1..];
      assert goal == RunSteps(State(), faults, cr, rest);
      err := DeleteIfController(cr, Key(CronJob, cr.legacy));
      if err.Some? {
        return Some(Failure("LegacyCleanupError", err.value));
      }
      rest := rest[1..];
      assert goal == RunSteps(State(), faults, cr, rest);
      assert rest[1..] == [];
      var _ := Call();
      failure := None;
    }

    /** setStatus: list the Jobs, work out the new status, record the event, store it if anything changed. */
    method UpdateStatus(cr: Cr, n: Note, now: nat) returns (err: Option<ApiError>)
      modifies this
      ensures Answer(State(), err) == Notify(old(State()), faults, cr, n, now)
    {
      var listErr := Call();
      var newLastJob := if listErr.Some? then None else cr.lastJob;
      var st, needsWrite, recordEvent := ComputeStatus(status, ReportOf(cr, n, newLastJob), now);
      if recordEvent {
        events := events + [Event(n.normal, n.reason, n.message, cr.generation)];
      } else {
        assert events + [] == events;
      }
      if !needsWrite {
        return None;
      }
      err := Call();
      if err.None? {
        status := st;
        writes := writes + 1;
      }
    }

    method Fail(cr: Cr, failure: Failure, now: nat) returns (err: Option<ApiError>)
      modifies this
      ensures Outcome(State(), None, err) == ReconcileModel.Fail(old(State()), faults, cr, failure, now)
    {
      if failure.err.Conflict? {
        return Some(Conflict);
      }
      err := UpdateStatus(cr, ErrorNote(failure.reason, Message(failure.err)), now);
      if err.None? {
        err := Some(failure.err);
      }
    }

    /** ensureSecret, checkSourcePVC, ensureJobSecret, ensureTargetSecret: the first one that does not hold. */
    method CheckAll(checks: seq<Check>) returns (i: nat, problem: Option<string>)
      modifies this
      ensures i <= |checks|
      ensures match RunChecks(old(State()), faults, checks)
              case Passed(w) => i == |checks| && State() == w
              case Missing(w, c) => i < |checks| && checks[i] == c && problem.None? && State() == w
              case Invalid(w, c, msg) => i < |checks| && checks[i] == c && problem == Some(msg) && State() == w
    {
      i := 0;
      problem := None;
      ghost var goal := RunChecks(State(), faults, checks);
      while i < |checks|
        invariant i <= |checks| && problem.None?
        invariant goal == RunChecks(State(), faults, checks[i..])
      {
        var c := checks[i];
        assert checks[i..][0] == c && checks[i..][1..] == checks[i + 1..];
        if c.refuse.Some? {
          problem := c.refuse;
          return;
        }
        var err := Call();
        if err.Some? {
          problem := Some(Message(err.value));
          return;
        }
        if c.key !in objs {
          return;
        }
        problem := c.bad(objs[c.key]);
        if problem.Some? {
          return;
        }
        i := i + 1;
      }
    }

    method ReconcileOwned(cr: Cr, now: nat) returns (requeue: Option<nat>, err: Option<ApiError>)
      modifies this
      ensures Outcome(State(), requeue, err) == Ensure(old(State()), faults, cr, now)
    {
      requeue := None;
      var failure := EnsureOwned(cr);
      if failure.Some? {
        err := Fail(cr, failure.value, now);
        return;
      }
      var cron := CronOf(World(objs, status, events, calls, writes), cr);
      if cr.needHolder {
        err := Call();
        if err.Some? {
          err := Fail(cr, Failure("VolumeHolderError", err.value), now);
          return;
        }
        var key := Key(Deployment, cr.holder);
        if key !in objs {
          err := Fail(cr, Failure("VolumeHolderError", NotFound), now);
          return;
        }
        if objs[key].live.available < 1 {
          err := UpdateStatus(cr, WaitingNote(cr, cron), now);
          requeue := if err.Some? then None else Some(HOLDER_REQUEUE);
          return;
        }
      }
      err := UpdateStatus(cr, ReadyNote(cr, cron), now);
    }

    /** The reconciler's entry point, conflicts turned into a quiet retry. */
    method ReconcileCr(cr: Cr, now: nat) returns (requeue: Option<nat>, err: Option<ApiError>)
      modifies this
      ensures Outcome(State(), requeue, err) == Reconcile(old(State()), faults, cr, now)
    {
      requeue, err := ReconcileInner(cr, now);
      if err == Some(Conflict) {
        requeue, err := Some(CONFLICT_REQUEUE), None;
      }
    }

    method ReconcileInner(cr: Cr, now: nat) returns (requeue: Option<nat>, err: Option<ApiError>)
      modifies this
      ensures Outcome(State(), requeue, err) == Inner(old(State()), faults, cr, now)
    {
      requeue := None;
      err := Call();
      if err.Some? || !cr.found || cr.deleting {
        return;
      }
      if cr.unsupported.Some? {
        err := UpdateStatus(cr, UnsupportedNote(cr.unsupported.value), now);
        return;
      }
      if cr.invalid.Some? {
        err := UpdateStatus(cr, ErrorNote("InvalidSpec", cr.invalid.value), now);
        return;
      }
      var i, problem := CheckAll(cr.checks);
      if i < |cr.checks| {
        var c := cr.checks[i];
        if problem.None? {
          err := UpdateStatus(cr, PendingNote(c.missingReason, c.missingMessage), now);
          requeue := if err.Some? then None else Some(SECRET_REQUEUE);
        } else {
          err := UpdateStatus(cr, ErrorNote(c.invalidReason, problem.value), now);
        }
        return;
      }
      requeue, err := ReconcileOwned(cr, now);
    }
  }
}
