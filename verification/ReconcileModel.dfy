/**
  One reconcile of a Backup or Restore, as a function of the cluster and of the faults the API
  injects: the same order of API calls, the same early returns, the same reasons.
*/
module ReconcileModel {
  import opened Wrappers
  import opened StatusCalc

  datatype ApiError = Conflict | NotFound | Other(msg: string)

  /** What the API server does to the n-th call of a reconcile besides answering it. */
  datatype Fault = Fine | ConflictFault | OtherFault(msg: string)

  type Faults = nat -> Fault

  datatype Kind = ConfigMap | Claim | Deployment | CronJob | Secret

  /** Objects of the CR's namespace. */
  datatype Key = Key(kind: Kind, name: string)

  /** What other controllers report in an object's status. */
  datatype Live = Live(available: nat, lastSchedule: Option<nat>, lastSuccess: Option<nat>)

  /** Labels and specs are opaque values; `size` is a claim's storage request. */
  datatype Obj = Obj(controller: Option<nat>, labels: nat, spec: nat, size: nat, live: Live)

  /**
    A precondition on an existing object: the Secrets of both kinds, the source claim of a
    Backup.  `refuse` fails it without looking, `bad` says what is wrong with the object.
  */
  datatype Check = Check(
    key: Key, refuse: Option<string>, bad: Obj -> Option<string>,
    missingReason: string, missingMessage: string, invalidReason: string)

  /** The CR as read, and `lastJob`, what listing its Jobs yields. */
  datatype Cr = Cr(
    uid: nat, jobType: string, owned: string, legacy: string, holder: string,
    generation: nat, found: bool, deleting: bool,
    unsupported: Option<string>, invalid: Option<string>, checks: seq<Check>,
    persistent: bool, needHolder: bool, configMapError: Option<string>,
    labels: nat, specs: Kind -> nat, size: nat, lastJob: Option<LastJob>)

  /** `calls` and `writes` count API calls and successful writes. */
  datatype World = World(
    objs: map<Key, Obj>, status: Status, events: seq<Event>, calls: nat, writes: nat)

  datatype Answer = Answer(w: World, err: Option<ApiError>)

  function Called(w: World): World {
    w.(calls := w.calls + 1)
  }

  function FaultOf(w: World, f: Faults): Option<ApiError> {
    match f(w.calls)
    case Fine => None
    case ConflictFault => Some(Conflict)
    case OtherFault(msg) => Some(Other(msg))
  }

  function Message(e: ApiError): string {
    match e
    case Conflict => "conflict"
    case NotFound => "not found"
    case Other(msg) => msg
  }

  // ------------------------------------------------------------------ owned objects

  /** The mutate closures, with the owner set. */
  function Mutated(cr: Cr, kind: Kind, cur: Option<Obj>): Obj {
    var base := if cur.Some? then cur.value else Obj(None, 0, cr.specs(kind), cr.size, Live(0, None, None));
    if kind.Claim? then
      base.(controller := Some(cr.uid), labels := cr.labels, size := if base.size < cr.size then cr.size else base.size)
    else
      base.(controller := Some(cr.uid), labels := cr.labels, spec := cr.specs(kind))
  }

  predicate HeldByOther(cr: Cr, o: Obj) {
    o.controller.Some? && o.controller.value != cr.uid
  }

  function Lookup(w: World, key: Key): Option<Obj> {
    if key in w.objs then Some(w.objs[key]) else None
  }

  /** The write half of an API call sequence: one more call, then the new objects. */
  function Store(w: World, f: Faults, objs: map<Key, Obj>): Answer {
    match FaultOf(w, f)
    case Some(e) => Answer(Called(w), Some(e))
    case None => Answer(Called(w).(objs := objs, writes := w.writes + 1), None)
  }

  /** `controllerutil.CreateOrUpdate` with the CR as controller. */
  function Upsert(w: World, f: Faults, cr: Cr, key: Key, mutateError: Option<string>): Answer {
    var w1 := Called(w);
    var cur := Lookup(w, key);
    match FaultOf(w, f)
    case Some(e) => Answer(w1, Some(e))
    case None =>
      if mutateError.Some? then Answer(w1, Some(Other(mutateError.value)))
      else if cur.Some? && HeldByOther(cr, cur.value) then Answer(w1, Some(Other("already owned")))
      else if cur == Some(Mutated(cr, key.kind, cur)) then Answer(w1, None)
      else Store(w1, f, w.objs[key := Mutated(cr, key.kind, cur)])
  }

  /** `deleteIfController`. */
  function DeleteOwn(w: World, f: Faults, cr: Cr, key: Key): Answer {
    var w1 := Called(w);
    match FaultOf(w, f)
    case Some(e) => Answer(w1, Some(e))
    case None =>
      if key !in w.objs || w.objs[key].controller != Some(cr.uid) then Answer(w1, None)
      else Store(w1, f, w.objs - {key})
  }

  /** One step of ensureOwned or deleteLegacyOwned, with the reason its failure is reported under. */
  datatype Step =
    | Put(key: Key, reason: string, mutateError: Option<string>)
    | Drop(key: Key, reason: string)
    | Peek(key: Key)

  function Steps(cr: Cr): seq<Step> {
    OwnSteps(cr) + LegacySteps(cr)
  }

  /** The objects of the current naming scheme. */
  function OwnSteps(cr: Cr): seq<Step> {
    [Put(Key(ConfigMap, cr.owned), "ConfigMapError", cr.configMapError)]
    + (if cr.persistent then [Put(Key(Claim, cr.owned), "PVCError", None)] else [])
    + [if cr.needHolder then Put(Key(Deployment, cr.holder), "VolumeHolderError", None)
       else Drop(Key(Deployment, cr.holder), "VolumeHolderCleanupError")]
    + [Put(Key(CronJob, cr.owned), "CronJobError", None)]
  }

  /** The objects of the old naming scheme; the claim is only looked at. */
  function LegacySteps(cr: Cr): seq<Step> {
    if cr.legacy == cr.owned then []
    else [Drop(Key(ConfigMap, cr.legacy), "LegacyCleanupError"),
          Drop(Key(CronJob, cr.legacy), "LegacyCleanupError"),
          Peek(Key(Claim, cr.legacy))]
  }

  function RunStep(w: World, f: Faults, cr: Cr, s: Step): Answer {
    match s
    case Put(key, _, mutateError) => Upsert(w, f, cr, key, mutateError)
    case Drop(key, _) => DeleteOwn(w, f, cr, key)
    case Peek(_) => Answer(Called(w), None)
  }

  datatype Failure = Failure(reason: string, err: ApiError)
  datatype Ensured = Ensured(w: World, failure: Option<Failure>)

  function Reason(s: Step): string {
    if s.Peek? then "" else s.reason
  }

  function RunSteps(w: World, f: Faults, cr: Cr, steps: seq<Step>): Ensured
    decreases |steps|
  {
    if steps == [] then Ensured(w, None)
    else
      var a := RunStep(w, f, cr, steps[0]);
      if a.err.Some? then Ensured(a.w, Some(Failure(Reason(steps[0]), a.err.value)))
      else RunSteps(a.w, f, cr, steps[1..])
  }

  // ------------------------------------------------------------------ preconditions

  datatype Checked =
    | Passed(w: World)
    | Missing(w: World, c: Check)
    | Invalid(w: World, c: Check, msg: string)

  function RunChecks(w: World, f: Faults, checks: seq<Check>): Checked
    decreases |checks|
  {
    if checks == [] then Passed(w)
    else
      var c := checks[0];
      if c.refuse.Some? then Invalid(w, c, c.refuse.value)
      else
        match FaultOf(w, f)
        case Some(e) => Invalid(Called(w), c, Message(e))
        case None =>
          if c.key !in w.objs then Missing(Called(w), c)
          else
            var bad := c.bad(w.objs[c.key]);
            if bad.Some? then Invalid(Called(w), c, bad.value)
            else RunChecks(Called(w), f, checks[1..])
  }

  // ------------------------------------------------------------------ status

  datatype Note = Note(
    phase: string, ready: Truth, reason: string, message: string, normal: bool,
    cron: Option<CronInfo>, holderName: string)

  function ReportOf(cr: Cr, n: Note, job: Option<LastJob>): Report {
    Report(cr.generation, cr.jobType, n.phase, n.ready, n.reason, n.message, n.normal, n.cron, n.holderName, job)
  }

  /** `setStatus`: list the Jobs (a failed list counts as no job), record the event, store if needed. */
  function Notify(w: World, f: Faults, cr: Cr, n: Note, now: nat): Answer {
    var job := if FaultOf(w, f).Some? then None else cr.lastJob;
    var r := ReportOf(cr, n, job);
    var d := SetStatus(w.status, r, now);
    var w1 := Called(w).(
      events := w.events + if d.event then [Event(r.normal, r.reason, r.message, r.generation)] else []);
    if !d.write then Answer(w1, None)
    else
      match FaultOf(w1, f)
      case Some(e) => Answer(Called(w1), Some(e))
      case None => Answer(Called(w1).(status := d.status, writes := w1.writes + 1), None)
  }

  datatype Outcome = Outcome(w: World, requeue: Option<nat>, err: Option<ApiError>)

  const SECRET_REQUEUE := 30
  const HOLDER_REQUEUE := 10
  const CONFLICT_REQUEUE := 1

  function Told(a: Answer, requeue: Option<nat>): Outcome {
    Outcome(a.w, if a.err.Some? then None else requeue, a.err)
  }

  /** `fail`: a conflict is passed on in silence, anything else becomes phase Error. */
  function Fail(w: World, f: Faults, cr: Cr, fl: Failure, now: nat): Outcome {
    if fl.err.Conflict? then Outcome(w, None, Some(Conflict))
    else
      var a := Notify(w, f, cr, ErrorNote(fl.reason, Message(fl.err)), now);
      Outcome(a.w, None, if a.err.Some? then a.err else Some(fl.err))
  }

  function ErrorNote(reason: string, message: string): Note {
    Note("Error", False, reason, message, false, None, "")
  }

  function UnsupportedNote(message: string): Note {
    Note("Unsupported", False, "UnsupportedEngine", message, false, None, "")
  }

  function PendingNote(reason: string, message: string): Note {
    Note("Pending", False, reason, message, false, None, "")
  }

  function CronOf(w: World, cr: Cr): CronInfo {
    var key := Key(CronJob, cr.owned);
    if key in w.objs then CronInfo(cr.owned, w.objs[key].live.lastSchedule, w.objs[key].live.lastSuccess)
    else CronInfo(cr.owned, None, None)
  }

  function ReadyNote(cr: Cr, cron: CronInfo): Note {
    Note("Ready", True, "Synced", "CronJob " + cron.name + " is synced", true, Some(cron),
         if cr.needHolder then cr.holder else "")
  }

  function WaitingNote(cr: Cr, cron: CronInfo): Note {
    Note("Pending", False, "VolumeHolderNotReady", "waiting for volume holder Deployment " + cr.holder, true,
         Some(cron), cr.holder)
  }

  /** The end of a reconcile, once the owned objects are in place. */
  function Conclude(w: World, f: Faults, cr: Cr, now: nat): Outcome {
    var cron := CronOf(w, cr);
    if !cr.needHolder then Told(Notify(w, f, cr, ReadyNote(cr, cron), now), None)
    else
      var key := Key(Deployment, cr.holder);
      match FaultOf(w, f)
      case Some(e) => Fail(Called(w), f, cr, Failure("VolumeHolderError", e), now)
      case None =>
        if key !in w.objs then Fail(Called(w), f, cr, Failure("VolumeHolderError", NotFound), now)
        else if w.objs[key].live.available >= 1 then Told(Notify(Called(w), f, cr, ReadyNote(cr, cron), now), None)
        else Told(Notify(Called(w), f, cr, WaitingNote(cr, cron), now), Some(HOLDER_REQUEUE))
  }

  function Ensure(w: World, f: Faults, cr: Cr, now: nat): Outcome {
    var e := RunSteps(w, f, cr, Steps(cr));
    if e.failure.Some? then Fail(e.w, f, cr, e.failure.value, now) else Conclude(e.w, f, cr, now)
  }

  /** The preconditions, then the owned objects. */
  function Gate(w: World, f: Faults, cr: Cr, now: nat): Outcome {
    match RunChecks(w, f, cr.checks)
    case Missing(w1, c) =>
      Told(Notify(w1, f, cr, PendingNote(c.missingReason, c.missingMessage), now), Some(SECRET_REQUEUE))
    case Invalid(w1, c, msg) => Told(Notify(w1, f, cr, ErrorNote(c.invalidReason, msg), now), None)
    case Passed(w1) => Ensure(w1, f, cr, now)
  }

  function Inner(w: World, f: Faults, cr: Cr, now: nat): Outcome {
    var w1 := Called(w);
    match FaultOf(w, f)
    case Some(e) => Outcome(w1, None, Some(e))
    case None =>
      if !cr.found || cr.deleting then Outcome(w1, None, None)
      else if cr.unsupported.Some? then
        Told(Notify(w1, f, cr, UnsupportedNote(cr.unsupported.value), now), None)
      else if cr.invalid.Some? then Told(Notify(w1, f, cr, ErrorNote("InvalidSpec", cr.invalid.value), now), None)
      else Gate(w1, f, cr, now)
  }

  /** `Reconcile`: a conflict becomes a quiet retry. */
  function Reconcile(w: World, f: Faults, cr: Cr, now: nat): Outcome {
    var o := Inner(w, f, cr, now);
    if o.err == Some(Conflict) then Outcome(o.w, Some(CONFLICT_REQUEUE), None) else o
  }

  /** Preconditions look at Secrets or at a claim that is not the CR's own. */
  predicate ValidCr(cr: Cr) {
    && cr.jobType != READY
    && forall i :: 0 <= i < |cr.checks| ==>
         var c := cr.checks[i];
         c.refuse.Some? || c.key.kind.Secret? || (c.key.kind.Claim? && c.key.name != cr.owned)
  }

  function Calm(n: nat): Fault {
    Fine
  }
}
