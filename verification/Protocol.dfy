/**
  The marker-file protocol shared by the backup pod and the restore pod.

  Every container of a pod is a stage.  All stages start at once and talk only through files
  named `.step-*` in the pod's scratch directory.  A run is a sequence of atomic actions: one
  file test, one touch, one unlink, one wake-up from `sleep`, one tick of the clock, or one
  fault.  The number of stages is a parameter, so one proof serves the backup pod with S3
  (five stages), the backup pod without S3 (four) and the restore pod (five).
*/
module Protocol {
  import opened Wrappers

  datatype Marker = Done(stage: nat) | JobDone | Failed

  /**
    `finisherMarks`: the last stage writes its own done-marker before job-done (encrypt.sh
    when S3 is off).  `restarts`: containers may be restarted in place.  `teardown`: the last
    stage removes the scratch directory after job-done (the restore engines).
  */
  datatype Config = Config(n: nat, finisherMarks: bool, restarts: bool, teardown: bool)

  const WAIT_PERIOD := 2
  const WAIT_LIMIT := 43200
  const HOLD_PERIOD := 5
  const HOLD_LIMIT := 17280
  const LINGER := 20

  /** Where a stage's script stands; `i` counts the sleeps the current loop has completed. */
  datatype PC =
    | Init
    | WaitMarker(i: nat)
    | WaitFailed(i: nat)
    | WaitSleep(i: nat, until: nat)
    | CheckDone
    | ClearCheck
    | ClearRm
    | Working
    | TouchDone
    | HoldMarker(i: nat, last: nat)
    | HoldFailed(i: nat, last: nat)
    | HoldSleep(i: nat, last: nat, until: nat)
    | TouchJobDone
    | Lingering(until: nat)
    | Tearing
    | Exiting
    | Exited(ok: bool)

  /**
    `markers` is the directory.  The other fields after `now` are history: `hist` the
    done-markers ever written, `jobDoneAt` the time of job-done, `failer` the first stage
    whose own work failed.
  */
  datatype State = State(
    pc: seq<PC>,
    markers: set<Marker>,
    now: nat,
    hist: set<Marker>,
    jobDoneAt: nat,
    timedOut: bool,
    killed: bool,
    torn: bool,
    failer: Option<nat>)

  /** The kinds of step one stage's script can take. */
  datatype Kind =
    | InitOk
    | InitFail
    | PollWait
    | PollWaitFailed
    | WakeWait
    | TestDone
    | TestFailed
    | RmFailed
    | FinishWork
    | FailStep
    | WriteDone
    | HoldPoll
    | HoldPollFailed
    | HoldWake
    | WriteJobDone
    | StartTeardown
    | FinishTeardown
    | FailTeardown
    | Trap(touched: bool)
    | Kill
    | Restart

  datatype Action =
    | Tick(d: nat)
    | Sweep(m: Marker)
    | RemoveMarker(m: Marker)
    | Step(p: nat, k: Kind)

  predicate ValidConfig(c: Config) {
    c.n >= 3
  }

  /** Stage `p` writes a done-marker of its own. */
  predicate Marks(c: Config, p: nat)
    requires ValidConfig(c)
  {
    p < c.n - 1 || c.finisherMarks
  }

  /** The marker `already_done_hold` / `already_done_exit` tests in stage `p`. */
  function OwnMarker(c: Config, p: nat): Marker
    requires ValidConfig(c)
  {
    if Marks(c, p) then Done(p) else JobDone
  }

  function InitState(c: Config): State {
    State(seq(c.n, _ => Init), {}, 0, {}, 0, false, false, false, None)
  }

  /** Stage `p` at `pc` may take a step of kind `k`. */
  predicate CanStep(c: Config, s: State, p: nat, pc: PC, k: Kind) {
    match k
    case InitOk => pc.Init?
    case InitFail => pc.Init?
    case PollWait => pc.WaitMarker? && p > 0
    case PollWaitFailed => pc.WaitFailed?
    case WakeWait => pc.WaitSleep? && pc.until <= s.now
    case TestDone => pc.CheckDone?
    case TestFailed => pc.ClearCheck?
    case RmFailed => pc.ClearRm?
    case FinishWork => pc.Working?
    case FailStep => pc.ClearRm? || pc.Working? || pc.TouchDone? || pc.TouchJobDone?
    case WriteDone => pc.TouchDone?
    case HoldPoll => pc.HoldMarker?
    case HoldPollFailed => pc.HoldFailed?
    case HoldWake => pc.HoldSleep? && pc.until <= s.now
    case WriteJobDone => pc.TouchJobDone?
    case StartTeardown => pc.Lingering? && pc.until <= s.now
    case FinishTeardown => pc.Tearing? && s.markers == {}
    case FailTeardown => pc.Tearing?
    case Trap(_) => pc.Exiting?
    case Kill => !pc.Exited?
    case Restart => c.restarts
  }

  /** Where the step of kind `k` takes the script of stage `p`. */
  function NextPC(c: Config, s: State, p: nat, pc: PC, k: Kind): PC
    requires ValidConfig(c) && CanStep(c, s, p, pc, k)
  {
    match k
    case InitOk => if p == 0 then CheckDone else WaitMarker(0)
    case InitFail => Exited(false)
    case PollWait => if Done(p - 1) in s.markers then CheckDone else WaitFailed(pc.i)
    case PollWaitFailed => if Failed in s.markers then Exiting else WaitSleep(pc.i, s.now + WAIT_PERIOD)
    case WakeWait => if pc.i + 1 > WAIT_LIMIT then Exiting else WaitMarker(pc.i + 1)
    case TestDone =>
      if OwnMarker(c, p) in s.markers then
        (if Marks(c, p) then HoldMarker(0, s.now) else Exited(true))
      else if p == 1 then ClearCheck else Working
    case TestFailed => if Failed in s.markers then ClearRm else Working
    case RmFailed => Working
    case FinishWork => if Marks(c, p) then TouchDone else TouchJobDone
    case FailStep => Exiting
    case WriteDone => if p == c.n - 1 then TouchJobDone else HoldMarker(0, s.now)
    case HoldPoll => if JobDone in s.markers then Exited(true) else HoldFailed(pc.i, s.now)
    case HoldPollFailed =>
      if Failed in s.markers then Exiting else HoldSleep(pc.i, pc.last, s.now + HOLD_PERIOD)
    case HoldWake => if pc.i + 1 > HOLD_LIMIT then Exiting else HoldMarker(pc.i + 1, pc.last)
    case WriteJobDone => if c.teardown then Lingering(s.now + LINGER) else Exited(true)
    case StartTeardown => Tearing
    case FinishTeardown => Exited(true)
    case FailTeardown => Exiting
    case Trap(_) => Exited(false)
    case Kill => Exited(false)
    case Restart => Init
  }

  /** The marker a step of kind `k` of stage `p` creates. */
  function Touched(p: nat, k: Kind): set<Marker> {
    match k
    case WriteDone => {Done(p)}
    case WriteJobDone => {JobDone}
    case Trap(touched) => if touched then {Failed} else {}
    case _ => {}
  }

  predicate Enabled(c: Config, s: State, a: Action)
    requires ValidConfig(c)
  {
    && |s.pc| == c.n
    && match a
       case Tick(_) => true
       case Sweep(m) => s.pc[0].Working? && m in s.markers
       case RemoveMarker(m) => s.pc[c.n - 1].Tearing? && m in s.markers
       case Step(p, k) => p < c.n && CanStep(c, s, p, s.pc[p], k)
  }

  function Apply(c: Config, s: State, a: Action): State
    requires ValidConfig(c) && Enabled(c, s, a)
  {
    match a
    case Tick(d) => s.(now := s.now + d)
    case Sweep(m) => s.(markers := s.markers - {m})
    case RemoveMarker(m) => s.(markers := s.markers - {m})
    case Step(p, k) =>
      State(
        s.pc[p := NextPC(c, s, p, s.pc[p], k)],
        s.markers - (if k.RmFailed? then {Failed} else {}) + Touched(p, k),
        s.now,
        s.hist + (Touched(p, k) - {Failed}),
        if k.WriteJobDone? then s.now else s.jobDoneAt,
        s.timedOut || TimesOut(s.pc[p], k),
        s.killed || k.Kill?,
        s.torn || k.StartTeardown?,
        if k.FailStep? && s.failer.None? then Some(p) else s.failer)
  }

  predicate TimesOut(pc: PC, k: Kind) {
    || (k.WakeWait? && pc.WaitSleep? && pc.i + 1 > WAIT_LIMIT)
    || (k.HoldWake? && pc.HoldSleep? && pc.i + 1 > HOLD_LIMIT)
  }

  /** `ss` is a run: it starts with an empty directory and every step is an enabled action. */
  ghost predicate IsRun(c: Config, ss: seq<State>, acts: seq<Action>)
    requires ValidConfig(c)
  {
    && |ss| == |acts| + 1
    && ss[0] == InitState(c)
    && forall i :: 0 <= i < |acts| ==> Enabled(c, ss[i], acts[i]) && ss[i + 1] == Apply(c, ss[i], acts[i])
  }

  /** One step of a larger system: an action of the protocol, or none. */
  ghost predicate Moves(c: Config, s: State, m: Option<Action>, t: State)
    requires ValidConfig(c)
  {
    match m
    case None => t == s
    case Some(a) => Enabled(c, s, a) && t == Apply(c, s, a)
  }

  /** A run with steps where the protocol stands still is a run when those are left out. */
  lemma {:induction false} Unstutter(c: Config, qs: seq<State>, moves: seq<Option<Action>>)
    returns (ps: seq<State>, pacts: seq<Action>)
    requires ValidConfig(c) && |qs| == |moves| + 1 && qs[0] == InitState(c)
    requires forall i :: 0 <= i < |moves| ==> Moves(c, qs[i], moves[i], qs[i + 1])
    ensures IsRun(c, ps, pacts) && ps[|ps| - 1] == qs[|qs| - 1]
    ensures forall q :: q in ps <==> q in qs
    decreases |moves|
  {
    if moves == [] {
      ps, pacts := qs, [];
    } else {
      var n := |moves| - 1;
      var front := qs[..n + 1];
      ps, pacts := Unstutter(c, front, moves[..n]);
      assert qs == front + [qs[n + 1]];
      assert Moves(c, qs[n], moves[n], qs[n + 1]);
      if moves[n].Some? {
        ps, pacts := ps + [qs[n + 1]], pacts + [moves[n].value];
      }
    }
  }
}
