/** The protocol against the clock: polling bounds, timeouts and the restore pod's teardown. */
module ProtocolTiming {
  import opened Wrappers
  import opened Protocol
  import opened ProtocolOrder
  import opened ProtocolFailure

  const DAY := 86400

  /** A loop that has slept `i` times has been running for at least `i` periods, and `i` is bounded. */
  predicate Paced(pc: PC, now: nat) {
    match pc
    case WaitMarker(i) => i <= WAIT_LIMIT && 2 * i <= now
    case WaitFailed(i) => i <= WAIT_LIMIT && 2 * i <= now
    case WaitSleep(i, until) => i <= WAIT_LIMIT && 2 * (i + 1) <= until
    case HoldMarker(i, _) => i <= HOLD_LIMIT && 5 * i <= now
    case HoldFailed(i, _) => i <= HOLD_LIMIT && 5 * i <= now
    case HoldSleep(i, _, until) => i <= HOLD_LIMIT && 5 * (i + 1) <= until
    case _ => true
  }

  /** The loop made its last allowed test in vain: one more sleep and it times out. */
  predicate LastChance(pc: PC) {
    || ((pc.WaitFailed? || pc.WaitSleep?) && pc.i == WAIT_LIMIT)
    || ((pc.HoldFailed? || pc.HoldSleep?) && pc.i == HOLD_LIMIT)
  }

  /** Job-done did not come in the first day. */
  predicate Tardy(s: State) {
    s.now >= DAY && (JobDone !in s.hist || s.jobDoneAt >= DAY)
  }

  ghost predicate Clocked(c: Config, s: State)
    requires ValidConfig(c)
  {
    && (forall p: nat :: p < |s.pc| ==> Paced(s.pc[p], s.now))
    && (!s.torn && s.timedOut ==> Tardy(s))
    && (!s.torn ==> forall p: nat :: p < |s.pc| && LastChance(s.pc[p]) ==> Tardy(s))
  }

  lemma PacedNext(c: Config, s: State, p: nat, pc: PC, k: Kind)
    requires ValidConfig(c) && CanStep(c, s, p, pc, k) && Paced(pc, s.now)
    ensures Paced(NextPC(c, s, p, pc, k), s.now)
  {
  }

  lemma TardyStep(c: Config, s: State, a: Action)
    requires ValidConfig(c) && Enabled(c, s, a) && Tardy(s)
    ensures Tardy(Apply(c, s, a))
  {
  }

  /** A stage gets to its last chance only by missing its marker a day or more after the start. */
  lemma LastChanceIsTardy(c: Config, s: State, p: nat, k: Kind)
    requires ValidConfig(c) && Order(c, s) && !s.torn && Enabled(c, s, Step(p, k))
    requires Paced(s.pc[p], s.now)
    requires LastChance(s.pc[p]) ==> Tardy(s)
    ensures var t := Apply(c, s, Step(p, k));
            LastChance(t.pc[p]) || (t.timedOut && !s.timedOut) ==> Tardy(s)
  {
    assert StageOk(c, s, p);
  }

  lemma ClockedStep(c: Config, s: State, a: Action)
    requires ValidConfig(c) && Order(c, s) && Clocked(c, s) && Enabled(c, s, a)
    requires !(c.restarts && s.torn)
    ensures Clocked(c, Apply(c, s, a))
  {
    var t := Apply(c, s, a);
    if !s.torn && a.Step? {
      LastChanceIsTardy(c, s, a.p, a.k);
    }
    if Tardy(s) {
      TardyStep(c, s, a);
    }
    forall q: nat | q < c.n
      ensures Paced(t.pc[q], t.now)
      ensures !t.torn && LastChance(t.pc[q]) ==> Tardy(t)
    {
      assert Paced(s.pc[q], s.now);
      if a.Step? && a.p == q {
        PacedNext(c, s, q, s.pc[q], a.k);
      }
    }
  }

  lemma {:induction false} ClockedAlways(c: Config, ss: seq<State>, acts: seq<Action>, i: nat)
    requires ValidConfig(c) && IsRun(c, ss, acts) && i < |ss|
    ensures (c.restarts && ss[i].torn) || (Order(c, ss[i]) && Clocked(c, ss[i]))
  {
    InvAlways(c, ss, acts, i);
    if i > 0 {
      ClockedAlways(c, ss, acts, i - 1);
      assert ss[i] == Apply(c, ss[i - 1], acts[i - 1]);
      if !(c.restarts && ss[i - 1].torn) {
        ClockedStep(c, ss[i - 1], acts[i - 1]);
      }
    }
  }

  /** Every wait sleeps at most 43201 times and every hold at most 17281 times. */
  lemma LoopsAreBounded(c: Config, ss: seq<State>, acts: seq<Action>, i: nat, p: nat)
    requires ValidConfig(c) && IsRun(c, ss, acts) && i < |ss| && !ss[i].torn
    requires p < |ss[i].pc|
    ensures Waits(ss[i].pc[p]) ==> ss[i].pc[p].i <= 43200
    ensures Holds(ss[i].pc[p]) ==> ss[i].pc[p].i <= 17280
  {
    ClockedAlways(c, ss, acts, i);
    assert Paced(ss[i].pc[p], ss[i].now);
  }

  /** Job-done within the first day means that no stage ever timed out, restarts included. */
  lemma NoTimeoutWithinADay(c: Config, ss: seq<State>, acts: seq<Action>, i: nat)
    requires ValidConfig(c) && IsRun(c, ss, acts) && i < |ss| && !ss[i].torn
    requires JobDone in ss[i].markers && ss[i].jobDoneAt < 86400
    ensures !ss[i].timedOut
    ensures forall p: nat :: p < |ss[i].pc| ==> !LastChance(ss[i].pc[p])
  {
    ClockedAlways(c, ss, acts, i);
  }

  // ---------------------------------------------------------------- restore teardown

  /** The last test of a holding peer came no later than job-done, and the finisher lingers 20 s. */
  ghost predicate Linger(c: Config, s: State) {
    && (JobDone in s.hist ==> s.jobDoneAt <= s.now)
    && (forall p: nat :: p < |s.pc| && Holds(s.pc[p]) ==>
          s.pc[p].last <= s.now && (JobDone in s.hist ==> s.pc[p].last <= s.jobDoneAt))
    && (forall p: nat :: p < |s.pc| && s.pc[p].Lingering? ==> s.pc[p].until == s.jobDoneAt + LINGER)
  }

  /** Every holding peer tested for job-done (or entered its hold) at most `gap` seconds ago. */
  ghost predicate Timely(s: State, gap: nat) {
    forall p: nat :: p < |s.pc| && Holds(s.pc[p]) ==> s.now <= s.pc[p].last + gap
  }

  lemma LingerStep(c: Config, s: State, a: Action)
    requires ValidConfig(c) && !c.restarts && Order(c, s) && !s.torn && Linger(c, s) && Enabled(c, s, a)
    ensures Linger(c, Apply(c, s, a))
  {
    if a.Step? {
      assert StageOk(c, s, a.p) && StageNever(c, s, a.p);
      assert forall p: nat :: p < c.n && s.pc[p].Lingering? ==> StageOk(c, s, p);
    }
  }

  lemma {:induction false} LingerAlways(c: Config, ss: seq<State>, acts: seq<Action>, i: nat)
    requires ValidConfig(c) && !c.restarts && IsRun(c, ss, acts) && i < |ss| && !ss[i].torn
    ensures Order(c, ss[i]) && Linger(c, ss[i])
  {
    InvAlways(c, ss, acts, i);
    if i > 0 {
      assert ss[i] == Apply(c, ss[i - 1], acts[i - 1]);
      LingerAlways(c, ss, acts, i - 1);
      LingerStep(c, ss[i - 1], acts[i - 1]);
    }
  }

  /** What the pod looks like once teardown has begun: every peer has seen job-done and left. */
  ghost predicate PeersGone(c: Config, s: State) {
    forall p: nat :: p < c.n - 1 && p < |s.pc| ==> s.pc[p] == Exited(true)
  }

  lemma TeardownFindsPeersGone(c: Config, s: State, gap: nat)
    requires ValidConfig(c) && !c.restarts && Order(c, s) && Blame(c, s) && Linger(c, s)
    requires !s.torn && !s.killed && Timely(s, gap) && gap < LINGER
    requires Enabled(c, s, Step(c.n - 1, StartTeardown))
    ensures PeersGone(c, s)
  {
    var f := c.n - 1;
    assert StageOk(c, s, f);
    forall p: nat | p < f ensures s.pc[p] == Exited(true) {
      assert StageOk(c, s, p) && StageNever(c, s, p);
      assert Marks(c, p) && OwnMarker(c, p) in s.hist;
      assert s.failer.None?;
    }
  }

  /**
    In a restore run without restarts, kills or timeouts whose peers poll at intervals under
    20 s, the scratch directory is removed only after every peer saw job-done and exited 0.
  */
  lemma {:induction false} TeardownIsSeenByAll(
    c: Config, ss: seq<State>, acts: seq<Action>, gap: nat, i: nat)
    requires ValidConfig(c) && !c.restarts && IsRun(c, ss, acts) && i < |ss|
    requires gap < 20 && forall j :: 0 <= j < |ss| ==> Timely(ss[j], gap)
    requires ss[i].torn && !ss[i].killed && !ss[i].timedOut
    ensures PeersGone(c, ss[i])
  {
    InvAlways(c, ss, acts, i);
    assert i > 0;
    var s := ss[i - 1];
    assert ss[i] == Apply(c, s, acts[i - 1]);
    if s.torn {
      TeardownIsSeenByAll(c, ss, acts, gap, i - 1);
      InvAlways(c, ss, acts, i - 1);
    } else {
      LingerAlways(c, ss, acts, i - 1);
      BlameAlways(c, ss, acts, i - 1);
      assert StageOk(c, s, acts[i - 1].p);
      TeardownFindsPeersGone(c, s, gap);
    }
  }
}
