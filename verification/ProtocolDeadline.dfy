/** The day is exact: job-done one second too late, or on the very second, can come with a timeout. */
module ProtocolDeadline {
  import opened Wrappers
  import opened Protocol
  import opened ProtocolOrder
  import opened ProtocolTiming
  import opened ProtocolProgress

  /** Stage 0 holds at `pc`, `d` seconds after `s`. */
  function Held(s: State, pc: PC, d: nat): State
    requires s.pc != []
  {
    s.(pc := s.pc[0 := pc], now := s.now + d)
  }

  lemma TickOn(c: Config, s: State, acts: seq<Action>, pc: PC, d: nat, more: nat)
    requires ValidConfig(c) && |s.pc| == c.n && Play(c, s, acts) == Some(Held(s, pc, d))
    ensures Play(c, s, acts + [Tick(more)]) == Some(Held(s, pc, d + more))
  {
    PlayOne(c, s, acts, Held(s, pc, d), Tick(more));
  }

  /** Waking up before the limit moves the script and nothing else. */
  lemma WakingMoves(c: Config, s: State)
    requires ValidConfig(c) && Enabled(c, s, Step(0, HoldWake)) && s.pc[0].HoldSleep? && s.pc[0].i + 1 <= HOLD_LIMIT
    ensures Apply(c, s, Step(0, HoldWake)) == s.(pc := s.pc[0 := NextPC(c, s, 0, s.pc[0], HoldWake)])
  {
  }

  lemma PollOn(c: Config, s: State, acts: seq<Action>, pc: PC, d: nat, k: Kind, next: PC)
    requires ValidConfig(c) && |s.pc| == c.n && Play(c, s, acts) == Some(Held(s, pc, d))
    requires k.HoldPoll? || k.HoldPollFailed? || (k.HoldWake? && pc.HoldSleep? && pc.i + 1 <= HOLD_LIMIT)
    requires CanStep(c, Held(s, pc, d), 0, pc, k) && next == NextPC(c, Held(s, pc, d), 0, pc, k)
    ensures Play(c, s, acts + [Step(0, k)]) == Some(Held(s, next, d))
  {
    var t := Held(s, pc, d);
    PlayOne(c, s, acts, t, Step(0, k));
    assert t.pc[0] == pc && t.pc[0 := next] == s.pc[0 := next];
    if k.HoldWake? {
      WakingMoves(c, t);
    } else {
      ReadingMoves(c, t, 0, k);
    }
  }

  /** One round of the hold: test in vain, find no failure, sleep five seconds. */
  lemma Round(c: Config, s: State, before: seq<Action>, i: nat, l: nat, d: nat) returns (acts: seq<Action>)
    requires ValidConfig(c) && |s.pc| == c.n && JobDone !in s.markers && Failed !in s.markers && i < HOLD_LIMIT
    requires Play(c, s, before) == Some(Held(s, HoldMarker(i, l), d))
    ensures Play(c, s, acts) == Some(Held(s, HoldMarker(i + 1, s.now + d), d + 5))
  {
    var at := s.now + d;
    PollOn(c, s, before, HoldMarker(i, l), d, HoldPoll, HoldFailed(i, at));
    acts := before + [Step(0, HoldPoll)];
    PollOn(c, s, acts, HoldFailed(i, at), d, HoldPollFailed, HoldSleep(i, at, at + 5));
    acts := acts + [Step(0, HoldPollFailed)];
    TickOn(c, s, acts, HoldSleep(i, at, at + 5), d, 5);
    acts := acts + [Tick(5)];
    PollOn(c, s, acts, HoldSleep(i, at, at + 5), d + 5, HoldWake, HoldMarker(i + 1, at));
    acts := acts + [Step(0, HoldWake)];
  }

  lemma {:induction false} Rounds(c: Config, s: State, i: nat) returns (acts: seq<Action>, l: nat)
    requires ValidConfig(c) && |s.pc| == c.n && JobDone !in s.markers && Failed !in s.markers && i <= HOLD_LIMIT
    requires s.pc[0] == HoldMarker(0, s.now)
    ensures Play(c, s, acts) == Some(Held(s, HoldMarker(i, l), 5 * i))
  {
    if i == 0 {
      acts, l := [], s.now;
      assert s.pc[0 := HoldMarker(0, s.now)] == s.pc;
    } else {
      acts, l := Rounds(c, s, i - 1);
      acts := Round(c, s, acts, i - 1, l, 5 * (i - 1));
      l := s.now + 5 * (i - 1);
    }
  }

  /** A run in which job-done is written at second `t` and some stage timed out all the same. */
  ghost predicate LateRun(c: Config, ss: seq<State>, acts: seq<Action>, t: nat)
    requires ValidConfig(c)
  {
    && IsRun(c, ss, acts)
    && var s := ss[|acts|];
    && !s.torn && s.timedOut && JobDone in s.markers && s.jobDoneAt == t
  }

  /** The last stage writes job-done while stage 0 has just looked for the last time; then stage 0 times out. */
  lemma MissesIt(c: Config, s: State, before: seq<Action>, u: State, at: nat) returns (acts: seq<Action>, t: State)
    requires ValidConfig(c) && Play(c, s, before) == Some(u) && |u.pc| == c.n && !u.torn && Failed !in u.markers
    requires u.pc[0] == HoldFailed(HOLD_LIMIT, at) && u.pc[c.n - 1].TouchJobDone?
    ensures Play(c, s, acts) == Some(t)
    ensures !t.torn && t.timedOut && JobDone in t.markers && t.jobDoneAt == u.now
  {
    t := u;
    PlayOne(c, s, before, t, Step(c.n - 1, WriteJobDone));
    acts, t := before + [Step(c.n - 1, WriteJobDone)], Apply(c, t, Step(c.n - 1, WriteJobDone));
    PlayOne(c, s, acts, t, Step(0, HoldPollFailed));
    acts, t := acts + [Step(0, HoldPollFailed)], Apply(c, t, Step(0, HoldPollFailed));
    assert t.pc[0] == HoldSleep(HOLD_LIMIT, at, u.now + HOLD_PERIOD);
    PlayOne(c, s, acts, t, Tick(5));
    acts, t := acts + [Tick(5)], Apply(c, t, Tick(5));
    PlayOne(c, s, acts, t, Step(0, HoldWake));
    acts, t := acts + [Step(0, HoldWake)], Apply(c, t, Step(0, HoldWake));
  }

  lemma LateRunExists(c: Config, t: nat) returns (ss: seq<State>, acts: seq<Action>)
    requires ValidConfig(c) && t >= DAY
    ensures LateRun(c, ss, acts, t)
  {
    var init := InitState(c);
    var s, l, more, u;
    acts, s := StagesGoOn(c, init, 0);
    more, l := Rounds(c, s, HOLD_LIMIT);
    PollOn(c, s, more, HoldMarker(HOLD_LIMIT, l), DAY, HoldPoll, HoldFailed(HOLD_LIMIT, DAY));
    more := more + [Step(0, HoldPoll)];
    TickOn(c, s, more, HoldFailed(HOLD_LIMIT, DAY), DAY, t - DAY);
    more := more + [Tick(t - DAY)];
    more, u := MissesIt(c, s, more, Held(s, HoldFailed(HOLD_LIMIT, DAY), t), DAY);
    PlayAppend(c, init, acts, s, more);
    ss := PlayIsRun(c, acts + more);
    acts := acts + more;
  }

  /** A stage can have timed out although job-done was written at second `t` if and only if `t` is past the day. */
  lemma TimeoutIff(c: Config, t: nat)
    requires ValidConfig(c)
    ensures (exists ss: seq<State>, acts: seq<Action> :: LateRun(c, ss, acts, t)) <==> t >= 86400
  {
    if t >= DAY {
      var ss, acts := LateRunExists(c, t);
      assert LateRun(c, ss, acts, t);
    } else {
      forall ss: seq<State>, acts: seq<Action> ensures !LateRun(c, ss, acts, t) {
        if LateRun(c, ss, acts, t) {
          NoTimeoutWithinADay(c, ss, acts, |acts|);
        }
      }
    }
  }

  // ------------------------------------------------------------------ the teardown

  /** A run with polls at most `gap` seconds apart in which the directory goes before every peer has seen job-done. */
  ghost predicate HastyRun(c: Config, ss: seq<State>, acts: seq<Action>, gap: nat)
    requires ValidConfig(c)
  {
    && IsRun(c, ss, acts) && (forall j :: 0 <= j < |ss| ==> Timely(ss[j], gap))
    && var s := ss[|acts|];
    && s.torn && !s.killed && !s.timedOut && !PeersGone(c, s)
  }

  /** The last stage touches job-done and takes the directory down while the first one holds. */
  lemma TearsDown(c: Config) returns (acts: seq<Action>, t: State)
    requires ValidConfig(c) && c.teardown
    ensures Play(c, InitState(c), acts) == Some(t)
    ensures |t.pc| == c.n && t.pc[0] == HoldMarker(0, 0) && t.now == LINGER
    ensures t.torn && !t.killed && !t.timedOut
  {
    var init, p := InitState(c), c.n - 1;
    acts, t := StagesGoOn(c, init, 0);
    PlayOne(c, init, acts, t, Step(p, WriteJobDone));
    acts, t := acts + [Step(p, WriteJobDone)], Apply(c, t, Step(p, WriteJobDone));
    PlayOne(c, init, acts, t, Tick(LINGER));
    acts, t := acts + [Tick(LINGER)], Apply(c, t, Tick(LINGER));
    PlayOne(c, init, acts, t, Step(p, StartTeardown));
    acts, t := acts + [Step(p, StartTeardown)], Apply(c, t, Step(p, StartTeardown));
  }

  lemma HastyRunExists(c: Config, gap: nat) returns (ss: seq<State>, acts: seq<Action>)
    requires ValidConfig(c) && c.teardown && gap >= LINGER
    ensures HastyRun(c, ss, acts, gap)
  {
    var t;
    acts, t := TearsDown(c);
    ss := PlayIsRun(c, acts);
    forall j | 0 <= j < |ss| ensures Timely(ss[j], gap) {
      TornMonotone(c, ss, acts, j, |acts|);
    }
  }

  /** Peers who poll at most `gap` seconds apart can miss job-done if and only if `gap` is 20 or more. */
  lemma TeardownIff(c: Config, gap: nat)
    requires ValidConfig(c) && c.teardown && !c.restarts
    ensures (exists ss: seq<State>, acts: seq<Action> :: HastyRun(c, ss, acts, gap)) <==> gap >= 20
  {
    if gap >= LINGER {
      var ss, acts := HastyRunExists(c, gap);
      assert HastyRun(c, ss, acts, gap);
    } else {
      forall ss: seq<State>, acts: seq<Action> ensures !HastyRun(c, ss, acts, gap) {
        if HastyRun(c, ss, acts, gap) {
          TeardownIsSeenByAll(c, ss, acts, gap, |acts|);
        }
      }
    }
  }
}
