/** Every run without restarts is finite: each script step uses up some of a bounded budget. */
module ProtocolTermination {
  import opened Protocol
  import opened ProtocolOrder
  import opened ProtocolTiming

  /** An upper bound on the steps a script still has to take (twice over, to pay for the marker it may write). */
  function Rank(pc: PC): int {
    match pc
    case Exited(_) => 0
    case Exiting => 2
    case Tearing => 4
    case Lingering(_) => 6
    case TouchJobDone => 10
    case HoldSleep(i, _, _) => 20 + 6 * (HOLD_LIMIT - i)
    case HoldFailed(i, _) => 22 + 6 * (HOLD_LIMIT - i)
    case HoldMarker(i, _) => 24 + 6 * (HOLD_LIMIT - i)
    case TouchDone => 103710
    case Working => 103712
    case ClearRm => 103714
    case ClearCheck => 103716
    case CheckDone => 103718
    case WaitSleep(i, _) => 103720 + 6 * (WAIT_LIMIT - i)
    case WaitFailed(i) => 103722 + 6 * (WAIT_LIMIT - i)
    case WaitMarker(i) => 103724 + 6 * (WAIT_LIMIT - i)
    case Init => 362930
  }

  function Budget(pcs: seq<PC>): int {
    if pcs == [] then 0 else Rank(pcs[0]) + Budget(pcs[1..])
  }

  function Measure(s: State): int {
    Budget(s.pc) + |s.markers|
  }

  function Steps(acts: seq<Action>): nat {
    if acts == [] then 0
    else Steps(acts[..|acts| - 1]) + if acts[|acts| - 1].Tick? then 0 else 1
  }

  lemma RankDrops(c: Config, s: State, p: nat, pc: PC, k: Kind)
    requires ValidConfig(c) && CanStep(c, s, p, pc, k) && Paced(pc, s.now) && !k.Restart?
    ensures Rank(NextPC(c, s, p, pc, k)) + 2 <= Rank(pc)
  {
  }

  lemma {:induction false} BudgetUpdate(pcs: seq<PC>, p: nat, pc: PC)
    requires p < |pcs|
    ensures Budget(pcs[p := pc]) == Budget(pcs) - Rank(pcs[p]) + Rank(pc)
  {
    if p == 0 {
      assert pcs[0 := pc][1..] == pcs[1..];
    } else {
      assert pcs[p := pc][1..] == pcs[1..][p - 1 := pc];
      BudgetUpdate(pcs[1..], p - 1, pc);
    }
  }

  lemma {:induction false} BudgetNonNegative(pcs: seq<PC>, now: nat)
    requires forall p: nat :: p < |pcs| ==> Paced(pcs[p], now)
    ensures Budget(pcs) >= 0
  {
    if pcs != [] {
      assert Paced(pcs[0], now);
      forall p: nat | p < |pcs[1..]| ensures Paced(pcs[1..][p], now) {
        assert Paced(pcs[p + 1], now);
      }
      BudgetNonNegative(pcs[1..], now);
    }
  }

  lemma {:induction false} BudgetInit(n: nat, pcs: seq<PC>)
    requires |pcs| == n && forall p: nat :: p < n ==> pcs[p] == Init
    ensures Budget(pcs) == n * Rank(Init)
  {
    if n > 0 {
      BudgetInit(n - 1, pcs[1..]);
    }
  }

  lemma MeasureDrops(c: Config, s: State, a: Action)
    requires ValidConfig(c) && !c.restarts && Clocked(c, s) && Enabled(c, s, a) && !a.Tick?
    ensures Measure(Apply(c, s, a)) < Measure(s)
  {
    if a.Step? {
      assert Paced(s.pc[a.p], s.now);
      RankDrops(c, s, a.p, s.pc[a.p], a.k);
      BudgetUpdate(s.pc, a.p, NextPC(c, s, a.p, s.pc[a.p], a.k));
      var kept := s.markers - (if a.k.RmFailed? then {Failed} else {});
      AddedAtMostOne(kept, Touched(a.p, a.k));
      RemovedCardinality(s.markers, if a.k.RmFailed? then {Failed} else {});
    } else {
      assert s.markers == (s.markers - {a.m}) + {a.m};
    }
  }

  lemma AddedAtMostOne(x: set<Marker>, y: set<Marker>)
    requires |y| <= 1
    ensures |x + y| <= |x| + 1
  {
    if y == {} {
      assert x + y == x;
    } else {
      assert |x + y| + |x * y| == |x| + |y|;
    }
  }

  lemma RemovedCardinality(x: set<Marker>, y: set<Marker>)
    ensures |x - y| <= |x|
  {
    assert |x - y| + |x * y| == |x| by {
      assert x == (x - y) + (x * y);
    }
  }

  /**
    Whatever the interleaving, a pod without restarts takes at most 362930 script steps per
    container before everything has exited; only the clock can go on.
  */
  lemma {:induction false} RunsAreBounded(c: Config, ss: seq<State>, acts: seq<Action>, i: nat)
    requires ValidConfig(c) && !c.restarts && IsRun(c, ss, acts) && i <= |acts|
    ensures Steps(acts[..i]) + Measure(ss[i]) <= c.n * 362930
    ensures Steps(acts[..i]) <= c.n * 362930
  {
    ClockedAlways(c, ss, acts, i);
    BudgetNonNegative(ss[i].pc, ss[i].now);
    if i == 0 {
      BudgetInit(c.n, ss[0].pc);
    } else {
      RunsAreBounded(c, ss, acts, i - 1);
      ClockedAlways(c, ss, acts, i - 1);
      assert acts[..i][..i - 1] == acts[..i - 1];
      if !acts[i - 1].Tick? {
        MeasureDrops(c, ss[i - 1], acts[i - 1]);
      }
    }
  }

  /** Nobody is ever blocked: a live script can move once the clock reaches the end of its sleep. */
  lemma LiveScriptsMove(c: Config, s: State, p: nat) returns (d: nat, k: Kind)
    requires ValidConfig(c) && Order(c, s) && p < c.n && !s.pc[p].Exited?
    ensures !k.Kill? && !k.Restart? && CanStep(c, s.(now := s.now + d), p, s.pc[p], k)
  {
    assert StageOk(c, s, p);
    var pc := s.pc[p];
    k :=
      match pc
      case Init => InitOk
      case WaitMarker(_) => PollWait
      case WaitFailed(_) => PollWaitFailed
      case WaitSleep(_, _) => WakeWait
      case CheckDone => TestDone
      case ClearCheck => TestFailed
      case ClearRm => RmFailed
      case Working => FinishWork
      case TouchDone => WriteDone
      case HoldMarker(_, _) => HoldPoll
      case HoldFailed(_, _) => HoldPollFailed
      case HoldSleep(_, _, _) => HoldWake
      case TouchJobDone => WriteJobDone
      case Lingering(_) => StartTeardown
      case Tearing => FailTeardown
      case Exiting => Trap(true)
      case Exited(_) => Kill;
    d := if pc.WaitSleep? || pc.HoldSleep? || pc.Lingering? then pc.until else 0;
  }
}
