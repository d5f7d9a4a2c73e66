/**
  What every action of the marker protocol keeps, whatever the interleaving, the timeouts,
  the kills and (until a restore pod tears its directory down) the in-place restarts.
*/
module ProtocolOrder {
  import opened Protocol

  predicate Waits(pc: PC) {
    pc.WaitMarker? || pc.WaitFailed? || pc.WaitSleep?
  }

  predicate Holds(pc: PC) {
    pc.HoldMarker? || pc.HoldFailed? || pc.HoldSleep?
  }

  /** The script is past `wait_for` and has not ended. */
  predicate PastWait(pc: PC) {
    !(pc.Init? || Waits(pc) || pc.Exiting? || pc.Exited?)
  }

  /** The script is between its already-done test and its touch of its own done-marker. */
  predicate BeforeMark(pc: PC) {
    pc.ClearCheck? || pc.ClearRm? || pc.Working? || pc.TouchDone?
  }

  predicate AfterMark(pc: PC) {
    Holds(pc) || pc.TouchJobDone? || pc.Lingering? || pc.Tearing? || pc.Exiting? || pc.Exited?
  }

  predicate StageOk(c: Config, s: State, p: nat)
    requires ValidConfig(c) && p < |s.pc|
  {
    var pc := s.pc[p];
    && (Waits(pc) ==> p > 0)
    && (p > 0 && PastWait(pc) ==> Done(p - 1) in s.hist)
    && (BeforeMark(pc) ==> OwnMarker(c, p) !in s.hist)
    && (pc.ClearCheck? || pc.ClearRm? ==> p == 1)
    && (pc.TouchDone? ==> Marks(c, p))
    && (pc.TouchJobDone? ==> p == c.n - 1 && JobDone !in s.hist && (c.finisherMarks ==> Done(p) in s.hist))
    && (Holds(pc) ==> Done(p) in s.hist)
    && (pc.Lingering? || pc.Tearing? ==> p == c.n - 1 && c.teardown && JobDone in s.hist)
    && (pc.Tearing? ==> s.torn)
    && (pc == Exited(true) ==> JobDone in s.hist)
  }

  /** Without restarts a stage that wrote its marker never goes back before it. */
  predicate StageNever(c: Config, s: State, p: nat)
    requires ValidConfig(c) && p < |s.pc|
  {
    && (OwnMarker(c, p) in s.hist ==> AfterMark(s.pc[p]))
    && (p == c.n - 1 && s.torn ==> s.pc[p].Tearing? || s.pc[p].Exiting? || s.pc[p].Exited?)
  }

  /** The done-markers ever written are closed downwards along the stage order. */
  ghost predicate Chain(c: Config, hist: set<Marker>)
    requires ValidConfig(c)
  {
    && Failed !in hist
    && (forall j: nat :: Done(j) in hist ==> j < c.n && Marks(c, j))
    && (forall j: nat, k: nat :: k <= j && Done(j) in hist ==> Done(k) in hist)
    && (JobDone in hist ==> forall j: nat :: j < c.n && Marks(c, j) ==> Done(j) in hist)
  }

  ghost predicate Order(c: Config, s: State)
    requires ValidConfig(c)
  {
    && |s.pc| == c.n
    && Chain(c, s.hist)
    && (forall m :: m in s.markers ==> m == Failed || m in s.hist)
    && (!s.torn ==> s.hist <= s.markers)
    && (s.torn ==> JobDone in s.hist)
    && (forall p: nat :: p < c.n ==> StageOk(c, s, p))
    && (!c.restarts ==> forall p: nat :: p < c.n ==> StageNever(c, s, p))
  }

  /** The claim is given up only when a container is restarted after a restore pod's teardown. */
  ghost predicate Inv(c: Config, s: State)
    requires ValidConfig(c)
  {
    (c.restarts && s.torn) || Order(c, s)
  }

  /** Writing a done-marker keeps the chain, because the writer is past its own wait. */
  lemma ChainStep(c: Config, s: State, a: Action)
    requires ValidConfig(c) && Order(c, s) && Enabled(c, s, a)
    ensures Chain(c, Apply(c, s, a).hist)
  {
    if a.Step? {
      assert StageOk(c, s, a.p);
    }
  }

  /** `rm -f .step-*` finds no done-marker: cleanup works only while its own marker was never written. */
  lemma SweepFindsOnlyFailed(c: Config, s: State, m: Marker)
    requires ValidConfig(c) && Order(c, s) && Enabled(c, s, Sweep(m))
    ensures m == Failed && s.hist == {}
  {
    assert StageOk(c, s, 0);
    assert JobDone !in s.hist by {
      assert Marks(c, 0);
    }
    assert forall j: nat :: Done(j) !in s.hist;
  }

  lemma MarkersStep(c: Config, s: State, a: Action)
    requires ValidConfig(c) && Order(c, s) && Enabled(c, s, a)
    ensures var t := Apply(c, s, a);
            && (forall m :: m in t.markers ==> m == Failed || m in t.hist)
            && (!t.torn ==> t.hist <= t.markers)
            && (t.torn ==> JobDone in t.hist)
  {
    match a {
      case Tick(_) =>
      case Sweep(m) => SweepFindsOnlyFailed(c, s, m);
      case RemoveMarker(m) => assert StageOk(c, s, c.n - 1);
      case Step(p, k) => assert StageOk(c, s, p);
    }
  }

  /** An action of another stage leaves `q` where it is and writes no marker that is `q`'s own. */
  lemma OthersKeepStage(c: Config, s: State, a: Action, q: nat)
    requires ValidConfig(c) && Order(c, s) && Enabled(c, s, a) && q < c.n
    requires !(a.Step? && a.p == q)
    ensures StageOk(c, Apply(c, s, a), q)
    ensures !c.restarts ==> StageNever(c, Apply(c, s, a), q)
  {
    var t := Apply(c, s, a);
    assert StageOk(c, s, q);
    assert !c.restarts ==> StageNever(c, s, q);
    if a.Step? {
      assert StageOk(c, s, a.p);
    }
    assert OwnMarker(c, q) in t.hist ==> OwnMarker(c, q) in s.hist;
  }

  predicate Writes(k: Kind) {
    k.TestDone? || k.FinishWork? || k.WriteDone? || k.WriteJobDone? || k.StartTeardown?
  }

  lemma WritingKeepsStageOk(c: Config, s: State, p: nat, k: Kind)
    requires ValidConfig(c) && Order(c, s) && Enabled(c, s, Step(p, k)) && Writes(k)
    requires !(c.restarts && s.torn)
    ensures StageOk(c, Apply(c, s, Step(p, k)), p)
  {
    assert StageOk(c, s, p);
    assert !c.restarts ==> StageNever(c, s, p);
    assert k.TestDone? ==> !s.torn;
  }

  lemma ReadingKeepsStageOk(c: Config, s: State, p: nat, k: Kind)
    requires ValidConfig(c) && Order(c, s) && Enabled(c, s, Step(p, k)) && !Writes(k)
    ensures StageOk(c, Apply(c, s, Step(p, k)), p)
  {
    assert StageOk(c, s, p);
  }

  lemma OwnStepKeepsStageNever(c: Config, s: State, p: nat, k: Kind)
    requires ValidConfig(c) && Order(c, s) && Enabled(c, s, Step(p, k))
    requires !c.restarts
    ensures StageNever(c, Apply(c, s, Step(p, k)), p)
  {
    assert StageOk(c, s, p) && StageNever(c, s, p);
  }

  lemma OrderStep(c: Config, s: State, a: Action)
    requires ValidConfig(c) && Order(c, s) && Enabled(c, s, a)
    requires !(c.restarts && s.torn)
    ensures Order(c, Apply(c, s, a))
  {
    ChainStep(c, s, a);
    MarkersStep(c, s, a);
    forall q: nat | q < c.n
      ensures StageOk(c, Apply(c, s, a), q)
      ensures !c.restarts ==> StageNever(c, Apply(c, s, a), q)
    {
      if a.Step? && a.p == q {
        if Writes(a.k) {
          WritingKeepsStageOk(c, s, q, a.k);
        } else {
          ReadingKeepsStageOk(c, s, q, a.k);
        }
        if !c.restarts {
          OwnStepKeepsStageNever(c, s, q, a.k);
        }
      } else {
        OthersKeepStage(c, s, a, q);
      }
    }
  }

  lemma InitOrder(c: Config)
    requires ValidConfig(c)
    ensures Order(c, InitState(c))
  {
  }

  lemma {:induction false} InvAlways(c: Config, ss: seq<State>, acts: seq<Action>, i: nat)
    requires ValidConfig(c) && IsRun(c, ss, acts) && i < |ss|
    ensures Inv(c, ss[i])
  {
    if i == 0 {
      InitOrder(c);
    } else {
      InvAlways(c, ss, acts, i - 1);
      assert ss[i] == Apply(c, ss[i - 1], acts[i - 1]);
      if !(c.restarts && ss[i - 1].torn) {
        OrderStep(c, ss[i - 1], acts[i - 1]);
      }
    }
  }

  /** Scratch teardown is never undone. */
  lemma {:induction false} TornMonotone(c: Config, ss: seq<State>, acts: seq<Action>, i: nat, j: nat)
    requires ValidConfig(c) && IsRun(c, ss, acts) && i <= j < |ss|
    ensures ss[i].torn ==> ss[j].torn
    ensures ss[i].hist <= ss[j].hist
    ensures ss[i].now <= ss[j].now
    ensures ss[i].timedOut ==> ss[j].timedOut
  {
    if i < j {
      TornMonotone(c, ss, acts, i, j - 1);
      assert ss[j] == Apply(c, ss[j - 1], acts[j - 1]);
    }
  }

  /**
    The marker order, under any restarts: as long as the scratch directory stands, the
    directory's done-markers are closed downwards, job-done comes last, exit status 0 means
    job-done, and cleanup's `rm -f .step-*` never meets a done-marker.
  */
  lemma MarkerOrder(c: Config, ss: seq<State>, acts: seq<Action>, i: nat)
    requires ValidConfig(c) && IsRun(c, ss, acts) && i < |ss|
    requires !ss[i].torn
    ensures forall j: nat, k: nat :: k <= j && Done(j) in ss[i].markers ==> Done(k) in ss[i].markers
    ensures JobDone in ss[i].markers ==> forall j: nat :: j < c.n && Marks(c, j) ==> Done(j) in ss[i].markers
    ensures |ss[i].pc| == c.n
    ensures Exited(true) in ss[i].pc ==> JobDone in ss[i].markers
    ensures forall m :: Enabled(c, ss[i], Sweep(m)) ==> m == Failed && ss[i].markers == {Failed}
  {
    InvAlways(c, ss, acts, i);
    var s := ss[i];
    assert Order(c, s);
    if Exited(true) in s.pc {
      var p: nat :| p < c.n && s.pc[p] == Exited(true);
      assert StageOk(c, s, p);
    }
    forall m | Enabled(c, s, Sweep(m)) ensures m == Failed && s.markers == {Failed} {
      SweepFindsOnlyFailed(c, s, m);
    }
  }

  /** No done-marker is ever lost while the scratch directory stands, restarts included. */
  lemma DoneMarkersNeverLost(c: Config, ss: seq<State>, acts: seq<Action>, i: nat, j: nat)
    requires ValidConfig(c) && IsRun(c, ss, acts) && i <= j < |ss|
    requires !ss[j].torn
    ensures ss[i].markers - {Failed} <= ss[j].markers
  {
    TornMonotone(c, ss, acts, i, j);
    InvAlways(c, ss, acts, i);
    InvAlways(c, ss, acts, j);
  }

  /**
    Work is serial and in order, restarts included: while a stage works, every earlier stage
    has its marker, neither it nor any later stage has, and no other stage works.
  */
  lemma WorkIsSerial(c: Config, ss: seq<State>, acts: seq<Action>, i: nat, p: nat)
    requires ValidConfig(c) && IsRun(c, ss, acts) && i < |ss|
    requires !ss[i].torn && |ss[i].pc| == c.n && p < c.n && ss[i].pc[p].Working?
    ensures forall k: nat :: k < c.n ==> (Done(k) in ss[i].markers <==> k < p)
    ensures JobDone !in ss[i].markers
    ensures forall q: nat :: q < c.n && ss[i].pc[q].Working? ==> q == p
  {
    InvAlways(c, ss, acts, i);
    WorkerState(c, ss[i], p);
    forall q: nat | q < c.n && ss[i].pc[q].Working? ensures q == p {
      WorkerState(c, ss[i], q);
      assert Done(p) !in ss[i].markers && Done(q) !in ss[i].markers;
    }
  }

  lemma WorkerState(c: Config, s: State, p: nat)
    requires ValidConfig(c) && Order(c, s)
    requires p < c.n && s.pc[p].Working?
    ensures forall k: nat :: k < c.n ==> (Done(k) in s.hist <==> k < p)
    ensures JobDone !in s.hist
    ensures !s.torn ==> forall k: nat :: k < c.n ==> (Done(k) in s.markers <==> k < p)
    ensures JobDone !in s.markers
  {
    assert StageOk(c, s, p);
    assert Done(p) !in s.hist;
  }

  /** Encrypt without S3 (a finisher with a marker of its own) marked itself done but cannot write job-done any more. */
  ghost predicate Stuck(c: Config, s: State)
    requires ValidConfig(c)
  {
    && Order(c, s) && !s.torn
    && Done(c.n - 1) in s.hist && JobDone !in s.hist
    && !s.pc[c.n - 1].TouchJobDone?
  }

  /**
    A restart of that finisher between its two touches is fatal: from there on no
    continuation of the run, however long, writes job-done or lets a container exit 0.
  */
  lemma {:induction false} RestartBetweenTouchesHangs(c: Config, s: State, ss: seq<State>, acts: seq<Action>, i: nat)
    requires ValidConfig(c) && c.finisherMarks && c.restarts && !c.teardown
    requires Order(c, s) && s.pc[c.n - 1].TouchJobDone? && !s.torn
    requires |ss| == |acts| + 1 && i < |ss|
    requires ss[0] == Apply(c, s, Step(c.n - 1, Restart))
    requires forall j :: 0 <= j < |acts| ==> Enabled(c, ss[j], acts[j]) && ss[j + 1] == Apply(c, ss[j], acts[j])
    ensures Stuck(c, ss[i])
    ensures JobDone !in ss[i].markers && Exited(true) !in ss[i].pc
  {
    if i == 0 {
      OrderStep(c, s, Step(c.n - 1, Restart));
      assert StageOk(c, s, c.n - 1);
    } else {
      RestartBetweenTouchesHangs(c, s, ss, acts, i - 1);
      StuckStep(c, ss[i - 1], acts[i - 1]);
      assert ss[i] == Apply(c, ss[i - 1], acts[i - 1]);
    }
    forall p: nat | p < c.n ensures ss[i].pc[p] != Exited(true) {
      assert StageOk(c, ss[i], p);
    }
  }

  lemma StuckStep(c: Config, s: State, a: Action)
    requires ValidConfig(c) && c.finisherMarks && !c.teardown
    requires Stuck(c, s) && Enabled(c, s, a)
    ensures Stuck(c, Apply(c, s, a))
  {
    OrderStep(c, s, a);
    if a.Step? {
      assert StageOk(c, s, a.p);
    }
    assert StageOk(c, s, c.n - 1);
  }
}
