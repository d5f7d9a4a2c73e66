/** What a pod can still reach: runs built stage by stage, and exactly when job-done stays possible. */
module ProtocolProgress {
  import opened Wrappers
  import opened Protocol
  import opened ProtocolOrder

  /** The state after a sequence of actions, if each of them is enabled in its turn. */
  function Play(c: Config, s: State, acts: seq<Action>): Option<State>
    requires ValidConfig(c)
    decreases |acts|
  {
    if acts == [] then Some(s)
    else
      var n := |acts| - 1;
      var u := Play(c, s, acts[..n]);
      if u.Some? && Enabled(c, u.value, acts[n]) then Some(Apply(c, u.value, acts[n])) else None
  }

  lemma PlayOne(c: Config, s: State, acts: seq<Action>, t: State, a: Action)
    requires ValidConfig(c) && Play(c, s, acts) == Some(t) && Enabled(c, t, a)
    ensures Play(c, s, acts + [a]) == Some(Apply(c, t, a))
  {
    assert (acts + [a])[..|acts|] == acts;
  }

  lemma PlayTwo(c: Config, s: State, a: Action, b: Action, t: State)
    requires ValidConfig(c) && Play(c, s, [a, b]) == Some(t)
    ensures Enabled(c, s, a) && Enabled(c, Apply(c, s, a), b) && Apply(c, Apply(c, s, a), b) == t
  {
    assert [a, b][..1] == [a];
    assert [a][..0] == [];
    assert Play(c, s, []) == Some(s);
  }

  lemma {:induction false} PlayAppend(c: Config, s: State, xs: seq<Action>, u: State, ys: seq<Action>)
    requires ValidConfig(c) && Play(c, s, xs) == Some(u)
    ensures Play(c, s, xs + ys) == Play(c, u, ys)
    decreases |ys|
  {
    if ys == [] {
      assert xs + ys == xs;
    } else {
      var n := |ys| - 1;
      PlayAppend(c, s, xs, u, ys[..n]);
      assert (xs + ys)[..|xs + ys| - 1] == xs + ys[..n];
    }
  }

  /** What can be played from the start is a run. */
  lemma {:induction false} PlayIsRun(c: Config, acts: seq<Action>) returns (ss: seq<State>)
    requires ValidConfig(c) && Play(c, InitState(c), acts).Some?
    ensures IsRun(c, ss, acts) && ss[|acts|] == Play(c, InitState(c), acts).value
    decreases |acts|
  {
    if acts == [] {
      ss := [InitState(c)];
    } else {
      var n := |acts| - 1;
      var before := PlayIsRun(c, acts[..n]);
      ss := before + [Play(c, InitState(c), acts).value];
      forall i | 0 <= i < |acts| ensures Enabled(c, ss[i], acts[i]) && ss[i + 1] == Apply(c, ss[i], acts[i]) {
        if i < n {
          assert acts[..n][i] == acts[i];
        }
      }
    }
  }

  // ------------------------------------------------------------------ one stage

  /** Stage `p` at work; stage 1 has cleared `.step-failed` on the way. */
  function AtWork(s: State, p: nat): State
    requires p < |s.pc|
  {
    s.(pc := s.pc[p := Working], markers := if p == 1 then s.markers - {Failed} else s.markers)
  }

  predicate Reads(k: Kind) {
    || k.InitOk? || k.PollWait? || k.TestDone? || k.TestFailed? || k.FinishWork?
    || k.HoldPoll? || k.HoldPollFailed?
  }

  /** A step that only reads moves its own script and nothing else. */
  lemma ReadingMoves(c: Config, s: State, p: nat, k: Kind)
    requires ValidConfig(c) && Enabled(c, s, Step(p, k)) && Reads(k)
    ensures Apply(c, s, Step(p, k)) == s.(pc := s.pc[p := NextPC(c, s, p, s.pc[p], k)])
  {
  }

  /** Nobody's work ends along the way. */
  predicate NoWorkEnds(acts: seq<Action>) {
    forall i :: 0 <= i < |acts| ==> acts[i].Step? && !acts[i].k.FinishWork?
  }

  /** One reading step of stage `p` more. */
  lemma ReadOn(c: Config, s: State, p: nat, acts: seq<Action>, pc: PC, k: Kind)
    requires ValidConfig(c) && |s.pc| == c.n && p < c.n && Reads(k)
    requires Play(c, s, acts) == Some(s.(pc := s.pc[p := pc]))
    requires CanStep(c, s, p, pc, k)
    ensures Play(c, s, acts + [Step(p, k)]) == Some(s.(pc := s.pc[p := NextPC(c, s, p, pc, k)]))
  {
    var t := s.(pc := s.pc[p := pc]);
    PlayOne(c, s, acts, t, Step(p, k));
    ReadingMoves(c, t, p, k);
    assert t.pc[p := NextPC(c, s, p, pc, k)] == s.pc[p := NextPC(c, s, p, pc, k)];
  }

  /** From its first line a stage whose predecessor is done and who is not done itself gets to its work. */
  lemma StageStarts(c: Config, s: State, p: nat) returns (acts: seq<Action>)
    requires ValidConfig(c) && |s.pc| == c.n && p < c.n && s.pc[p].Init?
    requires p > 0 ==> Done(p - 1) in s.markers
    requires OwnMarker(c, p) !in s.markers
    ensures Play(c, s, acts) == Some(AtWork(s, p)) && NoWorkEnds(acts)
  {
    acts := [];
    assert s.pc[p := Init] == s.pc;
    ReadOn(c, s, p, acts, Init, InitOk);
    acts := acts + [Step(p, InitOk)];
    if p > 0 {
      ReadOn(c, s, p, acts, WaitMarker(0), PollWait);
      acts := acts + [Step(p, PollWait)];
    }
    ReadOn(c, s, p, acts, CheckDone, TestDone);
    acts := acts + [Step(p, TestDone)];
    if p == 1 {
      acts := ClearsItsWay(c, s, acts);
    }
  }

  lemma ClearsItsWay(c: Config, s: State, before: seq<Action>) returns (acts: seq<Action>)
    requires ValidConfig(c) && |s.pc| == c.n && NoWorkEnds(before)
    requires Play(c, s, before) == Some(s.(pc := s.pc[1 := ClearCheck]))
    ensures Play(c, s, acts) == Some(AtWork(s, 1)) && NoWorkEnds(acts)
  {
    ReadOn(c, s, 1, before, ClearCheck, TestFailed);
    acts := before + [Step(1, TestFailed)];
    if Failed in s.markers {
      var t := s.(pc := s.pc[1 := ClearRm]);
      PlayOne(c, s, acts, t, Step(1, RmFailed));
      acts := acts + [Step(1, RmFailed)];
      assert t.pc[1 := Working] == s.pc[1 := Working];
      assert Touched(1, RmFailed) == {};
      assert Apply(c, t, Step(1, RmFailed)) == AtWork(s, 1);
    } else {
      assert s.markers - {Failed} == s.markers;
    }
  }

  /** The state after stage `p` has touched its marker and stands at `pc`. */
  function Marked(s: State, p: nat, pc: PC): State
    requires p < |s.pc|
  {
    s.(pc := s.pc[p := pc], markers := s.markers + {Done(p)}, hist := s.hist + {Done(p)})
  }

  /** A working stage with a marker of its own ends its work and leaves its marker. */
  lemma StageMarks(c: Config, s: State, p: nat) returns (acts: seq<Action>)
    requires ValidConfig(c) && |s.pc| == c.n && p < c.n && s.pc[p].Working? && Marks(c, p)
    ensures acts == [Step(p, FinishWork), Step(p, WriteDone)]
    ensures Play(c, s, acts) == Some(Marked(s, p, if p == c.n - 1 then TouchJobDone else HoldMarker(0, s.now)))
  {
    assert s.pc[p := Working] == s.pc;
    ReadOn(c, s, p, [], Working, FinishWork);
    var t := s.(pc := s.pc[p := TouchDone]);
    acts := [] + [Step(p, FinishWork)];
    PlayOne(c, s, acts, t, Step(p, WriteDone));
    acts := acts + [Step(p, WriteDone)];
    var pc := if p == c.n - 1 then TouchJobDone else HoldMarker(0, s.now);
    assert t.pc[p := pc] == s.pc[p := pc];
    assert Apply(c, t, Step(p, WriteDone)) == Marked(s, p, pc);
  }

  /** The last stage ends its work, marks itself done if it does, and comes to its touch of job-done. */
  lemma LastStageEnds(c: Config, s: State) returns (acts: seq<Action>, t: State)
    requires ValidConfig(c) && |s.pc| == c.n && s.pc[c.n - 1].Working?
    ensures Play(c, s, acts) == Some(t) && |t.pc| == c.n
    ensures t == if c.finisherMarks then Marked(s, c.n - 1, TouchJobDone) else s.(pc := s.pc[c.n - 1 := TouchJobDone])
  {
    var p := c.n - 1;
    if c.finisherMarks {
      acts := StageMarks(c, s, p);
      t := Marked(s, p, TouchJobDone);
    } else {
      assert s.pc[p := Working] == s.pc;
      ReadOn(c, s, p, [], Working, FinishWork);
      acts := [] + [Step(p, FinishWork)];
      t := s.(pc := s.pc[p := TouchJobDone]);
    }
  }

  // ------------------------------------------------------------------ all stages

  /** Exactly the stages before `p` have their markers, and job-done is not written. */
  ghost predicate Front(c: Config, s: State, p: nat) {
    && |s.pc| == c.n && JobDone !in s.markers
    && forall k: nat :: k < c.n ==> (Done(k) in s.markers <==> k < p)
  }

  /** The stages from `p` on are at their first line or can be put back there. */
  ghost predicate Fresh(c: Config, s: State, p: nat) {
    c.restarts || forall k: nat :: p <= k < |s.pc| ==> s.pc[k].Init?
  }

  lemma StageRestarts(c: Config, s: State, p: nat) returns (acts: seq<Action>, t: State)
    requires ValidConfig(c) && p < c.n && Front(c, s, p) && Fresh(c, s, p)
    ensures Play(c, s, acts) == Some(t) && t == s.(pc := s.pc[p := Init])
  {
    acts, t := [], s;
    if !s.pc[p].Init? {
      PlayOne(c, s, acts, t, Step(p, Restart));
      acts, t := acts + [Step(p, Restart)], Apply(c, t, Step(p, Restart));
    }
  }

  /** What going on from stage `p` leaves alone, and where it leaves the stages before the last. */
  ghost predicate WentOn(c: Config, s: State, p: nat, t: State) {
    && |s.pc| == c.n && |t.pc| == c.n && t.now == s.now && t.torn == s.torn
    && t.timedOut == s.timedOut && t.killed == s.killed
    && JobDone !in t.markers && (Failed in t.markers ==> Failed in s.markers)
    && forall k :: 0 <= k < c.n - 1 ==> t.pc[k] == if k < p then s.pc[k] else HoldMarker(0, s.now)
  }

  /** From such a front the stages can go on one after the other up to the last one's touch of job-done. */
  lemma {:induction false} StagesGoOn(c: Config, s: State, p: nat) returns (acts: seq<Action>, t: State)
    requires ValidConfig(c) && p < c.n && Front(c, s, p) && Fresh(c, s, p)
    ensures Play(c, s, acts) == Some(t) && WentOn(c, s, p, t) && t.pc[c.n - 1].TouchJobDone?
    decreases c.n - p
  {
    var a0, u := StageRestarts(c, s, p);
    var a1 := StageStarts(c, u, p);
    PlayAppend(c, s, a0, u, a1);
    var w := AtWork(u, p);
    if p == c.n - 1 {
      var a2;
      a2, t := LastStageEnds(c, w);
      PlayAppend(c, s, a0 + a1, w, a2);
      acts := a0 + a1 + a2;
    } else {
      var a2 := StageMarks(c, w, p);
      PlayAppend(c, s, a0 + a1, w, a2);
      var v := Marked(w, p, HoldMarker(0, w.now));
      assert v.pc == s.pc[p := HoldMarker(0, s.now)];
      assert Front(c, v, p + 1) && Fresh(c, v, p + 1);
      var a3;
      a3, t := StagesGoOn(c, v, p + 1);
      PlayAppend(c, s, a0 + a1 + a2, v, a3);
      acts := a0 + a1 + a2 + a3;
    }
  }

  /** Some continuation has job-done written. */
  predicate Completes(c: Config, s: State, acts: seq<Action>)
    requires ValidConfig(c)
  {
    Play(c, s, acts).Some? && JobDone in Play(c, s, acts).value.hist
  }

  /** The markers form a front: the stage order leaves no gaps. */
  lemma {:induction false} FrontExists(c: Config, s: State, p: nat) returns (q: nat)
    requires ValidConfig(c) && Order(c, s) && !s.torn && JobDone !in s.hist && p <= c.n
    requires forall k: nat :: k < p ==> Done(k) in s.hist
    ensures p <= q <= c.n && Front(c, s, q)
    decreases c.n - p
  {
    if p < c.n && Done(p) in s.hist {
      q := FrontExists(c, s, p + 1);
    } else {
      q := p;
      forall k: nat | k < c.n ensures Done(k) in s.markers <==> k < q {
        assert Done(k) in s.markers <==> Done(k) in s.hist;
      }
    }
  }

  lemma CanComplete(c: Config, s: State) returns (acts: seq<Action>)
    requires ValidConfig(c) && c.restarts && Order(c, s) && !s.torn
    requires JobDone in s.hist || !(c.finisherMarks && Done(c.n - 1) in s.hist) || s.pc[c.n - 1].TouchJobDone?
    ensures Completes(c, s, acts)
  {
    if JobDone in s.hist {
      acts := [];
    } else {
      var t := s;
      acts := [];
      if !s.pc[c.n - 1].TouchJobDone? {
        var p := FrontExists(c, s, 0);
        assert Done(c.n - 1) in s.hist ==> Marks(c, c.n - 1);
        assert p < c.n;
        acts, t := StagesGoOn(c, s, p);
      }
      PlayOne(c, s, acts, t, Step(c.n - 1, WriteJobDone));
      acts := acts + [Step(c.n - 1, WriteJobDone)];
    }
  }

  lemma {:induction false} StuckForever(c: Config, s: State, acts: seq<Action>)
    requires ValidConfig(c) && c.finisherMarks && !c.teardown && Stuck(c, s) && Play(c, s, acts).Some?
    ensures Stuck(c, Play(c, s, acts).value)
    decreases |acts|
  {
    if acts != [] {
      var n := |acts| - 1;
      StuckForever(c, s, acts[..n]);
      StuckStep(c, Play(c, s, acts[..n]).value, acts[n]);
    }
  }

  /**
    With in-place restarts a backup pod can still come to job-done from every state but one
    kind: the last stage has left its own marker, has not left job-done, and is no longer
    between the two touches.
  */
  lemma CompletionIff(c: Config, s: State)
    requires ValidConfig(c) && c.restarts && !c.teardown && Order(c, s) && !s.torn
    ensures (exists acts :: Completes(c, s, acts)) <==>
            JobDone in s.hist || !(c.finisherMarks && Done(c.n - 1) in s.hist) || s.pc[c.n - 1].TouchJobDone?
  {
    if JobDone in s.hist || !(c.finisherMarks && Done(c.n - 1) in s.hist) || s.pc[c.n - 1].TouchJobDone? {
      var acts := CanComplete(c, s);
      assert Completes(c, s, acts);
    } else {
      assert Stuck(c, s);
      forall acts ensures !Completes(c, s, acts) {
        if Play(c, s, acts).Some? {
          StuckForever(c, s, acts);
        }
      }
    }
  }

  /** The fatal restart is reached: a run that ends with it, after which nothing completes. */
  lemma FatalRestartIsReached(c: Config) returns (ss: seq<State>, acts: seq<Action>)
    requires ValidConfig(c) && c.finisherMarks && c.restarts && !c.teardown
    ensures IsRun(c, ss, acts) && |acts| > 0 && acts[|acts| - 1] == Step(c.n - 1, Restart)
    ensures |ss[|acts| - 1].pc| == c.n && ss[|acts| - 1].pc[c.n - 1].TouchJobDone?
    ensures forall more :: !Completes(c, ss[|acts|], more)
  {
    var stop := Step(c.n - 1, Restart);
    var t;
    acts, t := StagesGoOn(c, InitState(c), 0);
    PlayOne(c, InitState(c), acts, t, Step(c.n - 1, Restart));
    ss := PlayIsRun(c, acts + [Step(c.n - 1, Restart)]);
    var before := ss[..|acts| + 1];
    assert IsRun(c, before, acts) by {
      assert forall i :: 0 <= i < |acts| ==> (acts + [Step(c.n - 1, Restart)])[i] == acts[i];
    }
    PlayMatchesRun(c, before, acts);
    InvAlways(c, before, acts, |acts|);
    TornOnlyWithTeardown(c, before, acts, |acts|);
    assert StageOk(c, t, c.n - 1);
    OrderStep(c, t, stop);
    acts := acts + [stop];
    CompletionIff(c, ss[|acts|]);
  }

  lemma {:induction false} PlayMatchesRun(c: Config, ss: seq<State>, acts: seq<Action>)
    requires ValidConfig(c) && IsRun(c, ss, acts)
    ensures Play(c, InitState(c), acts) == Some(ss[|acts|])
    decreases |acts|
  {
    if acts != [] {
      var n := |acts| - 1;
      assert IsRun(c, ss[..n + 1], acts[..n]);
      PlayMatchesRun(c, ss[..n + 1], acts[..n]);
      assert Enabled(c, ss[n], acts[n]);
    }
  }

  lemma {:induction false} TornOnlyWithTeardown(c: Config, ss: seq<State>, acts: seq<Action>, i: nat)
    requires ValidConfig(c) && !c.teardown && IsRun(c, ss, acts) && i < |ss|
    ensures !ss[i].torn
  {
    if i > 0 {
      TornOnlyWithTeardown(c, ss, acts, i - 1);
      InvAlways(c, ss, acts, i - 1);
      assert ss[i] == Apply(c, ss[i - 1], acts[i - 1]);
      if acts[i - 1].Step? {
        assert StageOk(c, ss[i - 1], acts[i - 1].p);
      }
    }
  }
}
