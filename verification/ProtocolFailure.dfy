/**
  Failure signalling in pods whose containers are not restarted: `.step-failed` and
  `.step-job-done` exclude each other, nobody's failure is erased, and a failure is final.
*/
module ProtocolFailure {
  import opened Wrappers
  import opened Protocol
  import opened ProtocolOrder

  /** The first failed stage is dead, its marker is missing and so is job-done. */
  predicate FailerOk(c: Config, s: State, k: nat)
    requires ValidConfig(c)
  {
    && k < |s.pc|
    && (s.pc[k].Exiting? || s.pc[k] == Exited(false))
    && JobDone !in s.hist
    && (k < c.n - 1 ==> Done(k) !in s.hist)
    && (k > 0 ==> Done(k - 1) in s.hist)
  }

  /** Until a timeout, `.step-failed` and exiting scripts trace back to one failed stage. */
  ghost predicate Blame(c: Config, s: State)
    requires ValidConfig(c)
  {
    && (Failed in s.markers ==> s.failer.Some?)
    && (forall p: nat :: p < |s.pc| && s.pc[p].Exiting? ==> s.failer.Some?)
    && (forall p: nat :: p < |s.pc| && s.pc[p] == Exited(false) && OwnMarker(c, p) in s.hist && !s.killed ==>
          s.failer.Some?)
    && (s.failer.Some? ==> FailerOk(c, s, s.failer.value))
  }

  /** The claim covers runs without restarts, up to the first timeout or the teardown. */
  predicate Undisturbed(c: Config, s: State) {
    !c.restarts && !s.timedOut && !s.torn
  }

  lemma FailerStep(c: Config, s: State, a: Action)
    requires ValidConfig(c) && Order(c, s) && Blame(c, s) && Enabled(c, s, a)
    requires Undisturbed(c, s)
    ensures var t := Apply(c, s, a); t.failer.Some? ==> FailerOk(c, t, t.failer.value)
  {
    if a.Step? {
      assert StageOk(c, s, a.p) && StageNever(c, s, a.p);
    }
  }

  lemma BlameStep(c: Config, s: State, a: Action)
    requires ValidConfig(c) && Order(c, s) && Blame(c, s) && Enabled(c, s, a)
    requires Undisturbed(c, s) && Undisturbed(c, Apply(c, s, a))
    ensures Blame(c, Apply(c, s, a))
  {
    FailerStep(c, s, a);
    if a.Step? {
      assert StageOk(c, s, a.p) && StageNever(c, s, a.p);
    }
  }

  lemma {:induction false} BlameAlways(c: Config, ss: seq<State>, acts: seq<Action>, i: nat)
    requires ValidConfig(c) && IsRun(c, ss, acts) && i < |ss|
    requires Undisturbed(c, ss[i])
    ensures Order(c, ss[i]) && Blame(c, ss[i])
  {
    InvAlways(c, ss, acts, i);
    if i > 0 {
      assert ss[i] == Apply(c, ss[i - 1], acts[i - 1]);
      BlameAlways(c, ss, acts, i - 1);
      BlameStep(c, ss[i - 1], acts[i - 1]);
    }
  }

  /** `.step-failed` and `.step-job-done` never coexist, and after a failure nobody has exited 0. */
  lemma FailedExcludesJobDone(c: Config, ss: seq<State>, acts: seq<Action>, i: nat)
    requires ValidConfig(c) && IsRun(c, ss, acts) && i < |ss|
    requires Undisturbed(c, ss[i])
    ensures !(Failed in ss[i].markers && JobDone in ss[i].markers)
    ensures Failed in ss[i].markers ==> Exited(true) !in ss[i].pc
  {
    BlameAlways(c, ss, acts, i);
    var s := ss[i];
    if Failed in s.markers {
      forall p: nat | p < c.n ensures s.pc[p] != Exited(true) {
        assert StageOk(c, s, p);
      }
    }
  }

  /**
    Neither the retrying stage's `clear_step_failed` nor cleanup's marker wipe ever finds a
    `.step-failed` to erase.
  */
  lemma ClearErasesNoFailure(c: Config, ss: seq<State>, acts: seq<Action>, i: nat)
    requires ValidConfig(c) && IsRun(c, ss, acts) && i < |ss|
    requires Undisturbed(c, ss[i])
    ensures |ss[i].pc| == c.n
    ensures ss[i].pc[1].ClearCheck? || ss[i].pc[1].ClearRm? || ss[i].pc[0].Working? ==> Failed !in ss[i].markers
  {
    BlameAlways(c, ss, acts, i);
    var s := ss[i];
    assert StageOk(c, s, 0) && StageOk(c, s, 1);
    assert s.failer.Some? ==> StageNever(c, s, s.failer.value);
    assert Marks(c, 0) && Marks(c, 1);
    assert s.failer.Some? && s.failer.value > 1 ==> Done(s.failer.value - 1) in s.hist;
  }

  lemma {:induction false} FailerStays(c: Config, ss: seq<State>, acts: seq<Action>, i: nat, j: nat)
    requires ValidConfig(c) && IsRun(c, ss, acts) && i <= j < |ss|
    ensures ss[i].failer.Some? ==> ss[j].failer == ss[i].failer
  {
    if i < j {
      FailerStays(c, ss, acts, i, j - 1);
      assert ss[j] == Apply(c, ss[j - 1], acts[j - 1]);
    }
  }

  /** A failure is final: from then on job-done is never written and no container ever exits 0. */
  lemma FailureIsFinal(c: Config, ss: seq<State>, acts: seq<Action>, i: nat, j: nat)
    requires ValidConfig(c) && IsRun(c, ss, acts) && i <= j < |ss|
    requires Failed in ss[i].markers
    requires Undisturbed(c, ss[j])
    ensures JobDone !in ss[j].hist && Exited(true) !in ss[j].pc
  {
    TornMonotone(c, ss, acts, i, j);
    BlameAlways(c, ss, acts, i);
    BlameAlways(c, ss, acts, j);
    FailerStays(c, ss, acts, i, j);
    var s := ss[j];
    forall p: nat | p < c.n ensures s.pc[p] != Exited(true) {
      assert StageOk(c, s, p);
    }
  }

  lemma NothingIsTorn(c: Config, s: State)
    requires ValidConfig(c) && Order(c, s) && !s.torn
    ensures !s.pc[c.n - 1].Tearing?
    ensures forall p: nat :: p < c.n && s.pc[p].ClearRm? ==> p == 1
  {
    assert StageOk(c, s, c.n - 1);
    forall p: nat | p < c.n && s.pc[p].ClearRm? ensures p == 1 {
      assert StageOk(c, s, p);
    }
  }

  /** One step keeps `.step-failed`, where clearing and wiping do not find it and the last stage is not tearing down. */
  lemma FailedKept(c: Config, s: State, a: Action)
    requires ValidConfig(c) && Enabled(c, s, a) && Failed in s.markers && !s.pc[c.n - 1].Tearing?
    requires !s.pc[0].Working?
    requires forall p: nat :: p < c.n && s.pc[p].ClearRm? ==> p == 1 && !s.pc[1].ClearRm?
    ensures Failed in Apply(c, s, a).markers
  {
  }

  /** `.step-failed` stays once it is written. */
  lemma {:induction false} FailureStays(c: Config, ss: seq<State>, acts: seq<Action>, i: nat, j: nat)
    requires ValidConfig(c) && IsRun(c, ss, acts) && i <= j < |ss|
    requires Failed in ss[i].markers
    requires Undisturbed(c, ss[j])
    ensures Failed in ss[j].markers
  {
    if i < j {
      TornMonotone(c, ss, acts, j - 1, j);
      FailureStays(c, ss, acts, i, j - 1);
      ClearErasesNoFailure(c, ss, acts, j - 1);
      InvAlways(c, ss, acts, j - 1);
      NothingIsTorn(c, ss[j - 1]);
      FailedKept(c, ss[j - 1], acts[j - 1]);
    }
  }

  /**
    Hence after a failure nobody works any more, and every waiting or holding container that
    looks for `.step-failed` finds it and leaves with a non-zero status.
  */
  lemma FailureStopsPeers(c: Config, ss: seq<State>, acts: seq<Action>, i: nat, j: nat, p: nat)
    requires ValidConfig(c) && IsRun(c, ss, acts) && i <= j < |ss|
    requires Failed in ss[i].markers
    requires Undisturbed(c, ss[j]) && |ss[j].pc| == c.n && p < c.n
    ensures !ss[j].pc[p].Working?
    ensures j < |acts| && (acts[j] == Step(p, PollWaitFailed) || acts[j] == Step(p, HoldPollFailed)) ==>
              ss[j + 1].pc[p] == Exiting
  {
    FailureStays(c, ss, acts, i, j);
    BlameAlways(c, ss, acts, j);
    var s := ss[j];
    if s.pc[p].Working? {
      WorkerState(c, s, p);
    }
    if j < |acts| {
      assert Enabled(c, ss[j], acts[j]) && ss[j + 1] == Apply(c, ss[j], acts[j]);
    }
  }

  /** A run that ever saw `.step-failed` and in which every container has exited ended with a failure of each. */
  lemma FailedRunEndsInFailure(c: Config, ss: seq<State>, acts: seq<Action>, i: nat)
    requires ValidConfig(c) && IsRun(c, ss, acts) && i < |ss|
    requires Failed in ss[i].markers
    requires Undisturbed(c, ss[|acts|]) && forall pc :: pc in ss[|acts|].pc ==> pc.Exited?
    ensures |ss[|acts|].pc| == c.n && forall p :: 0 <= p < c.n ==> ss[|acts|].pc[p] == Exited(false)
  {
    FailureIsFinal(c, ss, acts, i, |acts|);
    BlameAlways(c, ss, acts, |acts|);
    forall p | 0 <= p < c.n ensures ss[|acts|].pc[p] == Exited(false) {
      assert ss[|acts|].pc[p] in ss[|acts|].pc;
    }
  }
}
