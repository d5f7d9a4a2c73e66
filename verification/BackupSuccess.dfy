/** What a backup pod can archive: successful runs built act by act, and exactly which outcomes they have. */
module BackupSuccess {
  import opened Wrappers
  import opened Sed
  import opened Artifacts
  import opened Protocol
  import opened ProtocolProgress
  import opened BackupRun

  /** The pod after a sequence of acts, if each of them is possible in its turn. */
  function PlayPod(b: Setup, s: Pod, acts: seq<Act>): Option<Pod>
    decreases |acts|
  {
    if acts == [] then Some(s)
    else
      var n := |acts| - 1;
      var u := PlayPod(b, s, acts[..n]);
      if u.Some? && CanAct(b, u.value, acts[n]) then Some(Perform(b, u.value, acts[n])) else None
  }

  lemma PodOne(b: Setup, s: Pod, acts: seq<Act>, t: Pod, act: Act)
    requires PlayPod(b, s, acts) == Some(t) && CanAct(b, t, act)
    ensures PlayPod(b, s, acts + [act]) == Some(Perform(b, t, act))
  {
    assert (acts + [act])[..|acts|] == acts;
  }

  lemma {:induction false} PodAppend(b: Setup, s: Pod, xs: seq<Act>, u: Pod, ys: seq<Act>)
    requires PlayPod(b, s, xs) == Some(u)
    ensures PlayPod(b, s, xs + ys) == PlayPod(b, u, ys)
    decreases |ys|
  {
    if ys == [] {
      assert xs + ys == xs;
    } else {
      var n := |ys| - 1;
      PodAppend(b, s, xs, u, ys[..n]);
      assert (xs + ys)[..|xs + ys| - 1] == xs + ys[..n];
    }
  }

  lemma {:induction false} PodPlayIsRun(b: Setup, acts: seq<Act>) returns (ss: seq<Pod>)
    requires PlayPod(b, InitPod(b), acts).Some?
    ensures IsPodRun(b, ss, acts) && ss[|acts|] == PlayPod(b, InitPod(b), acts).value
    decreases |acts|
  {
    if acts == [] {
      ss := [InitPod(b)];
    } else {
      var n := |acts| - 1;
      var before := PodPlayIsRun(b, acts[..n]);
      ss := RunOneMore(b, before, acts, PlayPod(b, InitPod(b), acts).value);
    }
  }

  lemma RunOneMore(b: Setup, before: seq<Pod>, acts: seq<Act>, t: Pod) returns (ss: seq<Pod>)
    requires acts != [] && IsPodRun(b, before, acts[..|acts| - 1])
    requires var n := |acts| - 1; CanAct(b, before[n], acts[n]) && t == Perform(b, before[n], acts[n])
    ensures IsPodRun(b, ss, acts) && ss[|acts|] == t
  {
    var n := |acts| - 1;
    ss := before + [t];
    forall i | 0 <= i < |acts| ensures CanAct(b, ss[i], acts[i]) && ss[i + 1] == Perform(b, ss[i], acts[i]) {
      if i < n {
        assert acts[..n][i] == acts[i];
      }
    }
  }

  /** Protocol steps that end nobody's work are pod steps and leave the data alone. */
  lemma {:induction false} Lift(b: Setup, s: Pod, pacts: seq<Action>, t: State) returns (acts: seq<Act>)
    requires Play(BackupRun.Config(b), s.p, pacts) == Some(t) && NoWorkEnds(pacts)
    ensures PlayPod(b, s, acts) == Some(Pod(t, s.d))
    decreases |pacts|
  {
    if pacts == [] {
      acts := [];
    } else {
      var n := |pacts| - 1;
      var u := Play(BackupRun.Config(b), s.p, pacts[..n]).value;
      acts := Lift(b, s, pacts[..n], u);
      PodOne(b, s, acts, Pod(u, s.d), Proto(pacts[n]));
      acts := acts + [Proto(pacts[n])];
    }
  }

  // ------------------------------------------------------------------ the stages' work

  /** While stage `p` works, the data can go from `d` to `e`. */
  ghost predicate Does(b: Setup, st: State, p: nat, d: Data, acts: seq<Act>, e: Data) {
    p < |st.pc| && st.pc[p].Working? && PlayPod(b, Pod(st, d), acts) == Some(Pod(st, e))
  }

  lemma DoesNothing(b: Setup, st: State, p: nat, d: Data) returns (acts: seq<Act>)
    requires p < |st.pc| && st.pc[p].Working?
    ensures Does(b, st, p, d, acts, d)
  {
    acts := [];
  }

  lemma DoesOne(b: Setup, st: State, p: nat, d: Data, acts: seq<Act>, e: Data, act: Act, f: Data)
    returns (more: seq<Act>)
    requires Does(b, st, p, d, acts, e) && !act.Proto? && StageOf(act) == p
    requires CanAct(b, Pod(st, e), act) && ActOn(b, Pod(st, e), act) == f
    ensures Does(b, st, p, d, more, f)
  {
    PodOne(b, Pod(st, d), acts, Pod(st, e), act);
    more := acts + [act];
  }

  /** Cleanup can remove any of the expired dumps. */
  lemma {:induction false} CleanupDoes(b: Setup, st: State, d: Data, gone: set<string>) returns (acts: seq<Act>)
    requires CLEANUP < |st.pc| && st.pc[CLEANUP].Working? && gone <= b.expired
    ensures Does(b, st, CLEANUP, d, acts, d.(retained := d.retained - gone, kept := d.kept - gone))
    decreases gone
  {
    if gone == {} {
      acts := [];
      assert d.retained - gone == d.retained && d.kept - gone == d.kept;
    } else {
      var name :| name in gone;
      var rest := gone - {name};
      acts := CleanupDoes(b, st, d, rest);
      var e := d.(retained := d.retained - rest, kept := d.kept - rest);
      assert e.retained - {name} == d.retained - gone && e.kept - {name} == d.kept - gone;
      var f := d.(retained := d.retained - gone, kept := d.kept - gone);
      acts := DoesOne(b, st, CLEANUP, d, acts, e, PruneRetained(name), f);
    }
  }

  function Dumped(b: Setup, d: Data, name: string, lines: seq<Line>): Data {
    d.(scratch := map[Plain(name) := Raw(Cleaned(b, lines))], dump := DumpDone, dumped := Some((name, lines)))
  }

  lemma DumpDoes(b: Setup, st: State, d: Data, name: string, lines: seq<Line>) returns (acts: seq<Act>)
    requires DUMP < |st.pc| && st.pc[DUMP].Working? && d.dump.DumpIdle? && d.scratch == map[]
    ensures Does(b, st, DUMP, d, acts, Dumped(b, d, name, lines))
  {
    var mid;
    acts, mid := PgDumpDoes(b, st, d, name, lines);
    var d4 := Dumped(b, d, name, lines).(dump := DumpStats);
    assert mid.scratch[Plain(name) := Raw(Cleaned(b, lines))] == d4.scratch;
    acts := DoesOne(b, st, DUMP, d, acts, mid, StripDump, d4);
    acts := DoesOne(b, st, DUMP, d, acts, d4, Stats, Dumped(b, d, name, lines));
  }

  /** pg_dump itself, up to the removal of its error log. */
  lemma PgDumpDoes(b: Setup, st: State, d: Data, name: string, lines: seq<Line>) returns (acts: seq<Act>, e: Data)
    requires DUMP < |st.pc| && st.pc[DUMP].Working? && d.dump.DumpIdle? && d.scratch == map[]
    ensures Does(b, st, DUMP, d, acts, e)
    ensures e == d.(scratch := map[Plain(name) := Raw(lines)], dump := DumpSed(name), dumped := Some((name, lines)))
  {
    var begun := d.scratch[DumpRunning := Junk(0)][ErrLog := Junk(0)];
    var d1 := d.(scratch := begun[Plain(name) := Junk(0)], dump := Dumping(name));
    var d2 := d1.(scratch := d1.scratch[Plain(name) := Raw(lines)], dump := DumpTidy(name),
                  dumped := Some((name, lines)));
    e := d2.(scratch := map[Plain(name) := Raw(lines)], dump := DumpSed(name));
    acts := DoesNothing(b, st, DUMP, d);
    acts := DoesOne(b, st, DUMP, d, acts, d, StartDump(name, 0), d1);
    acts := DoesOne(b, st, DUMP, d, acts, d1, EndDump(lines), d2);
    assert d2.scratch - {DumpRunning, ErrLog} == e.scratch;
    acts := DoesOne(b, st, DUMP, d, acts, d2, TidyDump, e);
  }

  lemma CompressDoes(b: Setup, st: State, d: Data, name: string, plain: Content) returns (acts: seq<Act>, e: Data)
    requires COMPRESS < |st.pc| && st.pc[COMPRESS].Working? && d.gzip.GzipIdle?
    requires d.scratch == map[Plain(name) := plain]
    ensures Does(b, st, COMPRESS, d, acts, e)
    ensures e == d.(scratch := map[Gz(name) := Gzip(plain)], gzip := GzipDone)
  {
    assert PlainNames(d.scratch) == {name} by {
      assert Plain(name) in d.scratch;
    }
    var d1 := d.(gzip := GzipLoop({name}));
    var d2 := d.(scratch := d.scratch[Gz(name) := Junk(0)], gzip := Gzipping(name, {}));
    e := d.(scratch := map[Gz(name) := Gzip(plain)], gzip := GzipDone);
    acts := DoesNothing(b, st, COMPRESS, d);
    acts := DoesOne(b, st, COMPRESS, d, acts, d, GlobPlain, d1);
    assert {name} - {name} == {};
    acts := DoesOne(b, st, COMPRESS, d, acts, d1, StartGzip(name, 0), d2);
    assert d2.scratch[Gz(name) := Gzip(plain)] - {Plain(name)} == e.scratch;
    acts := DoesOne(b, st, COMPRESS, d, acts, d2, EndGzip, e);
  }

  function Encrypted(d: Data, name: string, enc: Content): Data {
    d.(scratch := map[Gpg(name) := enc], retained := d.retained[name := enc], gpg := GpgDone)
  }

  lemma EncryptDoes(b: Setup, st: State, d: Data, name: string, gz: Content) returns (acts: seq<Act>)
    requires ENCRYPT < |st.pc| && st.pc[ENCRYPT].Working? && d.gpg.GpgIdle? && d.scratch == map[Gz(name) := gz]
    ensures Does(b, st, ENCRYPT, d, acts, Encrypted(d, name, Enc(b.key, gz)))
  {
    var e;
    acts, e := GpgDoes(b, st, d, name, gz);
    var f := e.(scratch := map[Gpg(name) := Enc(b.key, gz)], gpg := Copying(name, {}));
    assert e.scratch - {Gz(name)} == f.scratch;
    acts := DoesOne(b, st, ENCRYPT, d, acts, e, RmGz, f);
    acts := CopyDoes(b, st, d, acts, f, name, Enc(b.key, gz));
  }

  /** The copy to `retained/`. */
  lemma CopyDoes(b: Setup, st: State, d: Data, before: seq<Act>, e: Data, name: string, enc: Content)
    returns (acts: seq<Act>)
    requires Does(b, st, ENCRYPT, d, before, e) && e.gpg == Copying(name, {}) && e.scratch == map[Gpg(name) := enc]
    ensures Does(b, st, ENCRYPT, d, acts, Encrypted(e, name, enc))
  {
    var f := e.(retained := e.retained[name := Junk(0)], gpg := CopyRunning(name, {}));
    acts := DoesOne(b, st, ENCRYPT, d, before, e, StartCopy(0), f);
    assert f.retained[name := enc] == e.retained[name := enc];
    acts := DoesOne(b, st, ENCRYPT, d, acts, f, EndCopy, Encrypted(e, name, enc));
  }

  lemma GpgDoes(b: Setup, st: State, d: Data, name: string, gz: Content) returns (acts: seq<Act>, e: Data)
    requires ENCRYPT < |st.pc| && st.pc[ENCRYPT].Working? && d.gpg.GpgIdle? && d.scratch == map[Gz(name) := gz]
    ensures e == d.(scratch := d.scratch[Gpg(name) := Enc(b.key, gz)], gpg := RemovingGz(name, {}))
    ensures Does(b, st, ENCRYPT, d, acts, e)
  {
    var d2;
    acts, d2 := GpgStarts(b, st, d, name, gz);
    e := d.(scratch := d.scratch[Gpg(name) := Enc(b.key, gz)], gpg := RemovingGz(name, {}));
    assert d2.scratch[Gpg(name) := Enc(b.key, gz)] == e.scratch;
    acts := DoesOne(b, st, ENCRYPT, d, acts, d2, EndGpg, e);
  }

  lemma GpgStarts(b: Setup, st: State, d: Data, name: string, gz: Content) returns (acts: seq<Act>, e: Data)
    requires ENCRYPT < |st.pc| && st.pc[ENCRYPT].Working? && d.gpg.GpgIdle? && d.scratch == map[Gz(name) := gz]
    ensures e == d.(scratch := d.scratch[Gpg(name) := Junk(0)], gpg := Encrypting(name, {}))
    ensures Does(b, st, ENCRYPT, d, acts, e)
  {
    assert GzNames(d.scratch) == {name} by {
      assert Gz(name) in d.scratch;
    }
    var d1 := d.(gpg := GpgLoop({name}));
    e := d.(scratch := d.scratch[Gpg(name) := Junk(0)], gpg := Encrypting(name, {}));
    acts := DoesNothing(b, st, ENCRYPT, d);
    acts := DoesOne(b, st, ENCRYPT, d, acts, d, GlobGz, d1);
    assert {name} - {name} == {};
    acts := DoesOne(b, st, ENCRYPT, d, acts, d1, StartGpg(name, 0), e);
  }

  lemma SyncDoes(b: Setup, st: State, d: Data, name: string, enc: Content) returns (acts: seq<Act>, e: Data)
    requires SYNC < |st.pc| && st.pc[SYNC].Working? && d.sync.SyncIdle? && d.uploaded == map[]
    requires d.scratch == map[Gpg(name) := enc]
    ensures Does(b, st, SYNC, d, acts, e)
    ensures e == d.(uploaded := d.scratch, sync := SyncDone)
  {
    var d1;
    acts, d1 := MirrorStarts(b, st, d, name, enc);
    var d2 := d.(uploaded := d.scratch, sync := SyncPrune);
    e := d.(uploaded := d.scratch, sync := SyncDone);
    acts := DoesOne(b, st, SYNC, d, acts, d1, Upload(Gpg(name)), d2);
    acts := DoesOne(b, st, SYNC, d, acts, d2, PruneS3, e);
  }

  lemma MirrorStarts(b: Setup, st: State, d: Data, name: string, enc: Content) returns (acts: seq<Act>, e: Data)
    requires SYNC < |st.pc| && st.pc[SYNC].Working? && d.sync.SyncIdle? && d.scratch == map[Gpg(name) := enc]
    ensures Does(b, st, SYNC, d, acts, e)
    ensures e == d.(sync := Mirroring({Gpg(name)}))
  {
    e := d.(sync := Mirroring({Gpg(name)}));
    assert d.scratch != map[] by {
      assert Gpg(name) in d.scratch;
    }
    assert d.scratch.Keys == {Gpg(name)};
    acts := DoesNothing(b, st, SYNC, d);
    acts := DoesOne(b, st, SYNC, d, acts, d, ListScratch, e);
  }

  // ------------------------------------------------------------------ the whole pod

  /** The pod when the stages before `p` are done and hold and the others are at their first line. */
  ghost predicate Ready(b: Setup, s: State, p: nat) {
    && Front(BackupRun.Config(b), s, p) && p <= |s.pc|
    && forall k: nat :: k < |s.pc| ==> if k < p then s.pc[k].HoldMarker? else s.pc[k].Init?
  }

  /** One more stage that is not the last, from its first line to its marker, doing its work. */
  lemma StagePlays(b: Setup, s: Pod, before: seq<Act>, t: Pod, p: nat, work: seq<Act>, e: Data)
    returns (acts: seq<Act>, u: Pod)
    requires PlayPod(b, s, before) == Some(t) && p < BackupRun.Config(b).n - 1 && Ready(b, t.p, p)
    requires Does(b, AtWork(t.p, p), p, t.d, work, e) && WorkDone(e, p)
    ensures PlayPod(b, s, acts) == Some(u) && u.d == e && Ready(b, u.p, p + 1)
  {
    var c := BackupRun.Config(b);
    var starts := StageStarts(c, t.p, p);
    var at := AtWork(t.p, p);
    acts := Lift(b, t, starts, at);
    PodAppend(b, s, before, t, acts);
    acts := before + acts;
    PodAppend(b, s, acts, Pod(at, t.d), work);
    acts := acts + work;
    u := Pod(Marked(at, p, HoldMarker(0, at.now)), e);
    acts := WorkEnds(b, s, acts, Pod(at, e), p, HoldMarker(0, at.now));
    assert u.p.pc == t.p.pc[p := HoldMarker(0, at.now)];
  }

  /** The end of a stage's work and its marker. */
  lemma WorkEnds(b: Setup, s: Pod, before: seq<Act>, t: Pod, p: nat, pc: PC) returns (acts: seq<Act>)
    requires var c := BackupRun.Config(b);
             && |t.p.pc| == c.n && p < c.n && t.p.pc[p].Working? && Marks(c, p)
             && pc == if p == c.n - 1 then TouchJobDone else HoldMarker(0, t.p.now)
    requires PlayPod(b, s, before) == Some(t) && WorkDone(t.d, p)
    ensures PlayPod(b, s, acts) == Some(Pod(Marked(t.p, p, pc), t.d))
  {
    var c, done := BackupRun.Config(b), Marked(t.p, p, pc);
    var marks := StageMarks(c, t.p, p);
    PlayTwo(c, t.p, Step(p, FinishWork), Step(p, WriteDone), done);
    var mid := Pod(Apply(c, t.p, Step(p, FinishWork)), t.d);
    PodOne(b, s, before, t, Proto(Step(p, FinishWork)));
    acts := before + [Proto(Step(p, FinishWork))];
    PodOne(b, s, acts, mid, Proto(Step(p, WriteDone)));
    acts := acts + [Proto(Step(p, WriteDone))];
  }

  /** The last stage, with its own marker if it writes one, and its touch of job-done. */
  lemma LastStagePlays(b: Setup, s: Pod, before: seq<Act>, t: Pod, work: seq<Act>, e: Data)
    returns (acts: seq<Act>, u: Pod)
    requires PlayPod(b, s, before) == Some(t)
    requires var p := BackupRun.Config(b).n - 1;
             Ready(b, t.p, p) && Does(b, AtWork(t.p, p), p, t.d, work, e) && WorkDone(e, p)
    ensures PlayPod(b, s, acts) == Some(u) && u.d == e && Leaving(b, u.p, 0)
  {
    var c := BackupRun.Config(b);
    var p := c.n - 1;
    var starts := StageStarts(c, t.p, p);
    var at := AtWork(t.p, p);
    acts := Lift(b, t, starts, at);
    PodAppend(b, s, before, t, acts);
    acts := before + acts;
    PodAppend(b, s, acts, Pod(at, t.d), work);
    acts := acts + work;
    u := Pod(at, e);
    if b.s3 {
      PodOne(b, s, acts, u, Proto(Step(p, FinishWork)));
      acts, u := acts + [Proto(Step(p, FinishWork))], Perform(b, u, Proto(Step(p, FinishWork)));
    } else {
      acts := WorkEnds(b, s, acts, u, p, TouchJobDone);
      u := Pod(Marked(at, p, TouchJobDone), e);
    }
    assert u.p.pc == t.p.pc[p := TouchJobDone];
    PodOne(b, s, acts, u, Proto(Step(p, WriteJobDone)));
    acts, u := acts + [Proto(Step(p, WriteJobDone))], Perform(b, u, Proto(Step(p, WriteJobDone)));
  }

  /** Job-done is written, the stages before `p` and the last one have exited 0, the others hold. */
  ghost predicate Leaving(b: Setup, s: State, p: nat) {
    var n := BackupRun.Config(b).n;
    && |s.pc| == n && p < n && JobDone in s.markers && s.pc[n - 1] == Exited(true)
    && forall k: nat :: k < n - 1 ==> if k < p then s.pc[k] == Exited(true) else s.pc[k].HoldMarker?
  }

  /** All containers exit 0. */
  ghost predicate AllExitZero(b: Setup, s: State) {
    |s.pc| == BackupRun.Config(b).n && forall k: nat :: k < |s.pc| ==> s.pc[k] == Exited(true)
  }

  /** One holding container after the other sees job-done. */
  lemma {:induction false} AllLeave(b: Setup, s: Pod, before: seq<Act>, t: Pod, p: nat)
    returns (acts: seq<Act>, u: Pod)
    requires PlayPod(b, s, before) == Some(t) && Leaving(b, t.p, p)
    ensures PlayPod(b, s, acts) == Some(u) && u.d == t.d && AllExitZero(b, u.p)
    decreases BackupRun.Config(b).n - p
  {
    if p == BackupRun.Config(b).n - 1 {
      acts, u := before, t;
    } else {
      PodOne(b, s, before, t, Proto(Step(p, HoldPoll)));
      acts, u := AllLeave(b, s, before + [Proto(Step(p, HoldPoll))], Perform(b, t, Proto(Step(p, HoldPoll))), p + 1);
    }
  }

  /** Some run in which every container exits 0 dumps these lines under this name, removing these expired dumps. */
  lemma SuccessfulRun(b: Setup, name: string, lines: seq<Line>, gone: set<string>)
    returns (ss: seq<Pod>, acts: seq<Act>)
    requires gone <= b.expired
    ensures IsPodRun(b, ss, acts) && AllExitZero(b, ss[|acts|].p)
    ensures ss[|acts|].d.dumped == Some((name, lines)) && ss[|acts|].d.kept == b.retained0 - gone
  {
    var s := InitPod(b);
    var plain := Raw(Cleaned(b, lines));
    var d0 := s.d.(retained := b.retained0 - gone, kept := b.retained0 - gone);
    var d1 := Dumped(b, d0, name, lines);
    var work := CleanupDoes(b, AtWork(s.p, CLEANUP), s.d, gone);
    var t;
    acts, t := StagePlays(b, s, [], s, CLEANUP, work, d0);
    work := DumpDoes(b, AtWork(t.p, DUMP), d0, name, lines);
    acts, t := StagePlays(b, s, acts, t, DUMP, work, d1);
    var e;
    work, e := CompressDoes(b, AtWork(t.p, COMPRESS), d1, name, plain);
    acts, t := StagePlays(b, s, acts, t, COMPRESS, work, e);
    work := EncryptDoes(b, AtWork(t.p, ENCRYPT), e, name, Gzip(plain));
    var f := Encrypted(e, name, Enc(b.key, Gzip(plain)));
    if b.s3 {
      acts, t := StagePlays(b, s, acts, t, ENCRYPT, work, f);
      work, f := SyncDoes(b, AtWork(t.p, SYNC), f, name, Enc(b.key, Gzip(plain)));
    }
    acts, t := LastStagePlays(b, s, acts, t, work, f);
    acts, t := AllLeave(b, s, acts, t, 0);
    ss := PodPlayIsRun(b, acts);
  }

  /** A run in which every container exits 0, with this dump, that leaves `retained/` like this. */
  ghost predicate Archives(b: Setup, ss: seq<Pod>, acts: seq<Act>, name: string, lines: seq<Line>,
                           retained: map<string, Content>) {
    && IsPodRun(b, ss, acts) && AllExitZero(b, ss[|acts|].p)
    && ss[|acts|].d.dumped == Some((name, lines)) && ss[|acts|].d.retained == retained
  }

  /** What a successful run may leave in `retained/`: the new archive and old dumps, all that are not expired. */
  ghost predicate MayRemain(b: Setup, name: string, lines: seq<Line>, retained: map<string, Content>) {
    && name in retained
    && retained[name] == Enc(b.key, Gzip(Raw(Unmatched(b.setTransactionTimeout, lines))))
    && (forall n :: n in retained && n != name ==> n in b.retained0 && retained[n] == b.retained0[n])
    && (forall n :: n in b.retained0 && n !in b.expired ==> n in retained)
  }

  lemma ArchiveIsMet(b: Setup, name: string, lines: seq<Line>, retained: map<string, Content>)
    returns (ss: seq<Pod>, acts: seq<Act>)
    requires MayRemain(b, name, lines, retained)
    ensures Archives(b, ss, acts, name, lines, retained)
  {
    ss, acts := SuccessfulRun(b, name, lines, b.retained0.Keys - retained.Keys);
    assert ss[|acts|].p.pc[0] == Exited(true);
    ExitZeroMeansArchived(b, ss, acts, |acts|);
    assert ss[|acts|].d.retained == retained;
  }

  /**
    For every name and every dump some run succeeds with it, with and without S3.  What
    `retained/` then holds beside the new archive is a selection of the old dumps with all
    that are not expired; every such selection is met, and nothing else.
  */
  lemma ArchivedIff(b: Setup, name: string, lines: seq<Line>, retained: map<string, Content>)
    ensures (exists ss: seq<Pod>, acts: seq<Act> :: Archives(b, ss, acts, name, lines, retained)) <==>
            MayRemain(b, name, lines, retained)
  {
    if ss: seq<Pod>, acts: seq<Act> :| Archives(b, ss, acts, name, lines, retained) {
      assert ss[|acts|].p.pc[0] == Exited(true);
      ExitZeroMeansArchived(b, ss, acts, |acts|);
    }
    if MayRemain(b, name, lines, retained) {
      var ss, acts := ArchiveIsMet(b, name, lines, retained);
    }
  }
}
