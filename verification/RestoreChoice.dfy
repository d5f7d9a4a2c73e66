/** Which object a restore pod restores: successful runs built act by act, and exactly when the named file is safe. */
module RestoreChoice {
  import opened Wrappers
  import opened Artifacts
  import opened BackupNames
  import opened Protocol
  import opened ProtocolProgress
  import opened RestoreRun

  /** The pod after a sequence of acts, if each of them is possible in its turn. */
  ghost function PlayPod(r: Setup, s: Pod, acts: seq<Act>): Option<Pod>
    decreases |acts|
  {
    if acts == [] then Some(s)
    else
      var n := |acts| - 1;
      var u := PlayPod(r, s, acts[..n]);
      if u.Some? && CanAct(r, u.value, acts[n]) then Some(Perform(r, u.value, acts[n])) else None
  }

  lemma PodOne(r: Setup, s: Pod, acts: seq<Act>, t: Pod, act: Act)
    requires PlayPod(r, s, acts) == Some(t) && CanAct(r, t, act)
    ensures PlayPod(r, s, acts + [act]) == Some(Perform(r, t, act))
  {
    assert (acts + [act])[..|acts|] == acts;
  }

  lemma {:induction false} PodAppend(r: Setup, s: Pod, xs: seq<Act>, u: Pod, ys: seq<Act>)
    requires PlayPod(r, s, xs) == Some(u)
    ensures PlayPod(r, s, xs + ys) == PlayPod(r, u, ys)
    decreases |ys|
  {
    if ys == [] {
      assert xs + ys == xs;
    } else {
      var n := |ys| - 1;
      PodAppend(r, s, xs, u, ys[..n]);
      assert (xs + ys)[..|xs + ys| - 1] == xs + ys[..n];
    }
  }

  lemma {:induction false} PodPlayIsRun(r: Setup, acts: seq<Act>) returns (ss: seq<Pod>)
    requires PlayPod(r, InitPod(r), acts).Some?
    ensures IsPodRun(r, ss, acts) && ss[|acts|] == PlayPod(r, InitPod(r), acts).value
    decreases |acts|
  {
    if acts == [] {
      ss := [InitPod(r)];
    } else {
      var n := |acts| - 1;
      var before := PodPlayIsRun(r, acts[..n]);
      ss := before + [PlayPod(r, InitPod(r), acts).value];
      forall i | 0 <= i < |acts| ensures CanAct(r, ss[i], acts[i]) && ss[i + 1] == Perform(r, ss[i], acts[i]) {
        if i < n {
          assert acts[..n][i] == acts[i];
        }
      }
    }
  }

  /** Protocol steps that end nobody's work are pod steps and leave the data alone. */
  lemma {:induction false} Lift(r: Setup, s: Pod, pacts: seq<Action>, t: State) returns (acts: seq<Act>)
    requires Play(CONFIG, s.p, pacts) == Some(t) && NoWorkEnds(pacts)
    ensures PlayPod(r, s, acts) == Some(Pod(t, s.d))
    decreases |pacts|
  {
    if pacts == [] {
      acts := [];
    } else {
      var n := |pacts| - 1;
      var u := Play(CONFIG, s.p, pacts[..n]).value;
      acts := Lift(r, s, pacts[..n], u);
      PodOne(r, s, acts, Pod(u, s.d), Proto(pacts[n]));
      acts := acts + [Proto(pacts[n])];
    }
  }

  // ------------------------------------------------------------------ the stages' work

  /** While stage `p` works, the data can go from `d` to `e`. */
  ghost predicate Does(r: Setup, st: State, p: nat, d: Data, acts: seq<Act>, e: Data) {
    p < |st.pc| && st.pc[p].Working? && PlayPod(r, Pod(st, d), acts) == Some(Pod(st, e))
  }

  lemma DoesNothing(r: Setup, st: State, p: nat, d: Data) returns (acts: seq<Act>)
    requires p < |st.pc| && st.pc[p].Working?
    ensures Does(r, st, p, d, acts, d)
  {
    acts := [];
  }

  lemma DoesOne(r: Setup, st: State, p: nat, d: Data, acts: seq<Act>, e: Data, act: Act, f: Data)
    returns (more: seq<Act>)
    requires Does(r, st, p, d, acts, e) && !act.Proto? && StageOf(act) == p
    requires Takes(r, st, e, act, f)
    ensures Does(r, st, p, d, more, f)
  {
    PodOne(r, Pod(st, d), acts, Pod(st, e), act);
    more := acts + [act];
  }

  /** The archive can be decrypted and decompressed. */
  ghost predicate Restorable(r: Setup, name: string) {
    name in r.bucket && Decrypt(r.key, r.bucket[name]).Some? && Gunzip(Decrypt(r.key, r.bucket[name]).value).Some?
  }

  /** The engine does not refuse the target. */
  predicate Welcome(r: Setup) {
    Visible(r.target0) ==> r.dropAllowed
  }

  function Start(r: Setup): Data {
    InitPod(r).d
  }

  ghost function Fetched(r: Setup, c: Choice): Data
    requires c.src in r.bucket
  {
    Start(r).(files := map[DumpGzGpg := r.bucket[c.src]], fetch := FetchDone, chosen := Some(c))
  }

  ghost function Decrypted(r: Setup, c: Choice): Data
    requires Restorable(r, c.src)
  {
    Fetched(r, c).(files := map[DumpGz := Decrypt(r.key, r.bucket[c.src]).value], decrypt := DecryptDone)
  }

  ghost function Extracted(r: Setup, c: Choice): Data
    requires Restorable(r, c.src)
  {
    Decrypted(r, c).(files := map[DumpPlain := Plain(r, c)], extract := ExtractDone)
  }

  ghost function Plain(r: Setup, c: Choice): Content
    requires Restorable(r, c.src)
  {
    Gunzip(Decrypt(r.key, r.bucket[c.src]).value).value
  }

  lemma FetchDoes(r: Setup, st: State, c: Choice) returns (acts: seq<Act>)
    requires FETCH < |st.pc| && st.pc[FETCH].Working?
    requires Selected(r, c)
    ensures Does(r, st, FETCH, Start(r), acts, Fetched(r, c))
  {
    var d := Start(r);
    var d1 := d.(files := map[], fetch := Fetching(c.src), chosen := Some(c));
    var d2 := d1.(files := map[DumpGzGpg := Junk(0)], fetch := FetchRunning(c.src));
    acts := DoesNothing(r, st, FETCH, d);
    acts := DoesOne(r, st, FETCH, d, acts, d, Choose(c), d1);
    acts := DoesOne(r, st, FETCH, d, acts, d1, StartFetch(0), d2);
    assert d2.files[DumpGzGpg := r.bucket[c.src]] == map[DumpGzGpg := r.bucket[c.src]];
    acts := DoesOne(r, st, FETCH, d, acts, d2, EndFetch, Fetched(r, c));
  }

  lemma DecryptDoes(r: Setup, st: State, c: Choice) returns (acts: seq<Act>)
    requires DECRYPT < |st.pc| && st.pc[DECRYPT].Working?
    requires Restorable(r, c.src)
    ensures Does(r, st, DECRYPT, Fetched(r, c), acts, Decrypted(r, c))
  {
    var d, archive := Fetched(r, c), r.bucket[c.src];
    var gz := Decrypt(r.key, archive).value;
    var d1 := d.(files := d.files[DumpGz := Junk(0)], decrypt := Decrypting);
    var d2 := d1.(files := d1.files[DumpGz := gz], decrypt := RemovingGpg);
    acts := DoesNothing(r, st, DECRYPT, d);
    acts := DoesOne(r, st, DECRYPT, d, acts, d, StartDecrypt(0), d1);
    acts := DoesOne(r, st, DECRYPT, d, acts, d1, EndDecrypt, d2);
    assert d2.files - {DumpGzGpg} == map[DumpGz := gz];
    acts := DoesOne(r, st, DECRYPT, d, acts, d2, RmGpg, Decrypted(r, c));
  }

  lemma ExtractDoes(r: Setup, st: State, c: Choice) returns (acts: seq<Act>)
    requires EXTRACT < |st.pc| && st.pc[EXTRACT].Working?
    requires Restorable(r, c.src)
    ensures Does(r, st, EXTRACT, Decrypted(r, c), acts, Extracted(r, c))
  {
    var d := Decrypted(r, c);
    var d1 := d.(files := d.files[DumpPlain := Junk(0)], extract := Extracting);
    acts := DoesNothing(r, st, EXTRACT, d);
    acts := DoesOne(r, st, EXTRACT, d, acts, d, StartExtract(0), d1);
    assert d1.files[DumpPlain := Plain(r, c)] - {DumpGz} == map[DumpPlain := Plain(r, c)];
    acts := DoesOne(r, st, EXTRACT, d, acts, d1, EndExtract, Extracted(r, c));
  }

  /** PostgreSQL: make an empty database of whatever is there. */
  lemma EmptyDoes(r: Setup, st: State, d: Data, before: seq<Act>, e: Data) returns (acts: seq<Act>, f: Data)
    requires Does(r, st, ENGINE, d, before, e) && !r.redis && Welcome(r)
    requires e.target == r.target0 && e.engine == Decide(r, r.target0)
    ensures Does(r, st, ENGINE, d, acts, f) && f == e.(target := There(Nothing, Unseen(r)), engine := ToFilter)
  {
    f := e.(target := There(Nothing, Unseen(r)), engine := ToFilter);
    EmptyTakes(r, st, e);
    if e.engine.ToCreate? {
      acts := DoesOne(r, st, ENGINE, d, before, e, CreateDb, f);
    } else if e.engine.ToAlter? {
      acts := DoesOne(r, st, ENGINE, d, before, e, AlterOwner, f);
    } else {
      var gone := e.(target := Absent, engine := ToRecreate);
      acts := DoesOne(r, st, ENGINE, d, before, e, DropDb, gone);
      acts := DoesOne(r, st, ENGINE, d, acts, gone, RecreateDb, f);
    }
  }

  lemma EmptyTakes(r: Setup, st: State, e: Data)
    requires ENGINE < |st.pc| && st.pc[ENGINE].Working? && !r.redis && Welcome(r)
    requires e.target == r.target0 && e.engine == Decide(r, r.target0)
    ensures var f, gone := e.(target := There(Nothing, Unseen(r)), engine := ToFilter),
                           e.(target := Absent, engine := ToRecreate);
            if e.engine.ToCreate? then Takes(r, st, e, CreateDb, f)
            else if e.engine.ToAlter? then Takes(r, st, e, AlterOwner, f)
            else Takes(r, st, e, DropDb, gone) && Takes(r, st, gone, RecreateDb, f)
  {
  }

  lemma PrepareDoes(r: Setup, st: State, d: Data, plain: Content) returns (acts: seq<Act>, e: Data)
    requires ENGINE < |st.pc| && st.pc[ENGINE].Working?
    requires d.engine.EngineIdle? && d.target == r.target0 && d.files == map[DumpPlain := plain]
    requires Welcome(r) && !r.redis
    ensures Does(r, st, ENGINE, d, acts, e)
    ensures e == d.(files := map[DumpFiltered := EngineInput(r, plain)], target := There(Nothing, Unseen(r)),
                    engine := ToApply)
  {
    var looked := d.(engine := Decide(r, r.target0));
    acts := DoesNothing(r, st, ENGINE, d);
    acts := DoesOne(r, st, ENGINE, d, acts, d, Inspect, looked);
    var ready;
    acts, ready := EmptyDoes(r, st, d, acts, looked);
    e := ready.(files := map[DumpFiltered := EngineInput(r, plain)], engine := ToApply);
    FilterTakes(r, st, ready, plain);
    acts := DoesOne(r, st, ENGINE, d, acts, ready, FilterFiles, e);
  }

  lemma FilterTakes(r: Setup, st: State, d: Data, plain: Content)
    requires ENGINE < |st.pc| && st.pc[ENGINE].Working? && d.engine.ToFilter? && d.files == map[DumpPlain := plain]
    ensures Takes(r, st, d, FilterFiles, d.(files := map[DumpFiltered := EngineInput(r, plain)], engine := ToApply))
  {
    assert d.files[DumpFiltered := EngineInput(r, plain)] - {DumpPlain} == map[DumpFiltered := EngineInput(r, plain)];
  }

  /** Redis: load the dump into the ephemeral server. */
  lemma LoadDoes(r: Setup, st: State, d: Data, plain: Content) returns (acts: seq<Act>, e: Data)
    requires ENGINE < |st.pc| && st.pc[ENGINE].Working?
    requires d.engine.EngineIdle? && d.target == r.target0 && d.files == map[DumpPlain := plain]
    requires Welcome(r) && r.redis
    ensures Does(r, st, ENGINE, d, acts, e)
    ensures e == d.(files := map[DumpPlain := plain, RedisData := plain], engine := ToApply)
  {
    var d1 := d.(engine := ToLoad);
    acts := DoesNothing(r, st, ENGINE, d);
    acts := DoesOne(r, st, ENGINE, d, acts, d, Inspect, d1);
    e := d1.(files := map[DumpPlain := plain, RedisData := plain], engine := ToApply);
    acts := DoesOne(r, st, ENGINE, d, acts, d1, LoadRedis, e);
  }

  /** The act is possible and takes the data from `d` to `e`. */
  ghost predicate Takes(r: Setup, st: State, d: Data, act: Act, e: Data) {
    CanAct(r, Pod(st, d), act) && ActOn(r, Pod(st, d), act) == e
  }

  /** The data while `input` is being applied, `how` far it has come, and what is left to do. */
  function Applied(r: Setup, d: Data, shown: Shown, engine: EngineWork): Data {
    d.(target := There(shown, Unseen(r)), engine := engine)
  }

  lemma ApplyTakes(r: Setup, st: State, d: Data, input: Content)
    requires ENGINE < |st.pc| && st.pc[ENGINE].Working? && d.engine.ToApply? && Unreplaced(r, d.target) == Unseen(r)
    requires var file := if r.redis then RedisData else DumpFiltered; file in d.files && d.files[file] == input
    ensures Takes(r, st, d, StartApply(0), Applied(r, d, Partial(0), Applying))
    ensures Takes(r, st, Applied(r, d, Partial(0), Applying), EndApply, Applied(r, d, Loaded(input), ToRemove))
  {
  }

  lemma RemoveTakes(r: Setup, st: State, d: Data)
    requires ENGINE < |st.pc| && st.pc[ENGINE].Working? && d.engine.ToRemove?
    ensures Takes(r, st, d, RmDumps, d.(files := map[], engine := EngineDone))
  {
  }

  lemma ApplyDoes(r: Setup, st: State, d: Data, before: seq<Act>, e: Data, input: Content)
    returns (acts: seq<Act>, f: Data)
    requires Does(r, st, ENGINE, d, before, e) && e.engine.ToApply? && Unreplaced(r, e.target) == Unseen(r)
    requires var file := if r.redis then RedisData else DumpFiltered; file in e.files && e.files[file] == input
    ensures Does(r, st, ENGINE, d, acts, f)
    ensures f == e.(files := map[], target := There(Loaded(input), Unseen(r)), engine := EngineDone)
  {
    var loaded := Applied(r, e, Loaded(input), ToRemove);
    ApplyTakes(r, st, e, input);
    acts := DoesOne(r, st, ENGINE, d, before, e, StartApply(0), Applied(r, e, Partial(0), Applying));
    acts := DoesOne(r, st, ENGINE, d, acts, Applied(r, e, Partial(0), Applying), EndApply, loaded);
    f := loaded.(files := map[], engine := EngineDone);
    RemoveTakes(r, st, loaded);
    acts := DoesOne(r, st, ENGINE, d, acts, loaded, RmDumps, f);
  }

  lemma EngineDoes(r: Setup, st: State, c: Choice) returns (acts: seq<Act>, f: Data)
    requires ENGINE < |st.pc| && st.pc[ENGINE].Working?
    requires Restorable(r, c.src) && Welcome(r)
    ensures Does(r, st, ENGINE, Extracted(r, c), acts, f)
    ensures f.engine.EngineDone? && f.chosen == Some(c)
  {
    var d := Extracted(r, c);
    var e;
    if r.redis {
      acts, e := LoadDoes(r, st, d, Plain(r, c));
      acts, f := ApplyDoes(r, st, d, acts, e, Plain(r, c));
    } else {
      acts, e := PrepareDoes(r, st, d, Plain(r, c));
      acts, f := ApplyDoes(r, st, d, acts, e, EngineInput(r, Plain(r, c)));
    }
  }

  // ------------------------------------------------------------------ the whole pod

  /** The pod when exactly the stages before `p` are done and the others are at their first line. */
  ghost predicate Ready(s: State, p: nat) {
    Front(CONFIG, s, p) && forall k: nat :: p <= k < |s.pc| ==> s.pc[k].Init?
  }

  /** The stages before `p` hold. */
  ghost predicate Holding(s: State, p: nat) {
    p <= |s.pc| && forall k: nat :: k < p ==> s.pc[k].HoldMarker?
  }

  /** Its marker moves the front on. */
  lemma MarkedIsReady(s: State, p: nat)
    requires p < 4 && Ready(s, p) && Holding(s, p)
    ensures var t := Marked(AtWork(s, p), p, HoldMarker(0, s.now)); Ready(t, p + 1) && Holding(t, p + 1)
  {
    var t := Marked(AtWork(s, p), p, HoldMarker(0, s.now));
    assert t.pc == s.pc[p := HoldMarker(0, s.now)];
  }

  /** The end of the work and the marker, seen from the pod. */
  lemma PodMarks(r: Setup, s: Pod, p: nat) returns (acts: seq<Act>)
    requires p < 4 && |s.p.pc| == 5 && s.p.pc[p].Working? && WorkDone(s.d, p)
    ensures PlayPod(r, s, acts) == Some(Pod(Marked(s.p, p, HoldMarker(0, s.p.now)), s.d))
  {
    var done := Marked(s.p, p, HoldMarker(0, s.p.now));
    var marks := StageMarks(CONFIG, s.p, p);
    PlayTwo(CONFIG, s.p, Step(p, FinishWork), Step(p, WriteDone), done);
    var mid := Pod(Apply(CONFIG, s.p, Step(p, FinishWork)), s.d);
    PodOne(r, s, [], s, Proto(Step(p, FinishWork)));
    acts := [] + [Proto(Step(p, FinishWork))];
    PodOne(r, s, acts, mid, Proto(Step(p, WriteDone)));
    acts := acts + [Proto(Step(p, WriteDone))];
  }

  /** A stage that is not the last, from its first line to its marker, doing its work. */
  lemma StagePlays(r: Setup, s: Pod, p: nat, work: seq<Act>, e: Data) returns (acts: seq<Act>, t: Pod)
    requires p < 4 && Ready(s.p, p) && Holding(s.p, p) && Does(r, AtWork(s.p, p), p, s.d, work, e) && WorkDone(e, p)
    ensures PlayPod(r, s, acts) == Some(t) && t.d == e && Ready(t.p, p + 1) && Holding(t.p, p + 1)
  {
    var starts := StageStarts(CONFIG, s.p, p);
    var at := AtWork(s.p, p);
    acts := Lift(r, s, starts, at);
    PodAppend(r, s, acts, Pod(at, s.d), work);
    acts := acts + work;
    var marks := PodMarks(r, Pod(at, e), p);
    PodAppend(r, s, acts, Pod(at, e), marks);
    acts := acts + marks;
    MarkedIsReady(s.p, p);
    t := Pod(Marked(at, p, HoldMarker(0, at.now)), e);
  }

  /** The last stage, its touch of job-done, and the first container seeing it. */
  lemma LastStagePlays(r: Setup, s: Pod, work: seq<Act>, e: Data) returns (acts: seq<Act>, t: Pod)
    requires Ready(s.p, 4) && Holding(s.p, 4) && Does(r, AtWork(s.p, 4), 4, s.d, work, e) && WorkDone(e, 4)
    ensures PlayPod(r, s, acts) == Some(t) && t.d == e && |t.p.pc| == 5 && t.p.pc[0] == Exited(true)
  {
    var starts := StageStarts(CONFIG, s.p, 4);
    var at := AtWork(s.p, 4);
    acts := Lift(r, s, starts, at);
    PodAppend(r, s, acts, Pod(at, s.d), work);
    acts := acts + work;
    t := Pod(at, e);
    PodOne(r, s, acts, t, Proto(Step(4, FinishWork)));
    acts, t := acts + [Proto(Step(4, FinishWork))], Perform(r, t, Proto(Step(4, FinishWork)));
    PodOne(r, s, acts, t, Proto(Step(4, WriteJobDone)));
    acts, t := acts + [Proto(Step(4, WriteJobDone))], Perform(r, t, Proto(Step(4, WriteJobDone)));
    PodOne(r, s, acts, t, Proto(Step(0, HoldPoll)));
    acts, t := acts + [Proto(Step(0, HoldPoll))], Perform(r, t, Proto(Step(0, HoldPoll)));
  }

  ghost predicate Succeeds(r: Setup, ss: seq<Pod>, acts: seq<Act>) {
    IsPodRun(r, ss, acts) && Exited(true) in ss[|acts|].p.pc
  }

  /** Whatever fetch.sh may settle on, if it can be restored at all there is a run that restores it. */
  lemma SuccessfulRun(r: Setup, c: Choice) returns (ss: seq<Pod>, acts: seq<Act>)
    requires Selected(r, c) && Restorable(r, c.src) && Welcome(r)
    ensures Succeeds(r, ss, acts) && ss[|acts|].d.chosen == Some(c)
  {
    var s := InitPod(r);
    var t;
    acts, t := StagePlays(r, s, CLEANUP, [], s.d);
    var work := FetchDoes(r, AtWork(t.p, FETCH), c);
    acts, t := OneStageMore(r, s, acts, t, FETCH, work, Fetched(r, c));
    work := DecryptDoes(r, AtWork(t.p, DECRYPT), c);
    acts, t := OneStageMore(r, s, acts, t, DECRYPT, work, Decrypted(r, c));
    work := ExtractDoes(r, AtWork(t.p, EXTRACT), c);
    acts, t := OneStageMore(r, s, acts, t, EXTRACT, work, Extracted(r, c));
    var f;
    work, f := EngineDoes(r, AtWork(t.p, ENGINE), c);
    var last;
    last, t := LastStagePlays(r, t, work, f);
    PodAppend(r, s, acts, PlayPod(r, s, acts).value, last);
    acts := acts + last;
    ss := PodPlayIsRun(r, acts);
    assert ss[|acts|].p.pc[0] == Exited(true);
  }

  lemma OneStageMore(r: Setup, s: Pod, acts: seq<Act>, t: Pod, p: nat, work: seq<Act>, e: Data)
    returns (more: seq<Act>, u: Pod)
    requires PlayPod(r, s, acts) == Some(t)
    requires p < 4 && Ready(t.p, p) && Holding(t.p, p) && Does(r, AtWork(t.p, p), p, t.d, work, e) && WorkDone(e, p)
    ensures PlayPod(r, s, more) == Some(u) && u.d == e && Ready(u.p, p + 1) && Holding(u.p, p + 1)
  {
    more, u := StagePlays(r, t, p, work, e);
    PodAppend(r, s, acts, t, more);
    more := acts + more;
  }

  /** A file is what some successful run restores exactly if fetch.sh may settle on it and it can be restored. */
  lemma RestoredIff(r: Setup, name: string)
    ensures (exists ss: seq<Pod>, acts: seq<Act> :: Restores(r, ss, acts, name)) <==>
            Welcome(r) && Restorable(r, name) && exists how :: Selected(r, Choice(name, how))
  {
    if ss: seq<Pod>, acts: seq<Act> :| Restores(r, ss, acts, name) {
      ExitZeroMeansRestored(r, ss, acts, |acts|);
      var c := ss[|acts|].d.chosen.value;
      assert Selected(r, Choice(name, c.how));
      if !Welcome(r) {
        RefusalIsSafe(r, ss, acts, |acts|);
      }
    } else if Welcome(r) && Restorable(r, name) && exists how :: Selected(r, Choice(name, how)) {
      var how :| Selected(r, Choice(name, how));
      var ss, acts := SuccessfulRun(r, Choice(name, how));
      assert Restores(r, ss, acts, name);
    }
  }

  ghost predicate Restores(r: Setup, ss: seq<Pod>, acts: seq<Act>, name: string) {
    Succeeds(r, ss, acts) && ss[|acts|].d.chosen.Some? && ss[|acts|].d.chosen.value.src == name
  }

  // ------------------------------------------------------------------ the named file

  /** The fallback may settle on something other than the named file, and it can be restored. */
  ghost predicate Strays(r: Setup, c: Choice) {
    Selected(r, c) && c.how.Latest? && c.src != r.backupFile && Restorable(r, c.src)
  }

  /**
    If `mc stat` fails although the named file exists, another file is restored, and the pod
    succeeds: such a run exists for every other archive the fallback may settle on.
  */
  lemma FallbackRestoresAnother(r: Setup, c: Choice) returns (ss: seq<Pod>, acts: seq<Act>)
    requires r.backupFile != "" && r.backupFile in r.bucket && Welcome(r) && Strays(r, c)
    ensures Succeeds(r, ss, acts) && ss[|acts|].d.chosen == Some(c) && c.src != r.backupFile
  {
    ss, acts := SuccessfulRun(r, c);
  }

  /**
    With a named, existing file, every successful run restores that file if and only if the
    fallback is off, or it can settle on no other archive that can be restored, or the engine
    refuses the target anyway.
  */
  lemma NamedFileIff(r: Setup)
    requires r.backupFile != "" && r.backupFile in r.bucket
    ensures (forall ss: seq<Pod>, acts: seq<Act> :: Succeeds(r, ss, acts) ==>
               ss[|acts|].d.chosen.Some? && ss[|acts|].d.chosen.value.src == r.backupFile) <==>
            !r.fallback || (forall c :: !Strays(r, c)) || !Welcome(r)
  {
    if r.fallback && Welcome(r) && !forall c :: !Strays(r, c) {
      var c :| Strays(r, c);
      var ss, acts := FallbackRestoresAnother(r, c);
      assert Succeeds(r, ss, acts);
    } else {
      forall ss: seq<Pod>, acts: seq<Act> | Succeeds(r, ss, acts)
        ensures ss[|acts|].d.chosen.Some? && ss[|acts|].d.chosen.value.src == r.backupFile
      {
        ExitZeroMeansRestored(r, ss, acts, |acts|);
        if !Welcome(r) {
          RefusalIsSafe(r, ss, acts, |acts|);
        } else {
          assert !Strays(r, ss[|acts|].d.chosen.value);
        }
      }
    }
  }

  // ------------------------------------------------------------------ what the emptiness test does not see

  /** There is something in the target, seen or unseen. */
  predicate IsTaken(t: Target) {
    t != Absent && t != There(Nothing, 0)
  }

  /** An act touches a target with something in it although dropping is not allowed. */
  ghost predicate Trespasses(r: Setup, ss: seq<Pod>, acts: seq<Act>, i: nat) {
    IsPodRun(r, ss, acts) && i < |acts| && Touches(acts[i]) && !r.dropAllowed && IsTaken(r.target0)
  }

  /** When the target is touched, fetch has settled on an object that can be restored. */
  lemma TouchedAfterChoice(r: Setup, ss: seq<Pod>, acts: seq<Act>, i: nat)
    requires IsPodRun(r, ss, acts) && i < |acts| && Touches(acts[i])
    ensures Settled(r, ss[i].d) && Restorable(r, ss[i].d.chosen.value.src)
  {
    PodInvAlways(r, ss, acts, i);
    assert CanAct(r, ss[i], acts[i]);
    WorkerAlone(r, ss[i], ENGINE);
    assert WorkDone(ss[i].d, FETCH) && WorkDone(ss[i].d, DECRYPT) && WorkDone(ss[i].d, EXTRACT);
  }

  lemma {:induction false} SomeTouch(r: Setup, ss: seq<Pod>, acts: seq<Act>, n: nat) returns (i: nat)
    requires IsPodRun(r, ss, acts) && n < |ss| && ss[n].d.target != r.target0
    ensures i < n && Touches(acts[i])
  {
    if n > 0 && Touches(acts[n - 1]) {
      i := n - 1;
    } else {
      assert n > 0;
      TargetIsSafe(r, ss, acts, n - 1);
      i := SomeTouch(r, ss, acts, n - 1);
    }
  }

  /**
    A target with something in it is touched without permission in some run if and only if the
    engine's test sees nothing of it, all of it being hidden, and there is something to restore.
  */
  lemma TrespassIff(r: Setup)
    ensures (exists ss: seq<Pod>, acts: seq<Act>, i: nat :: Trespasses(r, ss, acts, i)) <==>
            && r.target0.There? && r.target0.shown == Nothing && r.target0.hidden > 0 && !r.dropAllowed
            && exists c :: Selected(r, c) && Restorable(r, c.src)
  {
    if ss: seq<Pod>, acts: seq<Act>, i: nat :| Trespasses(r, ss, acts, i) {
      TargetIsSafe(r, ss, acts, i);
      TouchedAfterChoice(r, ss, acts, i);
      assert Selected(r, ss[i].d.chosen.value);
    } else if r.target0.There? && r.target0.shown == Nothing && r.target0.hidden > 0 && !r.dropAllowed &&
              exists c :: Selected(r, c) && Restorable(r, c.src) {
      var c :| Selected(r, c) && Restorable(r, c.src);
      var ss, acts := SuccessfulRun(r, c);
      ExitZeroMeansRestored(r, ss, acts, |acts|);
      var i := SomeTouch(r, ss, acts, |acts|);
      assert Trespasses(r, ss, acts, i);
    }
  }

  /** A Redis target with keys only in other logical databases is replaced without permission, and the run succeeds. */
  lemma HiddenKeysAreReplaced(r: Setup, c: Choice) returns (ss: seq<Pod>, acts: seq<Act>)
    requires r.redis && !r.dropAllowed && r.target0.There? && r.target0.shown.Nothing? && r.target0.hidden > 0
    requires Selected(r, c) && Restorable(r, c.src)
    ensures Succeeds(r, ss, acts) && ss[|acts|].d.target == There(Loaded(Plain(r, c)), 0)
  {
    ss, acts := SuccessfulRun(r, c);
    ExitZeroMeansRestored(r, ss, acts, |acts|);
  }

  // ------------------------------------------------------------------ the newest upload

  /** `mc find` never broke off: whenever the fallback chose, it had seen the whole listing. */
  predicate Unbroken(r: Setup, acts: seq<Act>) {
    forall k :: 0 <= k < |acts| && acts[k].Choose? && acts[k].choice.how.Latest? ==>
      acts[k].choice.how.seen == |r.listing|
  }

  /** What fetch settled on was chosen by one of its acts. */
  lemma {:induction false} ChosenByAct(r: Setup, ss: seq<Pod>, acts: seq<Act>, n: nat) returns (k: nat)
    requires IsPodRun(r, ss, acts) && n < |ss| && ss[n].d.chosen.Some?
    ensures k < n && acts[k] == Choose(ss[n].d.chosen.value)
  {
    assert n > 0;
    assert CanAct(r, ss[n - 1], acts[n - 1]) && ss[n] == Perform(r, ss[n - 1], acts[n - 1]);
    if acts[n - 1].Choose? {
      k := n - 1;
    } else {
      k := ChosenByAct(r, ss, acts, n - 1);
    }
  }

  function ArchiveName(f: Format, db: string, t: Stamp): string {
    ObjectName(Prefix(f), db, t, Extension(f)) + ".gz.gpg"
  }

  /** The listing holds exactly one database's archives, taken at these times. */
  ghost predicate ListsOnly(r: Setup, db: string, stamps: seq<Stamp>) {
    && '/' !in db && |stamps| == |r.listing|
    && forall i :: 0 <= i < |stamps| ==> Printable(stamps[i]) && r.listing[i] == ArchiveName(FormatOf(r), db, stamps[i])
  }

  ghost predicate IsNewest(newest: Stamp, stamps: seq<Stamp>) {
    newest in stamps && forall t :: t in stamps ==> t == newest || Earlier(t, newest)
  }

  /**
    Without a named file, a successful pod whose `mc find` did not break off and found one
    database's archives restored the newest of them.
  */
  lemma FallbackRestoresNewest(
    r: Setup, ss: seq<Pod>, acts: seq<Act>, db: string, stamps: seq<Stamp>, newest: Stamp)
    requires Succeeds(r, ss, acts) && r.backupFile == "" && Unbroken(r, acts)
    requires ListsOnly(r, db, stamps) && IsNewest(newest, stamps)
    ensures Restores(r, ss, acts, ArchiveName(FormatOf(r), db, newest))
  {
    UnbrokenTakesLatest(r, ss, acts);
    LatestListed(r, db, stamps, newest, ss[|acts|].d.chosen.value.src);
  }

  lemma UnbrokenTakesLatest(r: Setup, ss: seq<Pod>, acts: seq<Act>)
    requires Succeeds(r, ss, acts) && r.backupFile == "" && Unbroken(r, acts)
    ensures ss[|acts|].d.chosen.Some? && IsLatest(r.listing, Matches(r), ss[|acts|].d.chosen.value.src)
  {
    ExitZeroMeansRestored(r, ss, acts, |acts|);
    var k := ChosenByAct(r, ss, acts, |acts|);
    assert r.listing[..|r.listing|] == r.listing;
  }

  lemma LatestListed(r: Setup, db: string, stamps: seq<Stamp>, newest: Stamp, src: string)
    requires ListsOnly(r, db, stamps) && IsNewest(newest, stamps) && IsLatest(r.listing, Matches(r), src)
    ensures src == ArchiveName(FormatOf(r), db, newest)
  {
    var f := FormatOf(r);
    ListedByTime(r, db, stamps);
    LatestIsNewest(Prefix(f), db, Extension(f) + ".gz.gpg", stamps, r.listing, Matches(r), newest);
    LongExtension(Prefix(f), db, newest, Extension(f), ".gz.gpg");
    LatestIsUnique(r.listing, Matches(r), ArchiveName(f, db, newest), src);
  }

  lemma ListedByTime(r: Setup, db: string, stamps: seq<Stamp>)
    requires ListsOnly(r, db, stamps)
    ensures var f := FormatOf(r);
            forall i :: 0 <= i < |stamps| ==>
              && r.listing[i] == ObjectName(Prefix(f), db, stamps[i], Extension(f) + ".gz.gpg")
              && Matches(r)(r.listing[i])
  {
    var f := FormatOf(r);
    forall i | 0 <= i < |stamps|
      ensures r.listing[i] == ObjectName(Prefix(f), db, stamps[i], Extension(f) + ".gz.gpg") && Matches(r)(r.listing[i])
    {
      GlobsFollowTheFile(f, db, stamps[i], ".gz.gpg");
      ArchiveNameIsPlain(f, db, stamps[i]);
      LongExtension(Prefix(f), db, stamps[i], Extension(f), ".gz.gpg");
    }
  }

  lemma LongExtension(prefix: string, db: string, t: Stamp, ext: string, suffix: string)
    ensures ObjectName(prefix, db, t, ext) + suffix == ObjectName(prefix, db, t, ext + suffix)
  {
  }
}
