/**
  One backup pod without in-place restarts: the marker protocol together with what the stages
  do to the scratch directory, `retained/` and S3.  Every tool may stop half way and leave a
  partial file behind; a stage may fail at any step.
*/
module BackupRun {
  import opened Wrappers
  import opened Sed
  import opened Artifacts
  import opened Protocol
  import opened ProtocolOrder

  datatype Setup = Setup(
    s3: bool,
    key: string,
    retained0: map<string, Content>,
    expired: set<string>,
    setTransactionTimeout: Pattern)

  /** Files of the pod's scratch directory other than markers; `name` is the dump's base name. */
  datatype File = Plain(name: string) | Gz(name: string) | Gpg(name: string) | ErrLog | DumpRunning

  datatype DumpWork = DumpIdle | Dumping(name: string) | DumpTidy(name: string) | DumpSed(name: string)
                    | DumpStats | DumpDone
  datatype GzipWork = GzipIdle | GzipLoop(todo: set<string>) | Gzipping(name: string, todo: set<string>) | GzipDone
  datatype GpgWork = GpgIdle | GpgLoop(todo: set<string>) | Encrypting(name: string, todo: set<string>)
                   | RemovingGz(name: string, todo: set<string>) | Copying(name: string, todo: set<string>)
                   | CopyRunning(name: string, todo: set<string>) | GpgDone
  datatype SyncWork = SyncIdle | Mirroring(todo: set<File>) | SyncPrune | SyncDone

  /** `kept` is `retained/` after cleanup's pruning; `dumped` the successful pg_dump. */
  datatype Data = Data(
    scratch: map<File, Content>,
    retained: map<string, Content>,
    uploaded: map<File, Content>,
    dump: DumpWork,
    gzip: GzipWork,
    gpg: GpgWork,
    sync: SyncWork,
    kept: map<string, Content>,
    dumped: Option<(string, seq<Line>)>)

  datatype Pod = Pod(p: State, d: Data)

  datatype Act =
    | Proto(a: Action)
    | PruneRetained(name: string)
    | StartDump(name: string, partial: nat)
    | EndDump(lines: seq<Line>)
    | TidyDump
    | StripDump
    | Stats
    | GlobPlain
    | StartGzip(name: string, partial: nat)
    | EndGzip
    | GlobGz
    | StartGpg(name: string, partial: nat)
    | EndGpg
    | RmGz
    | StartCopy(partial: nat)
    | EndCopy
    | ListScratch
    | Upload(f: File)
    | PruneS3

  const CLEANUP := 0
  const DUMP := 1
  const COMPRESS := 2
  const ENCRYPT := 3
  const SYNC := 4

  function Config(b: Setup): Protocol.Config {
    Protocol.Config(if b.s3 then 5 else 4, !b.s3, false, false)
  }

  function InitPod(b: Setup): Pod {
    Pod(InitState(Config(b)),
        Data(map[], b.retained0, map[], DumpIdle, GzipIdle, GpgIdle, SyncIdle, b.retained0, None))
  }

  function PlainNames(scratch: map<File, Content>): set<string> {
    set f | f in scratch && f.Plain? :: f.name
  }

  function GzNames(scratch: map<File, Content>): set<string> {
    set f | f in scratch && f.Gz? :: f.name
  }

  /** The dump as pgdump.sh leaves it. */
  function Cleaned(b: Setup, lines: seq<Line>): seq<Line> {
    Run([Delete(b.setTransactionTimeout)], lines)
  }

  /** The script of stage `p` has reached the end of its work. */
  predicate WorkDone(d: Data, p: nat) {
    && (p == DUMP ==> d.dump.DumpDone?)
    && (p == COMPRESS ==> d.gzip.GzipDone?)
    && (p == ENCRYPT ==> d.gpg.GpgDone?)
    && (p == SYNC ==> d.sync.SyncDone?)
  }

  predicate Works(b: Setup, s: Pod, p: nat) {
    p < |s.p.pc| && s.p.pc[p].Working?
  }

  predicate CanAct(b: Setup, s: Pod, act: Act) {
    var d := s.d;
    match act
    case Proto(a) => Enabled(Config(b), s.p, a) && (a.Step? && a.k.FinishWork? ==> WorkDone(d, a.p))
    case PruneRetained(name) => Works(b, s, CLEANUP) && name in b.expired
    case StartDump(_, _) => Works(b, s, DUMP) && d.dump.DumpIdle?
    case EndDump(_) => Works(b, s, DUMP) && d.dump.Dumping?
    case TidyDump => Works(b, s, DUMP) && d.dump.DumpTidy?
    case StripDump => Works(b, s, DUMP) && d.dump.DumpSed? &&
                      Plain(d.dump.name) in d.scratch && d.scratch[Plain(d.dump.name)].Raw?
    case Stats => Works(b, s, DUMP) && d.dump.DumpStats?
    case GlobPlain => Works(b, s, COMPRESS) && d.gzip.GzipIdle? && PlainNames(d.scratch) != {}
    case StartGzip(name, _) => Works(b, s, COMPRESS) && d.gzip.GzipLoop? && name in d.gzip.todo &&
                               Plain(name) in d.scratch && Gz(name) !in d.scratch
    case EndGzip => Works(b, s, COMPRESS) && d.gzip.Gzipping? && Plain(d.gzip.name) in d.scratch
    case GlobGz => Works(b, s, ENCRYPT) && d.gpg.GpgIdle? && GzNames(d.scratch) != {}
    case StartGpg(name, _) => Works(b, s, ENCRYPT) && d.gpg.GpgLoop? && name in d.gpg.todo && Gz(name) in d.scratch
    case EndGpg => Works(b, s, ENCRYPT) && d.gpg.Encrypting? && Gz(d.gpg.name) in d.scratch
    case RmGz => Works(b, s, ENCRYPT) && d.gpg.RemovingGz?
    case StartCopy(_) => Works(b, s, ENCRYPT) && d.gpg.Copying?
    case EndCopy => Works(b, s, ENCRYPT) && d.gpg.CopyRunning? && Gpg(d.gpg.name) in d.scratch
    case ListScratch => Works(b, s, SYNC) && d.sync.SyncIdle?
    case Upload(f) => Works(b, s, SYNC) && d.sync.Mirroring? && f in d.sync.todo && f in d.scratch
    case PruneS3 => Works(b, s, SYNC) && d.sync.SyncPrune?
  }

  /** The effect of a stage's work on the data. */
  function ActOn(b: Setup, s: Pod, act: Act): Data
    requires CanAct(b, s, act)
  {
    var d := s.d;
    match act
    case Proto(_) => d
    case PruneRetained(name) => d.(retained := d.retained - {name}, kept := d.kept - {name})
    case StartDump(name, partial) =>
      d.(scratch := d.scratch[DumpRunning := Junk(0)][ErrLog := Junk(0)][Plain(name) := Junk(partial)],
         dump := Dumping(name))
    case EndDump(lines) =>
      d.(scratch := d.scratch[Plain(d.dump.name) := Raw(lines)],
         dump := DumpTidy(d.dump.name), dumped := Some((d.dump.name, lines)))
    case TidyDump => d.(scratch := d.scratch - {DumpRunning, ErrLog}, dump := DumpSed(d.dump.name))
    case StripDump =>
      d.(scratch := d.scratch[Plain(d.dump.name) := Raw(Cleaned(b, d.scratch[Plain(d.dump.name)].lines))],
         dump := DumpStats)
    case Stats => d.(dump := DumpDone)
    case GlobPlain => d.(gzip := GzipLoop(PlainNames(d.scratch)))
    case StartGzip(name, partial) =>
      d.(scratch := d.scratch[Gz(name) := Junk(partial)], gzip := Gzipping(name, d.gzip.todo - {name}))
    case EndGzip =>
      d.(scratch := d.scratch[Gz(d.gzip.name) := Gzip(d.scratch[Plain(d.gzip.name)])] - {Plain(d.gzip.name)},
         gzip := if d.gzip.todo == {} then GzipDone else GzipLoop(d.gzip.todo))
    case GlobGz => d.(gpg := GpgLoop(GzNames(d.scratch)))
    case StartGpg(name, partial) =>
      d.(scratch := d.scratch[Gpg(name) := Junk(partial)], gpg := Encrypting(name, d.gpg.todo - {name}))
    case EndGpg =>
      d.(scratch := d.scratch[Gpg(d.gpg.name) := Enc(b.key, d.scratch[Gz(d.gpg.name)])],
         gpg := RemovingGz(d.gpg.name, d.gpg.todo))
    case RmGz => d.(scratch := d.scratch - {Gz(d.gpg.name)}, gpg := Copying(d.gpg.name, d.gpg.todo))
    case StartCopy(partial) =>
      d.(retained := d.retained[d.gpg.name := Junk(partial)], gpg := CopyRunning(d.gpg.name, d.gpg.todo))
    case EndCopy =>
      d.(retained := d.retained[d.gpg.name := d.scratch[Gpg(d.gpg.name)]],
         gpg := if d.gpg.todo == {} then GpgDone else GpgLoop(d.gpg.todo))
    case ListScratch => d.(sync := if d.scratch == map[] then SyncPrune else Mirroring(d.scratch.Keys))
    case Upload(f) =>
      d.(uploaded := d.uploaded[f := d.scratch[f]],
         sync := if d.sync.todo == {f} then SyncPrune else Mirroring(d.sync.todo - {f}))
    case PruneS3 => d.(sync := SyncDone)
  }

  function Perform(b: Setup, s: Pod, act: Act): Pod
    requires CanAct(b, s, act)
  {
    Pod(if act.Proto? then Apply(Config(b), s.p, act.a) else s.p, ActOn(b, s, act))
  }

  ghost predicate IsPodRun(b: Setup, ss: seq<Pod>, acts: seq<Act>) {
    && |ss| == |acts| + 1
    && ss[0] == InitPod(b)
    && forall i :: 0 <= i < |acts| ==> CanAct(b, ss[i], acts[i]) && ss[i + 1] == Perform(b, ss[i], acts[i])
  }

  // ------------------------------------------------------------------ invariant

  /** Stage `p` has begun its work. */
  predicate Begun(d: Data, p: nat) {
    || (p == DUMP && !d.dump.DumpIdle?)
    || (p == COMPRESS && !d.gzip.GzipIdle?)
    || (p == ENCRYPT && !d.gpg.GpgIdle?)
    || (p == SYNC && !d.sync.SyncIdle?)
  }

  predicate Finished(c: Protocol.Config, s: State, p: nat)
    requires ValidConfig(c) && p < |s.pc|
  {
    s.pc[p].TouchDone? || s.pc[p].TouchJobDone? || OwnMarker(c, p) in s.hist
  }

  /** Work begins only after the previous stage's marker, and a marker is written only after the work. */
  ghost predicate Linked(b: Setup, s: Pod) {
    var c := Config(b);
    && (forall p: nat :: 0 < p && Begun(s.d, p) ==> p < c.n && Done(p - 1) in s.p.hist)
    && (forall p: nat :: p < c.n && p < |s.p.pc| && Finished(c, s.p, p) ==> WorkDone(s.d, p))
  }

  /** What the scratch directory holds, read off how far the stages have come. */
  ghost predicate ScratchOk(b: Setup, d: Data) {
    match d.dump
    case DumpIdle => d.scratch == map[] && d.gzip.GzipIdle?
    case Dumping(name) => d.scratch.Keys == {Plain(name), ErrLog, DumpRunning} && d.gzip.GzipIdle?
    case DumpTidy(name) =>
      && d.gzip.GzipIdle? && d.dumped.Some? && d.dumped.value.0 == name
      && d.scratch.Keys == {Plain(name), ErrLog, DumpRunning}
      && d.scratch[Plain(name)] == Raw(d.dumped.value.1)
    case DumpSed(name) =>
      && d.gzip.GzipIdle? && d.dumped.Some? && d.dumped.value.0 == name
      && d.scratch == map[Plain(name) := Raw(d.dumped.value.1)]
    case DumpStats => d.gzip.GzipIdle? && d.dumped.Some? && AfterDump(b, d, d.dumped.value.0, d.dumped.value.1)
    case DumpDone => d.dumped.Some? && AfterDump(b, d, d.dumped.value.0, d.dumped.value.1)
  }

  ghost predicate AfterDump(b: Setup, d: Data, name: string, lines: seq<Line>) {
    var plain := Raw(Cleaned(b, lines));
    match d.gzip
    case GzipIdle => d.gpg.GpgIdle? && d.scratch == map[Plain(name) := plain]
    case GzipLoop(todo) => d.gpg.GpgIdle? && todo == {name} && d.scratch == map[Plain(name) := plain]
    case Gzipping(n, todo) =>
      && d.gpg.GpgIdle? && n == name && todo == {}
      && d.scratch.Keys == {Plain(name), Gz(name)} && d.scratch[Plain(name)] == plain
    case GzipDone => AfterGzip(b, d, name, Gzip(plain))
  }

  ghost predicate AfterGzip(b: Setup, d: Data, name: string, gz: Content) {
    var enc := Enc(b.key, gz);
    match d.gpg
    case GpgIdle => d.scratch == map[Gz(name) := gz]
    case GpgLoop(todo) => todo == {name} && d.scratch == map[Gz(name) := gz]
    case Encrypting(n, todo) =>
      && n == name && todo == {}
      && d.scratch.Keys == {Gz(name), Gpg(name)} && d.scratch[Gz(name)] == gz
    case RemovingGz(n, todo) =>
      && n == name && todo == {} && d.scratch == map[Gz(name) := gz, Gpg(name) := enc]
    case Copying(n, todo) => n == name && todo == {} && d.scratch == map[Gpg(name) := enc]
    case CopyRunning(n, todo) => n == name && todo == {} && d.scratch == map[Gpg(name) := enc]
    case GpgDone => d.scratch == map[Gpg(name) := enc] && d.retained == d.kept[name := enc]
  }

  /** `retained/` is the pruned one until the copy, and pruning removed expired dumps only. */
  ghost predicate RetainedOk(b: Setup, d: Data) {
    && (!d.gpg.CopyRunning? && !d.gpg.GpgDone? ==> d.retained == d.kept)
    && (d.gpg.CopyRunning? ==> d.retained - {d.gpg.name} == d.kept - {d.gpg.name})
    && (forall n :: n in d.kept ==> n in b.retained0 && d.kept[n] == b.retained0[n])
    && (forall n :: n in b.retained0 && n !in b.expired ==> n in d.kept)
  }

  ghost predicate UploadedOk(d: Data) {
    match d.sync
    case SyncIdle => d.uploaded == map[]
    case Mirroring(todo) =>
      && todo != {} && todo <= d.scratch.Keys
      && d.uploaded.Keys == d.scratch.Keys - todo
      && forall f :: f in d.uploaded ==> d.uploaded[f] == d.scratch[f]
    case SyncPrune => d.uploaded == d.scratch
    case SyncDone => d.uploaded == d.scratch
  }

  ghost predicate DataOk(b: Setup, d: Data) {
    ScratchOk(b, d) && RetainedOk(b, d) && UploadedOk(d)
  }

  ghost predicate PodInv(b: Setup, s: Pod) {
    Order(Config(b), s.p) && !s.p.torn && Linked(b, s) && DataOk(b, s.d)
  }

  /** While stage `p` works every later stage is idle and every earlier one is done. */
  lemma WorkerAlone(b: Setup, s: Pod, p: nat)
    requires PodInv(b, s) && Works(b, s, p)
    ensures forall q: nat :: p < q ==> !Begun(s.d, q)
    ensures forall q: nat :: q < p ==> WorkDone(s.d, q)
  {
    WorkerState(Config(b), s.p, p);
    forall q: nat | p < q ensures !Begun(s.d, q) {
      var k: nat := q - 1;
      assert k < Config(b).n ==> Done(k) !in s.p.hist;
    }
    forall q: nat | q < p ensures WorkDone(s.d, q) {
      assert Done(q) in s.p.hist && Marks(Config(b), q);
    }
  }

  lemma ProtoKeepsPodInv(b: Setup, s: Pod, a: Action)
    requires PodInv(b, s) && CanAct(b, s, Proto(a))
    ensures PodInv(b, Perform(b, s, Proto(a)))
  {
    OrderStep(Config(b), s.p, a);
    ProtoKeepsLinked(b, s, a);
    if a.Step? {
      assert StageOk(Config(b), s.p, a.p);
    }
  }

  lemma ProtoKeepsLinked(b: Setup, s: Pod, a: Action)
    requires PodInv(b, s) && CanAct(b, s, Proto(a))
    ensures Linked(b, Perform(b, s, Proto(a)))
  {
    var t := Perform(b, s, Proto(a));
    forall q: nat | q < Config(b).n && q < |t.p.pc| && Finished(Config(b), t.p, q) ensures WorkDone(t.d, q) {
      FinishedSince(Config(b), s.p, a, q);
    }
  }

  /** A stage has finished its work only if it had before or does now. */
  lemma FinishedSince(c: Protocol.Config, s: State, a: Action, q: nat)
    requires ValidConfig(c) && Order(c, s) && !s.torn && Enabled(c, s, a) && q < c.n
    requires Finished(c, Apply(c, s, a), q)
    ensures Finished(c, s, q) || a == Step(q, FinishWork)
  {
    if a.Step? {
      assert StageOk(c, s, a.p);
    }
  }

  /** The stage whose script a data action belongs to. */
  function StageOf(act: Act): nat
    requires !act.Proto?
  {
    match act
    case PruneRetained(_) => CLEANUP
    case StartDump(_, _) => DUMP
    case EndDump(_) => DUMP
    case TidyDump => DUMP
    case StripDump => DUMP
    case Stats => DUMP
    case GlobPlain => COMPRESS
    case StartGzip(_, _) => COMPRESS
    case EndGzip => COMPRESS
    case GlobGz => ENCRYPT
    case StartGpg(_, _) => ENCRYPT
    case EndGpg => ENCRYPT
    case RmGz => ENCRYPT
    case StartCopy(_) => ENCRYPT
    case EndCopy => ENCRYPT
    case ListScratch => SYNC
    case Upload(_) => SYNC
    case PruneS3 => SYNC
  }

  lemma WorkKeepsLinked(b: Setup, s: Pod, act: Act)
    requires PodInv(b, s) && !act.Proto? && CanAct(b, s, act)
    ensures Linked(b, Perform(b, s, act))
  {
    var c, p := Config(b), StageOf(act);
    var t := Perform(b, s, act);
    WorkerState(c, s.p, p);
    forall q: nat | 0 < q && Begun(t.d, q) ensures q < c.n && Done(q - 1) in t.p.hist {
      OthersWork(b, s, act, q);
    }
    forall q: nat | q < c.n && q < |t.p.pc| && Finished(c, t.p, q) ensures WorkDone(t.d, q) {
      assert StageOk(c, s.p, p);
      OthersWork(b, s, act, q);
    }
  }

  lemma OthersWork(b: Setup, s: Pod, act: Act, q: nat)
    requires !act.Proto? && CanAct(b, s, act)
    ensures q != StageOf(act) ==> (Begun(ActOn(b, s, act), q) <==> Begun(s.d, q))
    ensures q != StageOf(act) ==> (WorkDone(ActOn(b, s, act), q) <==> WorkDone(s.d, q))
    ensures StageOf(act) < |s.p.pc| && s.p.pc[StageOf(act)].Working?
  {
  }

  lemma CleanupKeepsData(b: Setup, s: Pod, act: Act)
    requires PodInv(b, s) && !act.Proto? && CanAct(b, s, act) && StageOf(act) == CLEANUP
    ensures DataOk(b, ActOn(b, s, act))
  {
    WorkerAlone(b, s, CLEANUP);
    assert !Begun(s.d, DUMP) && !Begun(s.d, COMPRESS) && !Begun(s.d, ENCRYPT) && !Begun(s.d, SYNC);
  }

  lemma DumpKeepsData(b: Setup, s: Pod, act: Act)
    requires PodInv(b, s) && !act.Proto? && CanAct(b, s, act) && StageOf(act) == DUMP
    ensures DataOk(b, ActOn(b, s, act))
  {
    WorkerAlone(b, s, DUMP);
    assert !Begun(s.d, COMPRESS) && !Begun(s.d, ENCRYPT) && !Begun(s.d, SYNC);
    if act.TidyDump? {
      var name := s.d.dump.name;
      assert ActOn(b, s, act).scratch == map[Plain(name) := Raw(s.d.dumped.value.1)];
    }
  }

  lemma CompressKeepsData(b: Setup, s: Pod, act: Act)
    requires PodInv(b, s) && !act.Proto? && CanAct(b, s, act) && StageOf(act) == COMPRESS
    ensures DataOk(b, ActOn(b, s, act))
  {
    WorkerAlone(b, s, COMPRESS);
    assert WorkDone(s.d, DUMP) && !Begun(s.d, ENCRYPT) && !Begun(s.d, SYNC);
    var name := s.d.dumped.value.0;
    if act.GlobPlain? {
      assert PlainNames(s.d.scratch) == {name} by {
        assert Plain(name) in s.d.scratch;
      }
    } else if act.EndGzip? {
      assert ActOn(b, s, act).scratch == map[Gz(name) := Gzip(s.d.scratch[Plain(name)])];
    }
  }

  lemma EncryptKeepsData(b: Setup, s: Pod, act: Act)
    requires PodInv(b, s) && !act.Proto? && CanAct(b, s, act) && StageOf(act) == ENCRYPT
    ensures DataOk(b, ActOn(b, s, act))
  {
    WorkerAlone(b, s, ENCRYPT);
    assert WorkDone(s.d, DUMP) && WorkDone(s.d, COMPRESS) && !Begun(s.d, SYNC);
    var name, lines := s.d.dumped.value.0, s.d.dumped.value.1;
    var gz := Gzip(Raw(Cleaned(b, lines)));
    assert AfterGzip(b, s.d, name, gz);
    var d := ActOn(b, s, act);
    assert AfterGzip(b, d, name, gz) && RetainedOk(b, d) by {
      if act.GlobGz? {
        assert GzNames(s.d.scratch) == {name} by {
          assert Gz(name) in s.d.scratch;
        }
      } else if act.EndGpg? {
        assert d.scratch == map[Gz(name) := gz, Gpg(name) := Enc(b.key, gz)];
      } else if act.EndCopy? {
        RestoredKey(s.d.retained, s.d.kept, name, Enc(b.key, gz));
      } else if act.StartCopy? {
        assert d.retained - {name} == d.kept - {name};
      }
    }
  }

  lemma RestoredKey(m: map<string, Content>, n: map<string, Content>, k: string, v: Content)
    requires m - {k} == n - {k}
    ensures m[k := v] == n[k := v]
  {
    forall x | x in m && x != k ensures x in n && m[x] == n[x] {
      assert x in m - {k};
      assert (m - {k})[x] == (n - {k})[x];
    }
    forall x | x in n && x != k ensures x in m {
      assert x in n - {k};
    }
  }

  lemma SyncKeepsData(b: Setup, s: Pod, act: Act)
    requires PodInv(b, s) && !act.Proto? && CanAct(b, s, act) && StageOf(act) == SYNC
    ensures DataOk(b, ActOn(b, s, act))
  {
    WorkerAlone(b, s, SYNC);
    assert WorkDone(s.d, DUMP) && WorkDone(s.d, COMPRESS) && WorkDone(s.d, ENCRYPT);
  }

  lemma WorkKeepsData(b: Setup, s: Pod, act: Act)
    requires PodInv(b, s) && !act.Proto? && CanAct(b, s, act)
    ensures DataOk(b, ActOn(b, s, act))
  {
    var p := StageOf(act);
    if p == CLEANUP {
      CleanupKeepsData(b, s, act);
    } else if p == DUMP {
      DumpKeepsData(b, s, act);
    } else if p == COMPRESS {
      CompressKeepsData(b, s, act);
    } else if p == ENCRYPT {
      EncryptKeepsData(b, s, act);
    } else {
      SyncKeepsData(b, s, act);
    }
  }

  lemma PodStep(b: Setup, s: Pod, act: Act)
    requires PodInv(b, s) && CanAct(b, s, act)
    ensures PodInv(b, Perform(b, s, act))
  {
    if act.Proto? {
      ProtoKeepsPodInv(b, s, act.a);
    } else {
      WorkKeepsLinked(b, s, act);
      WorkKeepsData(b, s, act);
    }
  }

  lemma {:induction false} PodInvAlways(b: Setup, ss: seq<Pod>, acts: seq<Act>, i: nat)
    requires IsPodRun(b, ss, acts) && i < |ss|
    ensures PodInv(b, ss[i])
  {
    if i == 0 {
      InitOrder(Config(b));
    } else {
      PodInvAlways(b, ss, acts, i - 1);
      assert ss[i] == Perform(b, ss[i - 1], acts[i - 1]);
      PodStep(b, ss[i - 1], acts[i - 1]);
    }
  }

  /**
    If any container of a backup pod exits 0, then: all done-markers and job-done are there;
    there is a dump that pg_dump completed; `retained/` is the pruned directory with the
    encrypted, compressed lines of that dump, all but those that set the transaction timeout,
    added under its name; the scratch directory holds that one file; and with S3 the upload is
    exactly that file.  Pruning removed nothing but expired dumps.
  */
  lemma ExitZeroMeansArchived(b: Setup, ss: seq<Pod>, acts: seq<Act>, i: nat)
    requires IsPodRun(b, ss, acts) && i < |ss|
    requires Exited(true) in ss[i].p.pc
    ensures {Done(CLEANUP), Done(DUMP), Done(COMPRESS), Done(ENCRYPT), JobDone} <= ss[i].p.markers
    ensures ss[i].d.dumped.Some?
    ensures var d := ss[i].d;
            var (name, lines) := d.dumped.value;
            var enc := Enc(b.key, Gzip(Raw(Unmatched(b.setTransactionTimeout, lines))));
            && d.retained == d.kept[name := enc]
            && d.scratch == map[Gpg(name) := enc]
            && (b.s3 ==> d.uploaded == map[Gpg(name) := enc])
    ensures forall n :: n in ss[i].d.kept ==> n in b.retained0 && ss[i].d.kept[n] == b.retained0[n]
    ensures forall n :: n in b.retained0 && n !in b.expired ==> n in ss[i].d.kept
  {
    PodInvAlways(b, ss, acts, i);
    var s, c := ss[i], Config(b);
    var p: nat :| p < |s.p.pc| && s.p.pc[p] == Exited(true);
    assert StageOk(c, s.p, p);
    assert JobDone in s.p.hist;
    assert forall q: nat :: q < c.n && Marks(c, q) ==> Done(q) in s.p.hist;
    assert Marks(c, CLEANUP) && Marks(c, DUMP) && Marks(c, COMPRESS) && Marks(c, ENCRYPT);
    assert Finished(c, s.p, DUMP) && Finished(c, s.p, COMPRESS) && Finished(c, s.p, ENCRYPT);
    assert WorkDone(s.d, DUMP) && WorkDone(s.d, COMPRESS) && WorkDone(s.d, ENCRYPT);
    if b.s3 {
      assert Finished(c, s.p, SYNC);
      assert WorkDone(s.d, SYNC);
    }
    DeleteLeavesUnmatched(b.setTransactionTimeout, s.d.dumped.value.1);
  }

  /** Every pod run is a run of the marker protocol, with some steps where the protocol stands still. */
  lemma PodRunRefinesProtocol(b: Setup, ss: seq<Pod>, acts: seq<Act>) returns (ps: seq<State>, pacts: seq<Action>)
    requires IsPodRun(b, ss, acts)
    ensures IsRun(Config(b), ps, pacts) && ps[|ps| - 1] == ss[|ss| - 1].p
    ensures forall q :: q in ps <==> exists i :: 0 <= i < |ss| && ss[i].p == q
  {
    var qs := seq(|ss|, i requires 0 <= i < |ss| => ss[i].p);
    var moves := seq(|acts|, i requires 0 <= i < |acts| => if acts[i].Proto? then Some(acts[i].a) else None);
    forall i | 0 <= i < |acts| ensures Moves(Config(b), qs[i], moves[i], qs[i + 1]) {
      assert CanAct(b, ss[i], acts[i]) && ss[i + 1] == Perform(b, ss[i], acts[i]);
    }
    ps, pacts := Unstutter(Config(b), qs, moves);
    forall q ensures q in ps <==> exists i :: 0 <= i < |ss| && ss[i].p == q {
      if q in ps {
        var i :| 0 <= i < |qs| && qs[i] == q;
        assert ss[i].p == q;
      }
      if i :| 0 <= i < |ss| && ss[i].p == q {
        assert qs[i] in qs;
      }
    }
  }
}
