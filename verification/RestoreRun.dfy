/**
  One restore pod without in-place restarts: the marker protocol together with what the
  stages do to the scratch directory and to the target database, for the PostgreSQL engine
  (create, or drop and recreate, then psql) and the Redis engine (replace by replication).
*/
module RestoreRun {
  import opened Wrappers
  import opened Artifacts
  import opened DumpFilter
  import opened BackupNames
  import opened Protocol
  import opened ProtocolOrder

  /** What of a target the engine's emptiness test looks at. */
  datatype Shown = Nothing | Loaded(c: Content) | Partial(n: nat)

  /**
    `hidden` stands for what the test does not see, 0 for nothing: in PostgreSQL whatever is no
    table, view, sequence or foreign table, such as functions and types; in Redis the keys of
    all logical databases but the selected one.
  */
  datatype Target = Absent | There(shown: Shown, hidden: nat)

  predicate Visible(t: Target) {
    t.There? && !t.shown.Nothing?
  }

  /**
    `bucket` holds every object below the S3 path under its key relative to that path, nested
    prefixes included; `listing` is the order in which `mc find` prints the keys.
  */
  datatype Setup = Setup(
    redis: bool,
    patterns: Patterns,
    audit: bool,
    bucket: map<string, Content>,
    listing: seq<string>,
    backupFile: string,
    fallback: bool,
    dropAllowed: bool,
    key: string,
    target0: Target)

  datatype Artifact = DumpGzGpg | DumpGz | DumpPlain | DumpFiltered | RedisData

  datatype FetchWork = FetchIdle | Fetching(src: string) | FetchRunning(src: string) | FetchDone
  datatype DecryptWork = DecryptIdle | Decrypting | RemovingGpg | DecryptDone
  datatype ExtractWork = ExtractIdle | Extracting | ExtractDone
  datatype EngineWork =
    | EngineIdle
    | Refused
    | ToCreate
    | ToAlter
    | ToDrop
    | ToRecreate
    | ToFilter
    | ToLoad
    | ToApply
    | Applying
    | ToRemove
    | EngineDone

  /** How fetch.sh came to its object: it is the named one, or the latest of the first `seen` names listed. */
  datatype How = Named | Latest(seen: nat)

  datatype Choice = Choice(src: string, how: How)

  datatype Data = Data(
    files: map<Artifact, Content>,
    target: Target,
    fetch: FetchWork,
    decrypt: DecryptWork,
    extract: ExtractWork,
    engine: EngineWork,
    chosen: Option<Choice>)

  datatype Pod = Pod(p: State, d: Data)

  datatype Act =
    | Proto(a: Action)
    | WipeDumps
    | Choose(choice: Choice)
    | StartFetch(partial: nat)
    | EndFetch
    | StartDecrypt(partial: nat)
    | EndDecrypt
    | RmGpg
    | StartExtract(partial: nat)
    | EndExtract
    | Inspect
    | CreateDb
    | AlterOwner
    | DropDb
    | RecreateDb
    | FilterFiles
    | LoadRedis
    | StartApply(partial: nat)
    | EndApply
    | RmDumps

  const CLEANUP := 0
  const FETCH := 1
  const DECRYPT := 2
  const EXTRACT := 3
  const ENGINE := 4

  const CONFIG := Protocol.Config(5, false, false, true)

  function InitPod(r: Setup): Pod {
    Pod(InitState(CONFIG), Data(map[], r.target0, FetchIdle, DecryptIdle, ExtractIdle, EngineIdle, None))
  }

  function FormatOf(r: Setup): Format {
    if r.redis then Redis else Postgres
  }

  /** The pattern of the engine's archives; `mc find --name` looks at the last part of a key. */
  function Matches(r: Setup): string -> bool {
    n => EngineGlob(FormatOf(r), ".gz.gpg", BaseName(n))
  }

  /**
    fetch.sh may settle on this: the named file, or with the fallback on the latest archive
    listed.  `mc stat` may fail although the named file is there, and a listing that breaks off
    counts as far as it got, since only the exit status of `tail` is looked at.
  */
  ghost predicate Selected(r: Setup, c: Choice) {
    && c.src in r.bucket
    && match c.how
       case Named => r.backupFile != "" && c.src == r.backupFile
       case Latest(seen) => r.fallback && seen <= |r.listing| && IsLatest(r.listing[..seen], Matches(r), c.src)
  }

  /** What the engine is given for an extracted dump. */
  function EngineInput(r: Setup, plain: Content): Content {
    if !r.redis && plain.Raw? then Raw(Filtered(r.patterns, r.audit, plain.lines)) else plain
  }

  predicate WorkDone(d: Data, p: nat) {
    && (p == FETCH ==> d.fetch.FetchDone?)
    && (p == DECRYPT ==> d.decrypt.DecryptDone?)
    && (p == EXTRACT ==> d.extract.ExtractDone?)
    && (p == ENGINE ==> d.engine.EngineDone?)
  }

  predicate Works(s: Pod, p: nat) {
    p < |s.p.pc| && s.p.pc[p].Working?
  }

  /** The stage whose script a data action belongs to. */
  function StageOf(act: Act): nat
    requires !act.Proto?
  {
    match act
    case WipeDumps => CLEANUP
    case Choose(_) => FETCH
    case StartFetch(_) => FETCH
    case EndFetch => FETCH
    case StartDecrypt(_) => DECRYPT
    case EndDecrypt => DECRYPT
    case RmGpg => DECRYPT
    case StartExtract(_) => EXTRACT
    case EndExtract => EXTRACT
    case _ => ENGINE
  }

  ghost predicate CanAct(r: Setup, s: Pod, act: Act) {
    var d := s.d;
    && (!act.Proto? ==> Works(s, StageOf(act)))
    && match act
       case Proto(a) => Enabled(CONFIG, s.p, a) && (a.Step? && a.k.FinishWork? ==> WorkDone(d, a.p))
       case WipeDumps => true
       case Choose(choice) => d.fetch.FetchIdle? && Selected(r, choice)
       case StartFetch(_) => d.fetch.Fetching?
       case EndFetch => d.fetch.FetchRunning? && d.fetch.src in r.bucket
       case StartDecrypt(_) => d.decrypt.DecryptIdle? && DumpGzGpg in d.files
       case EndDecrypt => d.decrypt.Decrypting? && DumpGzGpg in d.files && Decrypt(r.key, d.files[DumpGzGpg]).Some?
       case RmGpg => d.decrypt.RemovingGpg?
       case StartExtract(_) => d.extract.ExtractIdle? && DumpGz in d.files
       case EndExtract => d.extract.Extracting? && DumpGz in d.files && Gunzip(d.files[DumpGz]).Some?
       case Inspect => d.engine.EngineIdle? && DumpPlain in d.files
       case CreateDb => d.engine.ToCreate?
       case AlterOwner => d.engine.ToAlter?
       case DropDb => d.engine.ToDrop?
       case RecreateDb => d.engine.ToRecreate?
       case FilterFiles => d.engine.ToFilter? && DumpPlain in d.files
       case LoadRedis => d.engine.ToLoad? && DumpPlain in d.files
       case StartApply(_) => d.engine.ToApply?
       case EndApply => d.engine.Applying? && (if r.redis then RedisData else DumpFiltered) in d.files
       case RmDumps => d.engine.ToRemove?
  }

  /** The decision after looking at the target. */
  function Decide(r: Setup, t: Target): EngineWork {
    if Visible(t) && !r.dropAllowed then Refused
    else if r.redis then ToLoad
    else match t
      case Absent => ToCreate
      case There(shown, _) => if shown.Nothing? then ToAlter else ToDrop
  }

  /** What is left of the hidden content when loading begins: `REPLICAOF` replaces all logical databases. */
  function Unreplaced(r: Setup, t: Target): nat {
    if r.redis || t.Absent? then 0 else t.hidden
  }

  /** The hidden content a successful run leaves: that of a database found empty and loaded into. */
  function Unseen(r: Setup): nat {
    if !r.redis && r.target0.There? && r.target0.shown.Nothing? then r.target0.hidden else 0
  }

  ghost function ActOn(r: Setup, s: Pod, act: Act): Data
    requires CanAct(r, s, act)
  {
    var d := s.d;
    match act
    case Proto(_) => d
    case WipeDumps => d.(files := map[])
    case Choose(choice) => d.(files := map[], fetch := Fetching(choice.src), chosen := Some(choice))
    case StartFetch(partial) => d.(files := d.files[DumpGzGpg := Junk(partial)], fetch := FetchRunning(d.fetch.src))
    case EndFetch => d.(files := d.files[DumpGzGpg := r.bucket[d.fetch.src]], fetch := FetchDone)
    case StartDecrypt(partial) => d.(files := d.files[DumpGz := Junk(partial)], decrypt := Decrypting)
    case EndDecrypt =>
      d.(files := d.files[DumpGz := Decrypt(r.key, d.files[DumpGzGpg]).value], decrypt := RemovingGpg)
    case RmGpg => d.(files := d.files - {DumpGzGpg}, decrypt := DecryptDone)
    case StartExtract(partial) => d.(files := d.files[DumpPlain := Junk(partial)], extract := Extracting)
    case EndExtract =>
      d.(files := d.files[DumpPlain := Gunzip(d.files[DumpGz]).value] - {DumpGz}, extract := ExtractDone)
    case Inspect => d.(engine := Decide(r, d.target))
    case CreateDb => d.(target := There(Nothing, 0), engine := ToFilter)
    case AlterOwner => d.(engine := ToFilter)
    case DropDb => d.(target := Absent, engine := ToRecreate)
    case RecreateDb => d.(target := There(Nothing, 0), engine := ToFilter)
    case FilterFiles =>
      d.(files := d.files[DumpFiltered := EngineInput(r, d.files[DumpPlain])] - {DumpPlain}, engine := ToApply)
    case LoadRedis => d.(files := d.files[RedisData := d.files[DumpPlain]], engine := ToApply)
    case StartApply(partial) =>
      d.(target := There(Partial(partial), Unreplaced(r, d.target)), engine := Applying)
    case EndApply =>
      var input := d.files[if r.redis then RedisData else DumpFiltered];
      d.(target := There(Loaded(input), Unreplaced(r, d.target)), engine := ToRemove)
    case RmDumps => d.(files := map[], engine := EngineDone)
  }

  ghost function Perform(r: Setup, s: Pod, act: Act): Pod
    requires CanAct(r, s, act)
  {
    Pod(if act.Proto? then Apply(CONFIG, s.p, act.a) else s.p, ActOn(r, s, act))
  }

  ghost predicate IsPodRun(r: Setup, ss: seq<Pod>, acts: seq<Act>) {
    && |ss| == |acts| + 1
    && ss[0] == InitPod(r)
    && forall i :: 0 <= i < |acts| ==> CanAct(r, ss[i], acts[i]) && ss[i + 1] == Perform(r, ss[i], acts[i])
  }

  // ------------------------------------------------------------------ invariant

  predicate Begun(d: Data, p: nat) {
    || (p == FETCH && !d.fetch.FetchIdle?)
    || (p == DECRYPT && !d.decrypt.DecryptIdle?)
    || (p == EXTRACT && !d.extract.ExtractIdle?)
    || (p == ENGINE && !d.engine.EngineIdle?)
  }

  predicate Finished(s: State, p: nat)
    requires p < |s.pc|
  {
    s.pc[p].TouchDone? || s.pc[p].TouchJobDone? || OwnMarker(CONFIG, p) in s.hist
  }

  ghost predicate Linked(s: Pod) {
    && (forall p: nat :: 0 < p && Begun(s.d, p) ==> Done(p - 1) in s.p.hist)
    && (forall p: nat :: p < |s.p.pc| && Finished(s.p, p) ==> WorkDone(s.d, p))
  }

  ghost predicate FilesOk(r: Setup, d: Data) {
    match d.fetch
    case FetchIdle => d.files == map[] && d.chosen.None?
    case Fetching(src) => d.files == map[] && Settled(r, d) && d.chosen.value.src == src
    case FetchRunning(src) => d.files.Keys == {DumpGzGpg} && Settled(r, d) && d.chosen.value.src == src
    case FetchDone => Settled(r, d) && AfterFetch(r, d, r.bucket[d.chosen.value.src])
  }

  ghost predicate Settled(r: Setup, d: Data) {
    d.chosen.Some? && Selected(r, d.chosen.value)
  }

  ghost predicate AfterFetch(r: Setup, d: Data, archive: Content) {
    match d.decrypt
    case DecryptIdle => d.files == map[DumpGzGpg := archive]
    case Decrypting => d.files.Keys == {DumpGzGpg, DumpGz} && d.files[DumpGzGpg] == archive
    case RemovingGpg =>
      && Decrypt(r.key, archive).Some?
      && d.files == map[DumpGzGpg := archive, DumpGz := Decrypt(r.key, archive).value]
    case DecryptDone => Decrypt(r.key, archive).Some? && AfterDecrypt(r, d, Decrypt(r.key, archive).value)
  }

  ghost predicate AfterDecrypt(r: Setup, d: Data, gz: Content) {
    match d.extract
    case ExtractIdle => d.files == map[DumpGz := gz]
    case Extracting => d.files.Keys == {DumpGz, DumpPlain} && d.files[DumpGz] == gz
    case ExtractDone => Gunzip(gz).Some? && AfterExtract(r, d, Gunzip(gz).value)
  }

  ghost predicate AfterExtract(r: Setup, d: Data, plain: Content) {
    match d.engine
    case ToApply => EngineFiles(r, d, plain)
    case Applying => EngineFiles(r, d, plain)
    case ToRemove => EngineFiles(r, d, plain) && d.target == There(Loaded(EngineInput(r, plain)), Unseen(r))
    case EngineDone => d.files == map[] && d.target == There(Loaded(EngineInput(r, plain)), Unseen(r))
    case _ => d.files == map[DumpPlain := plain]
  }

  ghost predicate EngineFiles(r: Setup, d: Data, plain: Content) {
    if r.redis then d.files == map[DumpPlain := plain, RedisData := plain]
    else d.files == map[DumpFiltered := EngineInput(r, plain)]
  }

  /** How far the target may have moved from where it started. */
  ghost predicate TargetOk(r: Setup, d: Data) {
    && (Visible(r.target0) && !r.dropAllowed ==> d.target == r.target0 && (d.engine.EngineIdle? || d.engine.Refused?))
    && match d.engine
       case EngineIdle => d.target == r.target0
       case Refused => d.target == r.target0 && Visible(r.target0) && !r.dropAllowed
       case ToCreate => !r.redis && d.target == r.target0 == Absent
       case ToAlter => !r.redis && d.target == r.target0 == There(Nothing, Unseen(r))
       case ToDrop => !r.redis && d.target == r.target0 && Visible(r.target0)
       case ToRecreate => !r.redis && d.target == Absent && Visible(r.target0)
       case ToFilter => !r.redis && d.target == There(Nothing, Unseen(r))
       case ToLoad => r.redis && d.target == r.target0
       case ToApply => if r.redis then d.target == r.target0 else d.target == There(Nothing, Unseen(r))
       case _ => d.target.There? && d.target.hidden == Unseen(r)
  }

  ghost predicate PodInv(r: Setup, s: Pod) {
    Order(CONFIG, s.p) && Linked(s) && FilesOk(r, s.d) && TargetOk(r, s.d)
  }

  lemma WorkerAlone(r: Setup, s: Pod, p: nat)
    requires PodInv(r, s) && Works(s, p)
    ensures forall q: nat :: p < q ==> !Begun(s.d, q)
    ensures forall q: nat :: q < p ==> WorkDone(s.d, q)
  {
    WorkerState(CONFIG, s.p, p);
    forall q: nat | p < q ensures !Begun(s.d, q) {
      var k: nat := q - 1;
      assert k < CONFIG.n ==> Done(k) !in s.p.hist;
    }
    forall q: nat | q < p ensures WorkDone(s.d, q) {
      assert Done(q) in s.p.hist && Marks(CONFIG, q);
    }
  }

  lemma ProtoKeepsPodInv(r: Setup, s: Pod, a: Action)
    requires PodInv(r, s) && CanAct(r, s, Proto(a))
    ensures PodInv(r, Perform(r, s, Proto(a)))
  {
    OrderStep(CONFIG, s.p, a);
    if a.Step? {
      assert StageOk(CONFIG, s.p, a.p);
    }
  }

  lemma OthersWork(r: Setup, s: Pod, act: Act, q: nat)
    requires !act.Proto? && CanAct(r, s, act)
    ensures q != StageOf(act) ==> (Begun(ActOn(r, s, act), q) <==> Begun(s.d, q))
    ensures q != StageOf(act) ==> (WorkDone(ActOn(r, s, act), q) <==> WorkDone(s.d, q))
  {
  }

  lemma WorkKeepsLinked(r: Setup, s: Pod, act: Act)
    requires PodInv(r, s) && !act.Proto? && CanAct(r, s, act)
    ensures Linked(Perform(r, s, act))
  {
    var p, t := StageOf(act), Perform(r, s, act);
    WorkerState(CONFIG, s.p, p);
    forall q: nat | 0 < q && Begun(t.d, q) ensures Done(q - 1) in t.p.hist {
      OthersWork(r, s, act, q);
    }
    forall q: nat | q < |t.p.pc| && Finished(t.p, q) ensures WorkDone(t.d, q) {
      assert StageOk(CONFIG, s.p, p);
      OthersWork(r, s, act, q);
    }
  }

  lemma FetchKeepsFiles(r: Setup, s: Pod, act: Act)
    requires PodInv(r, s) && !act.Proto? && CanAct(r, s, act) && StageOf(act) <= FETCH
    ensures FilesOk(r, ActOn(r, s, act)) && TargetOk(r, ActOn(r, s, act))
  {
    WorkerAlone(r, s, StageOf(act));
    assert StageOf(act) == CLEANUP ==> !Begun(s.d, FETCH);
    assert !Begun(s.d, DECRYPT) && !Begun(s.d, EXTRACT) && !Begun(s.d, ENGINE);
  }

  lemma DecryptKeepsFiles(r: Setup, s: Pod, act: Act)
    requires PodInv(r, s) && !act.Proto? && CanAct(r, s, act) && StageOf(act) == DECRYPT
    ensures FilesOk(r, ActOn(r, s, act)) && TargetOk(r, ActOn(r, s, act))
  {
    WorkerAlone(r, s, DECRYPT);
    assert WorkDone(s.d, FETCH) && !Begun(s.d, EXTRACT) && !Begun(s.d, ENGINE);
    var archive := r.bucket[s.d.chosen.value.src];
    assert AfterFetch(r, s.d, archive);
    var d := ActOn(r, s, act);
    if act.EndDecrypt? {
      assert d.files == map[DumpGzGpg := archive, DumpGz := Decrypt(r.key, archive).value];
    } else if act.RmGpg? {
      assert d.files == map[DumpGz := Decrypt(r.key, archive).value];
    }
    assert AfterFetch(r, d, archive);
  }

  lemma ExtractKeepsFiles(r: Setup, s: Pod, act: Act)
    requires PodInv(r, s) && !act.Proto? && CanAct(r, s, act) && StageOf(act) == EXTRACT
    ensures FilesOk(r, ActOn(r, s, act)) && TargetOk(r, ActOn(r, s, act))
  {
    WorkerAlone(r, s, EXTRACT);
    assert WorkDone(s.d, FETCH) && WorkDone(s.d, DECRYPT) && !Begun(s.d, ENGINE);
    var gz := Decrypt(r.key, r.bucket[s.d.chosen.value.src]).value;
    var d := ActOn(r, s, act);
    if act.EndExtract? {
      assert d.files == map[DumpPlain := Gunzip(gz).value];
    }
    assert AfterDecrypt(r, d, gz);
  }

  lemma EngineKeepsFiles(r: Setup, s: Pod, act: Act)
    requires PodInv(r, s) && !act.Proto? && CanAct(r, s, act) && StageOf(act) == ENGINE
    ensures FilesOk(r, ActOn(r, s, act)) && TargetOk(r, ActOn(r, s, act))
  {
    WorkerAlone(r, s, ENGINE);
    assert WorkDone(s.d, FETCH) && WorkDone(s.d, DECRYPT) && WorkDone(s.d, EXTRACT);
    var plain := Gunzip(Decrypt(r.key, r.bucket[s.d.chosen.value.src]).value).value;
    assert AfterExtract(r, s.d, plain);
    EngineStep(r, s, act, plain);
  }

  lemma EngineStep(r: Setup, s: Pod, act: Act, plain: Content)
    requires !act.Proto? && CanAct(r, s, act) && StageOf(act) == ENGINE
    requires AfterExtract(r, s.d, plain) && TargetOk(r, s.d)
    ensures AfterExtract(r, ActOn(r, s, act), plain) && TargetOk(r, ActOn(r, s, act))
  {
    var d := ActOn(r, s, act);
    if act.FilterFiles? {
      assert d.files == map[DumpFiltered := EngineInput(r, plain)];
    } else if act.LoadRedis? {
      assert d.files == map[DumpPlain := plain, RedisData := plain];
    }
  }

  lemma PodStep(r: Setup, s: Pod, act: Act)
    requires PodInv(r, s) && CanAct(r, s, act)
    ensures PodInv(r, Perform(r, s, act))
  {
    if act.Proto? {
      ProtoKeepsPodInv(r, s, act.a);
    } else {
      WorkKeepsLinked(r, s, act);
      if StageOf(act) <= FETCH {
        FetchKeepsFiles(r, s, act);
      } else if StageOf(act) == DECRYPT {
        DecryptKeepsFiles(r, s, act);
      } else if StageOf(act) == EXTRACT {
        ExtractKeepsFiles(r, s, act);
      } else {
        EngineKeepsFiles(r, s, act);
      }
    }
  }

  lemma {:induction false} PodInvAlways(r: Setup, ss: seq<Pod>, acts: seq<Act>, i: nat)
    requires IsPodRun(r, ss, acts) && i < |ss|
    ensures PodInv(r, ss[i])
  {
    if i == 0 {
      InitOrder(CONFIG);
    } else {
      PodInvAlways(r, ss, acts, i - 1);
      assert ss[i] == Perform(r, ss[i - 1], acts[i - 1]);
      PodStep(r, ss[i - 1], acts[i - 1]);
    }
  }

  /** The act changes the target: creates, drops, hands over or loads it. */
  predicate Touches(act: Act) {
    act.CreateDb? || act.AlterOwner? || act.DropDb? || act.RecreateDb? || act.StartApply? || act.EndApply?
  }

  /**
    The target is touched only when fetch, decrypt and extract have completed, and if the
    engine's test sees something in it, only if dropping it is allowed.  It is dropped only if
    the test sees something in it, and acts that do not touch it leave it as it is.
  */
  lemma TargetIsSafe(r: Setup, ss: seq<Pod>, acts: seq<Act>, i: nat)
    requires IsPodRun(r, ss, acts) && i < |acts|
    ensures Touches(acts[i]) ==>
              && {Done(CLEANUP), Done(FETCH), Done(DECRYPT), Done(EXTRACT)} <= ss[i].p.markers
              && (Visible(r.target0) ==> r.dropAllowed)
    ensures acts[i].DropDb? ==> Visible(ss[i].d.target) && r.dropAllowed
    ensures !Touches(acts[i]) ==> ss[i + 1].d.target == ss[i].d.target
  {
    PodInvAlways(r, ss, acts, i);
    var s := ss[i];
    assert CanAct(r, s, acts[i]) && ss[i + 1] == Perform(r, s, acts[i]);
    if Touches(acts[i]) {
      WorkerState(CONFIG, s.p, ENGINE);
      assert StageNever(CONFIG, s.p, ENGINE);
      assert !s.p.torn;
    }
  }

  /** A refused restore leaves the target alone for good, and the pod cannot succeed. */
  lemma RefusalIsSafe(r: Setup, ss: seq<Pod>, acts: seq<Act>, i: nat)
    requires IsPodRun(r, ss, acts) && i < |ss|
    requires Visible(r.target0) && !r.dropAllowed
    ensures ss[i].d.target == r.target0
    ensures JobDone !in ss[i].p.hist && Exited(true) !in ss[i].p.pc
  {
    PodInvAlways(r, ss, acts, i);
    var s := ss[i];
    assert Finished(s.p, ENGINE) ==> WorkDone(s.d, ENGINE);
    assert OwnMarker(CONFIG, ENGINE) == JobDone;
    forall p: nat | p < |s.p.pc| ensures s.p.pc[p] != Exited(true) {
      assert StageOk(CONFIG, s.p, p);
    }
  }

  /** What is loaded for an extracted dump: for Redis the dump itself, for PostgreSQL its lines filtered. */
  ghost predicate Delivers(r: Setup, plain: Content, loaded: Content) {
    && (r.redis || !plain.Raw? ==> loaded == plain)
    && (!r.redis && plain.Raw? ==> loaded.Raw? && IsFiltered(r.patterns, r.audit, plain.lines, loaded.lines))
  }

  lemma EngineDelivers(r: Setup, plain: Content)
    ensures Delivers(r, plain, EngineInput(r, plain))
  {
    if !r.redis && plain.Raw? {
      FilteredIsFiltered(r.patterns, r.audit, plain.lines);
    }
  }

  /** The archives `mc find` looks for, by the last part of their keys. */
  predicate OfEngine(r: Setup, key: string) {
    if r.redis then Glob("redisdump-", ".rdb.gz.gpg", BaseName(key))
    else Glob("pg_dump-", ".pgdump.gz.gpg", BaseName(key))
  }

  /** The named file, or with the fallback on the last in byte order of the engine's archives listed so far. */
  ghost predicate ComesFrom(r: Setup, c: Choice) {
    && c.src in r.bucket
    && match c.how
       case Named => c.src == r.backupFile && c.src != ""
       case Latest(seen) =>
         && r.fallback && seen <= |r.listing| && c.src in r.listing[..seen] && OfEngine(r, c.src)
         && forall key :: key in r.listing[..seen] && OfEngine(r, key) ==> LexLeq(key, c.src)
  }

  lemma SelectedIff(r: Setup, c: Choice)
    ensures Selected(r, c) <==> ComesFrom(r, c)
  {
    forall key ensures Matches(r)(key) <==> OfEngine(r, key) {
      PatternsAreSpelled(FormatOf(r), BaseName(key));
    }
  }

  /**
    If any container exits 0, the target shows exactly what the engine makes of the object that
    fetch settled on, decrypted and decompressed, beside what was hidden in a database found empty.
  */
  lemma ExitZeroMeansRestored(r: Setup, ss: seq<Pod>, acts: seq<Act>, i: nat)
    requires IsPodRun(r, ss, acts) && i < |ss|
    requires Exited(true) in ss[i].p.pc
    ensures ss[i].d.chosen.Some? && Selected(r, ss[i].d.chosen.value) && ComesFrom(r, ss[i].d.chosen.value)
    ensures var archive := r.bucket[ss[i].d.chosen.value.src];
            && Decrypt(r.key, archive).Some?
            && Gunzip(Decrypt(r.key, archive).value).Some?
            && ss[i].d.target.There? && ss[i].d.target.shown.Loaded?
            && ss[i].d.target.hidden ==
               (if !r.redis && r.target0.There? && r.target0.shown.Nothing? then r.target0.hidden else 0)
            && Delivers(r, Gunzip(Decrypt(r.key, archive).value).value, ss[i].d.target.shown.c)
  {
    PodInvAlways(r, ss, acts, i);
    var s := ss[i];
    var p: nat :| p < |s.p.pc| && s.p.pc[p] == Exited(true);
    assert StageOk(CONFIG, s.p, p);
    assert forall q: nat :: q < 5 && Marks(CONFIG, q) ==> Done(q) in s.p.hist;
    assert Marks(CONFIG, FETCH) && Marks(CONFIG, DECRYPT) && Marks(CONFIG, EXTRACT);
    assert OwnMarker(CONFIG, ENGINE) == JobDone;
    assert Finished(s.p, FETCH) && Finished(s.p, DECRYPT) && Finished(s.p, EXTRACT) && Finished(s.p, ENGINE);
    assert WorkDone(s.d, FETCH) && WorkDone(s.d, DECRYPT) && WorkDone(s.d, EXTRACT) && WorkDone(s.d, ENGINE);
    EngineDelivers(r, Gunzip(Decrypt(r.key, r.bucket[s.d.chosen.value.src]).value).value);
    SelectedIff(r, s.d.chosen.value);
  }

  /** Every pod run is a run of the marker protocol, with some steps where the protocol stands still. */
  lemma PodRunRefinesProtocol(r: Setup, ss: seq<Pod>, acts: seq<Act>) returns (ps: seq<State>, pacts: seq<Action>)
    requires IsPodRun(r, ss, acts)
    ensures IsRun(CONFIG, ps, pacts) && ps[|ps| - 1] == ss[|ss| - 1].p
    ensures forall q :: q in ps <==> exists i :: 0 <= i < |ss| && ss[i].p == q
  {
    var qs := seq(|ss|, i requires 0 <= i < |ss| => ss[i].p);
    var moves := seq(|acts|, i requires 0 <= i < |acts| => if acts[i].Proto? then Some(acts[i].a) else None);
    forall i | 0 <= i < |acts| ensures Moves(CONFIG, qs[i], moves[i], qs[i + 1]) {
      assert CanAct(r, ss[i], acts[i]) && ss[i + 1] == Perform(r, ss[i], acts[i]);
    }
    ps, pacts := Unstutter(CONFIG, qs, moves);
    forall q ensures q in ps <==> exists i :: 0 <= i < |ss| && ss[i].p == q {
      if q in ps {
        var i :| 0 <= i < |qs| && qs[i] == q;
        assert ss[i].p == q;
      }
      if i :| 0 <= i < |ss| && ss[i].p == q {
        assert qs[i] in qs;
      }
    }
  }
}
