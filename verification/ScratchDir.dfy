/** Whether the stages of a pod see each other's markers: paths, mounts and what covers them. */
module ScratchDir {
  import opened SourcePath
  import opened OwnedNames
  import opened PodSpec
  import opened PodLaws

  predicate Rooted(p: string) {
    p != "" && p[0] == '/'
  }

  /** The segments a path leads to from a working directory. */
  function Resolve(cwd: seq<string>, p: string): seq<string> {
    CleanSegments(Split(p, '/'), if Rooted(p) then [] else cwd, true)
  }

  /** Where a mount sits; mount paths are taken from the root. */
  function At(m: Mount): seq<string> {
    Resolve([], Path(m.path))
  }

  function Places(mounts: seq<Mount>): seq<seq<string>> {
    seq(|mounts|, j requires 0 <= j < |mounts| => At(mounts[j]))
  }

  /** Mount `j` decides what a path leads to: it is the deepest one at or above it, the last among equals. */
  predicate Decides(places: seq<seq<string>>, to: seq<string>, j: nat) {
    && j < |places| && places[j] <= to
    && forall k :: 0 <= k < |places| && places[k] <= to ==>
         |places[k]| < |places[j]| || (|places[k]| == |places[j]| && k <= j)
  }

  /** The container sees the directory on the volume. */
  ghost predicate Sees(c: Container, volume: VolumeName, to: seq<string>) {
    exists j: nat :: j < |c.mounts| && Decides(Places(c.mounts), to, j) && c.mounts[j].volume == volume
  }

  predicate IsDirectory(cwd: seq<string>) {
    forall k :: 0 <= k < |cwd| ==> Proper(cwd[k])
  }

  /** Whatever working directories their images have, all containers see the directory on the volume. */
  ghost predicate SharesScratch(cs: seq<Container>, volume: VolumeName, dir: string) {
    forall i, cwd :: 0 <= i < |cs| && IsDirectory(cwd) ==> Sees(cs[i], volume, Resolve(cwd, dir))
  }

  // ------------------------------------------------------------------ paths

  /** An absolute path by its segments. */
  lemma ResolveParts(p: string, parts: seq<string>)
    requires parts != [] && (forall i :: 0 <= i < |parts| ==> '/' !in parts[i]) && p == "/" + Join(parts, '/')
    ensures Rooted(p) && Resolve([], p) == CleanSegments(parts, [], true)
  {
    assert p == "" + ['/'] + Join(parts, '/');
    SplitHead("", Join(parts, '/'), '/');
    SplitJoin(parts, '/');
    assert Split(p, '/') == [""] + parts && ([""] + parts)[1..] == parts;
  }

  lemma ResolveProper(p: string, parts: seq<string>)
    requires parts != [] && IsDirectory(parts) && p == "/" + Join(parts, '/')
    ensures Resolve([], p) == parts
  {
    ResolveParts(p, parts);
    ProperSegmentsAreClean(parts, [], true);
    assert [] + parts == parts;
  }

  const DATA := ["backup", "data"]
  const TMP := ["tmp"]
  const GPG := ["run", "secrets", "gpg"]
  const SOURCE := ["source"]

  lemma DataAt()
    ensures Resolve([], Path(MountData)) == DATA
  {
    assert DATA[1..] == ["data"] && "/backup/data" == "/" + ("backup" + ['/'] + "data");
    ResolveProper(Path(MountData), DATA);
  }

  lemma TmpAt()
    ensures Resolve([], Path(MountTmp)) == TMP
  {
    ResolveProper(Path(MountTmp), TMP);
  }

  lemma SourceAt()
    ensures Resolve([], Path(MountSource)) == SOURCE
  {
    ResolveProper(Path(MountSource), SOURCE);
  }

  lemma GpgAt()
    ensures Resolve([], Path(MountGpg)) == GPG
  {
    GpgWords();
    ResolveProper(Path(MountGpg), GPG);
  }

  lemma GpgWords()
    ensures "/run/secrets/gpg" == "/" + Join(GPG, '/') && IsDirectory(GPG)
  {
    assert GPG[1..] == ["secrets", "gpg"] && ["secrets", "gpg"][1..] == ["gpg"];
    assert Join(["secrets", "gpg"], '/') == "secrets" + ['/'] + "gpg";
  }

  /** Cleaning takes back at most one segment per segment, so a deep enough bottom stays. */
  lemma {:induction false} CleanKeepsBottom(segs: seq<string>, done: seq<string>)
    requires |segs| < |done|
    ensures CleanSegments(segs, done, true) != [] && CleanSegments(segs, done, true)[0] == done[0]
    decreases |segs|
  {
    if segs != [] {
      if segs[0] == "" || segs[0] == "." {
        CleanKeepsBottom(segs[1..], done);
      } else if segs[0] == ".." {
        CleanKeepsBottom(segs[1..], if done[|done| - 1] != ".." then done[..|done| - 1] else done);
      } else {
        CleanKeepsBottom(segs[1..], done + [segs[0]]);
      }
    }
  }

  /** From deep enough below `top`, a relative path stays below it. */
  lemma StaysBelow(dir: string, top: string) returns (cwd: seq<string>)
    requires !Rooted(dir) && Proper(top)
    ensures IsDirectory(cwd) && [top] <= Resolve(cwd, dir)
  {
    cwd := seq(|Split(dir, '/')| + 1, _ => top);
    CleanKeepsBottom(Split(dir, '/'), cwd);
  }

  // ------------------------------------------------------------------ cleaning a path

  lemma {:induction false} CleanAppend(a: seq<string>, b: seq<string>, done: seq<string>, rooted: bool)
    ensures CleanSegments(a + b, done, rooted) == CleanSegments(b, CleanSegments(a, done, rooted), rooted)
    decreases |a|
  {
    if a == [] {
      assert a + b == b;
    } else {
      assert (a + b)[1..] == a[1..] + b;
      if a[0] == "" || a[0] == "." {
        CleanAppend(a[1..], b, done, rooted);
      } else if a[0] == ".." && done != [] && done[|done| - 1] != ".." {
        CleanAppend(a[1..], b, done[..|done| - 1], rooted);
      } else if a[0] == ".." && rooted {
        CleanAppend(a[1..], b, done, rooted);
      } else {
        CleanAppend(a[1..], b, done + [a[0]], rooted);
      }
    }
  }

  predicate Tidy(segs: seq<string>) {
    forall i :: 0 <= i < |segs| ==> segs[i] == ".." || Proper(segs[i])
  }

  /** Cleaning from the root leaves ordinary segments, cleaning a relative path also `..`. */
  lemma {:induction false} CleaningTidies(segs: seq<string>, done: seq<string>, rooted: bool)
    requires (forall i :: 0 <= i < |segs| ==> '/' !in segs[i]) && Tidy(done) && (rooted ==> IsDirectory(done))
    ensures Tidy(CleanSegments(segs, done, rooted)) && (rooted ==> IsDirectory(CleanSegments(segs, done, rooted)))
    decreases |segs|
  {
    if segs != [] {
      if segs[0] == "" || segs[0] == "." {
        CleaningTidies(segs[1..], done, rooted);
      } else if segs[0] == ".." && done != [] && done[|done| - 1] != ".." {
        CleaningTidies(segs[1..], done[..|done| - 1], rooted);
      } else if segs[0] == ".." && rooted {
        CleaningTidies(segs[1..], done, rooted);
      } else {
        CleaningTidies(segs[1..], done + [segs[0]], rooted);
      }
    }
  }

  /** To clean a relative path first and then to walk it is to walk it. */
  lemma {:induction false} CleanedWalk(segs: seq<string>, done: seq<string>, cwd: seq<string>)
    requires (forall i :: 0 <= i < |segs| ==> '/' !in segs[i]) && Tidy(done)
    ensures CleanSegments(CleanSegments(segs, done, false), cwd, true) == CleanSegments(done + segs, cwd, true)
    decreases |segs|
  {
    if segs == [] {
      assert done + segs == done;
    } else {
      var rest := segs[1..];
      CleanAppend(done, segs, cwd, true);
      if segs[0] == "" || segs[0] == "." {
        CleanedWalk(rest, done, cwd);
        CleanAppend(done, rest, cwd, true);
      } else if segs[0] == ".." && done != [] && done[|done| - 1] != ".." {
        var n := |done| - 1;
        CleanedWalk(rest, done[..n], cwd);
        CleanAppend(done[..n], rest, cwd, true);
        StepDown(done[..n], done[n], cwd);
        assert done[..n] + [done[n]] == done;
      } else {
        CleanedWalk(rest, done + [segs[0]], cwd);
        assert done + [segs[0]] + rest == done + segs;
      }
    }
  }

  lemma StepDown(segs: seq<string>, name: string, cwd: seq<string>)
    requires Proper(name)
    ensures CleanSegments(segs + [name], cwd, true) == CleanSegments(segs, cwd, true) + [name]
  {
    CleanAppend(segs, [name], cwd, true);
    var d := CleanSegments(segs, cwd, true);
    assert [name][1..] == [];
    assert CleanSegments([name], d, true) == CleanSegments([], d + [name], true);
  }

  lemma DotStays(cwd: seq<string>)
    ensures Resolve(cwd, ".") == cwd && Resolve(cwd, "") == cwd
  {
    SplitPlain(".", '/');
    SplitPlain("", '/');
    assert ["."][1..] == [] && [""][1..] == [];
  }

  lemma SlashIsRoot(cwd: seq<string>)
    ensures Resolve(cwd, "/") == []
  {
    SplitHead("", "", '/');
    SplitPlain("", '/');
    assert "" + ['/'] + "" == "/";
    assert Split("/", '/') == ["", ""] && ["", ""][1..] == [""] && [""][1..] == [];
  }

  /** A cleaned path leads where the path leads, from every directory. */
  lemma CleanLeadsThere(cwd: seq<string>, p: string)
    requires IsDirectory(cwd)
    ensures Resolve(cwd, Clean(p)) == Resolve(cwd, p)
  {
    var q := Clean(p);
    if p == "" {
      DotStays(cwd);
    } else if Rooted(p) {
      var segs := CleanSegments(Split(p, '/'), [], true);
      CleaningTidies(Split(p, '/'), [], true);
      if segs == [] {
        assert q == "/";
        SlashIsRoot(cwd);
      } else {
        ResolveProper(q, segs);
      }
    } else {
      var segs := CleanSegments(Split(p, '/'), [], false);
      CleaningTidies(Split(p, '/'), [], false);
      CleanedWalk(Split(p, '/'), [], cwd);
      assert [] + Split(p, '/') == Split(p, '/');
      if segs == [] {
        DotStays(cwd);
      } else {
        SplitJoin(segs, '/');
        JoinHead(segs, '/');
        assert segs[0] == ".." || Proper(segs[0]);
      }
    }
  }

  /** What a PVC backup reads below its mount is what the spec's path names there. */
  lemma SubPathLeadsThere(cwd: seq<string>, p: string)
    requires IsDirectory(cwd)
    ensures Resolve(cwd, SourceSubPath(p)) == Resolve(cwd, p)
    ensures SourceSubPath(p) != "."
  {
    CleanLeadsThere(cwd, p);
    DotStays(cwd);
  }

  // ------------------------------------------------------------------ standard containers

  /** Where the mounts of a script other than the scratch one sit. */
  function Others(s: Script): seq<seq<string>> {
    [TMP] + (if s.Encrypt? || s.DecryptDump? then [GPG] else []) + (if s.PvcDump? then [SOURCE] else [])
  }

  lemma StandardPlaces(s: Script, kit: Kit)
    ensures Places(Standard(s, kit).mounts) == [At(kit.scratch)] + Others(s)
  {
    var ms, places := Standard(s, kit).mounts, [At(kit.scratch)] + Others(s);
    forall j | 0 <= j < |ms| ensures At(ms[j]) == places[j] {
      if j > 0 {
        MountSits(s, ms[j], j);
      }
    }
  }

  lemma OthersAt(s: Script, j: nat)
    requires 0 < j <= |Others(s)|
    ensures Others(s)[j - 1] == if j == 1 then TMP else if s.PvcDump? then SOURCE else GPG
  {
  }

  lemma MountSits(s: Script, m: Mount, j: nat)
    requires 0 < j <= |Others(s)|
    requires m.path == if j == 1 then MountTmp else if s.PvcDump? then MountSource else MountGpg
    ensures At(m) == Others(s)[j - 1]
  {
    OthersAt(s, j);
    if j == 1 {
      TmpAt();
    } else if s.PvcDump? {
      SourceAt();
    } else {
      GpgAt();
    }
  }

  /** A directory below a mount is seen through it unless another mount above it is at least as deep. */
  predicate Uncovered(at: seq<string>, others: seq<seq<string>>, to: seq<string>) {
    at <= to && forall k :: 0 <= k < |others| && others[k] <= to ==> |others[k]| < |at|
  }

  lemma FirstDecides(at: seq<string>, others: seq<seq<string>>, to: seq<string>)
    ensures Decides([at] + others, to, 0) <==> Uncovered(at, others, to)
  {
    var places := [at] + others;
    assert forall k :: 0 <= k < |others| ==> places[k + 1] == others[k];
    assert forall k :: 1 <= k < |places| ==> places[k] == others[k - 1];
  }

  lemma StandardSees(s: Script, kit: Kit, at: seq<string>, to: seq<string>)
    requires kit.scratch.volume == DataVolume || kit.scratch.volume == WorkVolume
    requires at == At(kit.scratch)
    ensures Sees(Standard(s, kit), kit.scratch.volume, to) <==> Uncovered(at, Others(s), to)
  {
    var c := Standard(s, kit);
    StandardPlaces(s, kit);
    FirstDecides(at, Others(s), to);
    assert c.mounts[0] == kit.scratch;
    assert forall k :: 1 <= k < |c.mounts| ==> c.mounts[k].volume != kit.scratch.volume;
  }

  lemma OneIsBlind(cs: seq<Container>, i: nat, volume: VolumeName, cwd: seq<string>, dir: string)
    requires i < |cs| && IsDirectory(cwd) && !Sees(cs[i], volume, Resolve(cwd, dir))
    ensures !SharesScratch(cs, volume, dir)
  {
  }

  // ------------------------------------------------------------------ backup pods

  /** The fixed mounts are in different top-level directories. */
  lemma Apart()
    ensures DATA[0] != TMP[0] && DATA[0] != GPG[0] && DATA[0] != SOURCE[0]
    ensures |TMP| == 1 && |GPG| == 3 && |SOURCE| == 1 && |DATA| == 2
  {
    assert TMP[0][0] == 't' && GPG[0][0] == 'r' && SOURCE[0][0] == 's' && DATA[0][0] == 'b';
  }

  lemma NothingCoversData(s: Script, to: seq<string>)
    ensures Uncovered(DATA, Others(s), to) <==> DATA <= to
  {
    Apart();
    assert forall k :: 0 <= k < |Others(s)| ==> Others(s)[k] != [] && Others(s)[k][0] != DATA[0];
  }

  lemma BackupSees(s: Script, b: Backup, to: seq<string>)
    ensures Sees(Standard(s, BackupKit(b)), DataVolume, to) <==> DATA <= to
  {
    DataAt();
    StandardSees(s, BackupKit(b), DATA, to);
    NothingCoversData(s, to);
  }

  /** A working directory from which a relative path does not lead below /backup/data. */
  lemma NotBelowData(dir: string) returns (cwd: seq<string>)
    requires !(Rooted(dir) && DATA <= Resolve([], dir))
    ensures IsDirectory(cwd) && !(DATA <= Resolve(cwd, dir))
  {
    if Rooted(dir) {
      cwd := [];
    } else {
      cwd := StaysBelow(dir, "q");
      assert DATA[0][0] == 'b' && "q"[0] == 'q';
    }
  }

  /**
    The stages of a backup pod share their markers exactly if spec.dataDir is unset, or is an
    absolute path that leads to or below /backup/data once it is cleaned: the volume is mounted
    at that fixed path.
  */
  lemma BackupScratchIsShared(b: Backup)
    ensures SharesScratch(BackupPod(b).containers, DataVolume, BackupDir(b)) <==>
            b.c.dataDir == "" || (Rooted(b.c.dataDir) && DATA <= Resolve([], b.c.dataDir))
  {
    var cs, dir := BackupContainers(b), BackupDir(b);
    BackupIsStandard(b);
    DataAt();
    if Rooted(dir) && DATA <= Resolve([], dir) {
      forall i, cwd: seq<string> | 0 <= i < |cs| ensures Sees(cs[i], DataVolume, Resolve(cwd, dir)) {
        BackupSees(BackupScripts(b)[i], b, Resolve(cwd, dir));
      }
    } else {
      var cwd := NotBelowData(dir);
      BackupSees(BackupScripts(b)[0], b, Resolve(cwd, dir));
      OneIsBlind(cs, 0, DataVolume, cwd, dir);
    }
  }

  /** A path that begins with the mount point and leaves the volume again. */
  lemma DataDirLeaves(b: Backup)
    requires b.c.dataDir == "/" + Join(["backup", "data", "..", "x"], '/')
    ensures !SharesScratch(BackupPod(b).containers, DataVolume, BackupDir(b))
  {
    var parts := ["backup", "data", "..", "x"];
    BackupScratchIsShared(b);
    ResolveParts(b.c.dataDir, parts);
    assert parts[1..] == ["data", "..", "x"] && parts[1..][1..] == ["..", "x"] && ["..", "x"][1..] == ["x"];
    assert CleanSegments(["x"], ["backup"], true) == ["backup", "x"];
    assert CleanSegments(["..", "x"], ["backup", "data"], true) == ["backup", "x"];
    assert DATA[1][0] == 'd' && ["backup", "x"][1][0] == 'x';
  }

  // ------------------------------------------------------------------ restore pods

  /** What covers the work directory of a restore stage. */
  lemma WorkdirCovered(s: Script, at: seq<string>)
    requires s in [RestoreCleanup, Fetch, DecryptDump, Extract] || IsEngine(s)
    ensures Uncovered(at, Others(s), at) ==> at != TMP
    ensures s.DecryptDump? && Uncovered(at, Others(s), at) ==> at != GPG
    ensures at != TMP && at != GPG ==> Uncovered(at, Others(s), at)
  {
    Apart();
    assert Others(s)[0] == TMP && (s.DecryptDump? ==> Others(s)[1] == GPG);
    assert forall k :: 0 <= k < |Others(s)| ==> Others(s)[k] == TMP || Others(s)[k] == GPG;
    assert TMP <= at && |TMP| >= |at| ==> at == TMP;
    assert GPG <= at && |GPG| >= |at| ==> at == GPG;
  }

  lemma AbsoluteShares(cs: seq<Container>, scripts: seq<Script>, kit: Kit, dir: string, at: seq<string>)
    requires AllStandard(cs, scripts, kit) && |cs| == 5 && scripts[2] == DecryptDump
    requires forall s :: s in scripts ==> s in [RestoreCleanup, Fetch, DecryptDump, Extract] || IsEngine(s)
    requires kit.scratch == Mount(WorkVolume, MountAt(dir), false) && Rooted(dir) && at == Resolve([], dir)
    ensures SharesScratch(cs, WorkVolume, dir) <==> at != TMP && at != GPG
  {
    if at != TMP && at != GPG {
      forall i, cwd: seq<string> | 0 <= i < |cs| ensures Sees(cs[i], WorkVolume, Resolve(cwd, dir)) {
        StandardSees(scripts[i], kit, at, at);
        WorkdirCovered(scripts[i], at);
      }
    } else {
      StandardSees(scripts[2], kit, at, at);
      WorkdirCovered(scripts[2], at);
      OneIsBlind(cs, 2, WorkVolume, [], dir);
    }
  }

  /** A relative one is not shared: from some working directories it leads elsewhere, or below /tmp. */
  lemma RelativeIsNotShared(cs: seq<Container>, scripts: seq<Script>, kit: Kit, dir: string, at: seq<string>)
    requires AllStandard(cs, scripts, kit) && cs != []
    requires kit.scratch == Mount(WorkVolume, MountAt(dir), false) && !Rooted(dir) && at == Resolve([], dir)
    ensures !SharesScratch(cs, WorkVolume, dir)
  {
    var top := if at == [] then "tmp" else if at[0] == "q" then "p" else "q";
    var cwd := StaysBelow(dir, top);
    StandardSees(scripts[0], kit, at, Resolve(cwd, dir));
    BelowAnother(scripts[0], at, top, Resolve(cwd, dir));
    OneIsBlind(cs, 0, WorkVolume, cwd, dir);
  }

  lemma BelowAnother(s: Script, at: seq<string>, top: string, to: seq<string>)
    requires [top] <= to && (if at == [] then top == "tmp" else at[0] != top)
    ensures !Uncovered(at, Others(s), to)
  {
    assert Others(s)[0] == TMP == ["tmp"];
  }

  /**
    A restore pod mounts its volume where spec.workdir says.  Its stages share their markers
    exactly if that is unset, or absolute and, cleaned, neither /tmp nor /run/secrets/gpg: there
    a later mount of the container covers the volume.
  */
  lemma RestoreScratchIsShared(r: Restore)
    ensures SharesScratch(RestorePod(r).containers, WorkVolume, RestoreDir(r)) <==>
            || r.c.dataDir == ""
            || (Rooted(r.c.dataDir) && Resolve([], r.c.dataDir) != TMP && Resolve([], r.c.dataDir) != GPG)
  {
    var cs, dir := RestoreContainers(r), RestoreDir(r);
    RestoreIsStandard(r);
    RestoreScriptsFit(r);
    DefaultIsFine();
    if Rooted(dir) {
      AbsoluteShares(cs, RestoreScripts(r), RestoreKit(r), dir, Resolve([], dir));
    } else {
      RelativeIsNotShared(cs, RestoreScripts(r), RestoreKit(r), dir, Resolve([], dir));
    }
  }

  lemma RestoreScriptsFit(r: Restore)
    ensures RestoreScripts(r)[2] == DecryptDump
    ensures forall s :: s in RestoreScripts(r) ==> s in [RestoreCleanup, Fetch, DecryptDump, Extract] || IsEngine(s)
  {
  }

  lemma DefaultIsFine()
    ensures Rooted(DEFAULT_WORKDIR) && Resolve([], DEFAULT_WORKDIR) != TMP && Resolve([], DEFAULT_WORKDIR) != GPG
  {
    ResolveProper(DEFAULT_WORKDIR, ["workdir"]);
    assert TMP[0][0] == 't' && GPG[0][0] == 'r' && "workdir"[0] == 'w';
  }

  /** A work directory that is /tmp in another spelling, which the API accepts beside the mount of /tmp. */
  lemma WorkdirIsCovered(r: Restore)
    requires r.c.dataDir == "/" + Join(["tmp", ""], '/')
    ensures !SharesScratch(RestorePod(r).containers, WorkVolume, RestoreDir(r))
  {
    RestoreScratchIsShared(r);
    ResolveParts(r.c.dataDir, ["tmp", ""]);
    assert ["tmp", ""][1..] == [""] && [""][1..] == [];
    assert CleanSegments([""], ["tmp"], true) == TMP;
  }
}
