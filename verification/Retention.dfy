/**
  The data volume over many backup runs: what cleanup.sh prunes and removes, what encrypt.sh
  adds to `retained/`, and hence which archives the directory holds after any history.
*/
module Retention {
  import opened Artifacts
  import opened BackupNames

  const DAY := 86400
  const RETAINED := "retained"
  const LOGS := "logs"
  const LOST_FOUND := "lost+found"
  const ROOT := "."

  datatype File = File(content: Content, mtime: int)

  type Dir = map<string, File>

  /** The volume: files at its root and its top-level directories.  Markers are not files here. */
  datatype Tree = Tree(files: Dir, dirs: map<string, Dir>)

  /**
    One cleanup: the pod, the time, the settings it reads from its environment, and what goes
    wrong.  `failing` are the files whose `rm` fails, by directory and name; `leftovers` the
    directories whose `rm -rf` fails, with what is left of them.  The script carries on.
  */
  datatype Sweep = Sweep(
    host: string, now: int, keep: nat, format: Format, logs: bool,
    failing: set<(string, string)>, leftovers: map<string, Dir>)

  /** `-mtime +keep`: whole days of age, rounded down, exceed `keep`. */
  predicate Expired(w: Sweep, f: File) {
    (w.now - f.mtime) / DAY > w.keep
  }

  predicate IsArchive(f: Format, name: string) {
    EngineGlob(f, ".gz.gpg", name)
  }

  /** The archive name of any engine. */
  predicate IsAnyArchive(name: string) {
    IsArchive(Postgres, name) || IsArchive(MariaDB, name) || IsArchive(Redis, name) || IsArchive(Volume, name)
  }

  predicate IsLog(name: string) {
    Glob("", ".log", name)
  }

  /** What `find | while read f; rm` leaves of a directory. */
  function Pruned(w: Sweep, dir: string, matches: string -> bool, d: Dir): Dir {
    map n | n in d && !(matches(n) && Expired(w, d[n]) && (dir, n) !in w.failing) :: d[n]
  }

  /** Directories the scratch removal spares. */
  predicate Spared(w: Sweep, dir: string) {
    dir == w.host || dir == RETAINED || dir == LOGS || dir == LOST_FOUND
  }

  /** The patterns under which an expired file of a directory is removed. */
  predicate Doomed(w: Sweep, dir: string, name: string) {
    if dir == RETAINED then IsArchive(w.format, name)
    else (dir == LOGS && w.logs && IsLog(name)) || (dir != w.host && IsAnyArchive(name))
  }

  /** The directories `mkdir -p` makes on the way. */
  function Made(w: Sweep, dirs: map<string, Dir>): map<string, Dir> {
    var want := {w.host, RETAINED} + if w.logs then {LOGS} else {};
    dirs + map d | d in want && d !in dirs :: map[]
  }

  /** The files a `find` prints. */
  function Found(w: Sweep, matches: string -> bool, d: Dir): set<string> {
    set n | n in d && matches(n) && Expired(w, d[n])
  }

  /** Those of them that go. */
  function Removed(w: Sweep, dir: string, found: set<string>): set<string> {
    set n | n in found && (dir, n) !in w.failing
  }

  lemma WithoutFound(w: Sweep, dir: string, matches: string -> bool, d: Dir)
    ensures d - Removed(w, dir, Found(w, matches, d)) == Pruned(w, dir, matches, d)
  {
  }

  lemma OneLess(w: Sweep, dir: string, d: Dir, found: set<string>, todo: set<string>, f: string)
    requires f in todo && todo <= found
    ensures d - Removed(w, dir, found - (todo - {f})) ==
            (d - Removed(w, dir, found - todo)) - if (dir, f) in w.failing then {} else {f}
  {
  }

  /** The directories the last `find` prints. */
  function Scratch(w: Sweep, dirs: map<string, Dir>): set<string> {
    set d | d in dirs && !Spared(w, d)
  }

  /** The directories when those of `todo` have not had their turn yet. */
  function WithScratch(w: Sweep, dirs: map<string, Dir>, todo: set<string>): map<string, Dir> {
    map d | d in dirs && (d in todo || Stays(w, d)) :: if d in todo || Spared(w, d) then dirs[d] else w.leftovers[d]
  }

  lemma OneScratchLess(w: Sweep, dirs: map<string, Dir>, todo: set<string>, d: string)
    requires d in todo && d in dirs && !Spared(w, d)
    ensures WithScratch(w, dirs, todo - {d}) ==
            if d in w.leftovers then WithScratch(w, dirs, todo)[d := w.leftovers[d]]
            else WithScratch(w, dirs, todo) - {d}
  {
  }

  lemma NoScratchLeft(w: Sweep, dirs: map<string, Dir>)
    ensures WithScratch(w, dirs, {}) == ScratchRemoved(w, dirs)
  {
  }

  lemma MadeOneByOne(w: Sweep, dirs: map<string, Dir>, made: map<string, Dir>)
    requires forall d :: d in made <==> d in dirs || d == w.host || d == RETAINED || (w.logs && d == LOGS)
    requires forall d :: d in made ==> made[d] == if d in dirs then dirs[d] else map[]
    ensures made == Made(w, dirs)
  {
  }

  /** Pruning first by one pattern and then by another is pruning by either. */
  lemma PrunedTwice(w: Sweep, dir: string, p: string -> bool, q: string -> bool, r: string -> bool, d: Dir)
    requires forall n :: r(n) <==> p(n) || q(n)
    ensures Pruned(w, dir, p, Pruned(w, dir, q, d)) == Pruned(w, dir, r, d)
  {
  }

  lemma PrunedBySame(w: Sweep, dir: string, p: string -> bool, q: string -> bool, d: Dir)
    requires forall n :: p(n) <==> q(n)
    ensures Pruned(w, dir, p, d) == Pruned(w, dir, q, d)
  {
  }

  lemma PrunedByNone(w: Sweep, dir: string, p: string -> bool, d: Dir)
    requires forall n :: !p(n)
    ensures Pruned(w, dir, p, d) == d
  {
  }

  /** What the pruning steps make of one directory. */
  lemma DirFate(w: Sweep, dir: string, d: Dir, logged: Dir, pruned: Dir, strayed: Dir)
    requires logged == if dir == LOGS && w.logs then Pruned(w, dir, IsLog, d) else d
    requires pruned == if dir == RETAINED then Pruned(w, dir, n => IsArchive(w.format, n), logged) else logged
    requires strayed == if dir == w.host || dir == RETAINED then pruned else Pruned(w, dir, IsAnyArchive, pruned)
    ensures strayed == Pruned(w, dir, n => Doomed(w, dir, n), d)
  {
    var doomed := n => Doomed(w, dir, n);
    assert LOGS[0] != RETAINED[0];
    if dir == RETAINED {
      PrunedBySame(w, dir, n => IsArchive(w.format, n), doomed, d);
    } else if dir == w.host {
      if dir == LOGS && w.logs {
        PrunedBySame(w, dir, IsLog, doomed, d);
      } else {
        PrunedByNone(w, dir, doomed, d);
      }
    } else if dir == LOGS && w.logs {
      PrunedTwice(w, dir, IsAnyArchive, IsLog, doomed, d);
    } else {
      PrunedBySame(w, dir, IsAnyArchive, doomed, d);
    }
  }

  function LogsPruned(w: Sweep, dirs: map<string, Dir>): map<string, Dir> {
    if w.logs && LOGS in dirs then dirs[LOGS := Pruned(w, LOGS, IsLog, dirs[LOGS])] else dirs
  }

  function RetainedPruned(w: Sweep, dirs: map<string, Dir>): map<string, Dir> {
    if RETAINED in dirs then
      dirs[RETAINED := Pruned(w, RETAINED, n => IsArchive(w.format, n), dirs[RETAINED])] else dirs
  }

  function StraysPruned(w: Sweep, dirs: map<string, Dir>): map<string, Dir> {
    PrunedIn(w, Elsewhere(w, dirs), dirs)
  }

  /** The directories the stray `find` does not prune from its walk. */
  function Elsewhere(w: Sweep, dirs: map<string, Dir>): set<string> {
    set d | d in dirs && d != w.host && d != RETAINED
  }

  function PrunedIn(w: Sweep, which: set<string>, dirs: map<string, Dir>): map<string, Dir> {
    map d | d in dirs :: if d in which then Pruned(w, d, IsAnyArchive, dirs[d]) else dirs[d]
  }

  lemma PrunedInOneMore(w: Sweep, which: set<string>, dirs: map<string, Dir>, d: string)
    requires d in dirs && d !in which
    ensures var was := PrunedIn(w, which, dirs);
            was[d := Pruned(w, d, IsAnyArchive, was[d])] == PrunedIn(w, which + {d}, dirs)
  {
  }

  lemma DirsFate(w: Sweep, dirs: map<string, Dir>, d: string)
    requires d in dirs
    ensures var strayed := StraysPruned(w, RetainedPruned(w, LogsPruned(w, dirs)));
            d in strayed && strayed[d] == Pruned(w, d, n => Doomed(w, d, n), dirs[d])
  {
    var logged := LogsPruned(w, dirs);
    var pruned := RetainedPruned(w, logged);
    DirFate(w, d, dirs[d], logged[d], pruned[d], StraysPruned(w, pruned)[d]);
  }

  /** What the directories come to: the spared ones pruned, and what could not be removed. */
  function SweptDirs(w: Sweep, dirs: map<string, Dir>): map<string, Dir> {
    map d | d in dirs && Stays(w, d) ::
      if Spared(w, d) then Pruned(w, d, n => Doomed(w, d, n), dirs[d]) else w.leftovers[d]
  }

  predicate Stays(w: Sweep, dir: string) {
    Spared(w, dir) || dir in w.leftovers
  }

  /** The directories after the last loop. */
  function ScratchRemoved(w: Sweep, dirs: map<string, Dir>): map<string, Dir> {
    map d | d in dirs && Stays(w, d) :: if Spared(w, d) then dirs[d] else w.leftovers[d]
  }

  /** The four directory steps, one after the other, are the one-step description. */
  lemma SweptOneByOne(w: Sweep, dirs: map<string, Dir>)
    ensures ScratchRemoved(w, StraysPruned(w, RetainedPruned(w, LogsPruned(w, dirs)))) == SweptDirs(w, dirs)
  {
    var strayed := StraysPruned(w, RetainedPruned(w, LogsPruned(w, dirs)));
    assert strayed.Keys == dirs.Keys;
    forall d | d in dirs ensures strayed[d] == Pruned(w, d, n => Doomed(w, d, n), dirs[d]) {
      DirsFate(w, dirs, d);
    }
  }

  /** The volume after one cleanup. */
  function Swept(w: Sweep, t: Tree): Tree {
    var dirs := Made(w, t.dirs);
    Tree(Pruned(w, ROOT, IsAnyArchive, t.files), SweptDirs(w, dirs))
  }

  class DataVolume {
    var files: Dir
    var dirs: map<string, Dir>

    ghost function Contents(): Tree
      reads this
    {
      Tree(files, dirs)
    }

    constructor (t: Tree)
      ensures Contents() == t
    {
      files, dirs := t.files, t.dirs;
    }

    /** `mkdir -p` of a top-level directory. */
    method MakeDir(dir: string)
      modifies this`dirs
      ensures dirs == if dir in old(dirs) then old(dirs) else old(dirs)[dir := map[]]
    {
      if dir !in dirs {
        dirs := dirs[dir := map[]];
      }
    }

    /** Remove the expired files of one directory that match a pattern, in the order `find` prints them. */
    method Prune(w: Sweep, dir: string, matches: string -> bool)
      requires dir in dirs
      modifies this`dirs
      ensures dirs == old(dirs)[dir := Pruned(w, dir, matches, old(dirs)[dir])]
    {
      var before := dirs[dir];
      ghost var found := Found(w, matches, before);
      var todo := Found(w, matches, before);
      assert found - todo == {} && before - Removed(w, dir, found - todo) == before;
      while todo != {}
        invariant todo <= found
        invariant dirs == old(dirs)[dir := before - Removed(w, dir, found - todo)]
        decreases |todo|
      {
        var f :| f in todo;
        OneLess(w, dir, before, found, todo, f);
        var gone: set<string> := if (dir, f) in w.failing then {} else {f};
        dirs := dirs[dir := dirs[dir] - gone];
        todo := todo - {f};
      }
      assert found - todo == found;
      WithoutFound(w, dir, matches, before);
    }

    /** The strays: expired archives of any engine outside `retained/` and the pod's own directory. */
    method PruneStrays(w: Sweep)
      modifies this
      ensures files == Pruned(w, ROOT, IsAnyArchive, old(files))
      ensures dirs == StraysPruned(w, old(dirs))
    {
      var before := dirs;
      var all := Elsewhere(w, before);
      var todo := all;
      while todo != {}
        invariant todo <= all
        invariant files == old(files)
        invariant dirs == PrunedIn(w, all - todo, before)
        decreases |todo|
      {
        var d :| d in todo;
        PrunedInOneMore(w, all - todo, before, d);
        Prune(w, d, IsAnyArchive);
        assert all - todo + {d} == all - (todo - {d});
        todo := todo - {d};
      }
      assert all - todo == all;
      files := Pruned(w, ROOT, IsAnyArchive, files);
    }

    /** Remove every top-level directory that is not spared, as far as `rm -rf` can. */
    method RemoveScratch(w: Sweep)
      modifies this`dirs
      ensures dirs == ScratchRemoved(w, old(dirs))
    {
      var before := dirs;
      var scratch := Scratch(w, before);
      var todo := scratch;
      assert WithScratch(w, before, todo) == before;
      while todo != {}
        invariant todo <= scratch
        invariant dirs == WithScratch(w, before, todo)
        decreases |todo|
      {
        var d :| d in todo;
        OneScratchLess(w, before, todo, d);
        dirs := if d in w.leftovers then dirs[d := w.leftovers[d]] else dirs - {d};
        todo := todo - {d};
      }
      NoScratchLeft(w, before);
    }

    /** cleanup.sh from the retention settings to the last removal. */
    method Cleanup(w: Sweep)
      modifies this
      ensures Contents() == Swept(w, old(Contents()))
    {
      MakeDirs(w);
      PruneAll(w);
    }

    method MakeDirs(w: Sweep)
      modifies this`dirs
      ensures dirs == Made(w, old(dirs))
    {
      MakeDir(w.host);
      if w.logs {
        MakeDir(LOGS);
      }
      MakeDir(RETAINED);
      MadeOneByOne(w, old(dirs), dirs);
    }

    method PruneAll(w: Sweep)
      requires w.host in dirs && RETAINED in dirs && (w.logs ==> LOGS in dirs)
      modifies this
      ensures files == Pruned(w, ROOT, IsAnyArchive, old(files))
      ensures dirs == SweptDirs(w, old(dirs))
    {
      if w.logs {
        Prune(w, LOGS, IsLog);
      }
      Prune(w, RETAINED, n => IsArchive(w.format, n));
      assert dirs == RetainedPruned(w, LogsPruned(w, old(dirs)));
      PruneStrays(w);
      RemoveScratch(w);
      SweptOneByOne(w, old(dirs));
    }

    /** `cp -f` of one archive into `retained/`. */
    method Keep(name: string, content: Content, at: int)
      modifies this
      ensures Contents() == Copied(old(Contents()), name, content, at)
    {
      MakeDir(RETAINED);
      dirs := dirs[RETAINED := dirs[RETAINED][name := File(content, at)]];
    }
  }

  function Archives(t: Tree): Dir {
    if RETAINED in t.dirs then t.dirs[RETAINED] else map[]
  }

  function Copied(t: Tree, name: string, content: Content, at: int): Tree {
    t.(dirs := t.dirs[RETAINED := Archives(t)[name := File(content, at)]])
  }

  // ------------------------------------------------------------------ one cleanup

  /**
    A cleanup keeps the pod's own directory, `retained/`, `logs/` and `lost+found` and no other;
    it leaves the pod's own files alone and, elsewhere, every file that has not expired.
  */
  lemma CleanupSpares(w: Sweep, t: Tree)
    requires "karkive-" <= w.host
    ensures forall d :: d in Swept(w, t).dirs ==>
              d == w.host || d == "retained" || d == "logs" || d == "lost+found" || d in w.leftovers
    ensures forall d :: d in t.dirs && (d == w.host || d == "retained" || d == "logs" || d == "lost+found") ==>
              d in Swept(w, t).dirs
    ensures w.host in t.dirs ==> Swept(w, t).dirs[w.host] == t.dirs[w.host]
    ensures forall d, n :: d in t.dirs && Spared(w, d) && n in t.dirs[d] && !Expired(w, t.dirs[d][n]) ==>
              n in Swept(w, t).dirs[d] && Swept(w, t).dirs[d][n] == t.dirs[d][n]
  {
    assert w.host[0] == 'k';
    assert w.host != RETAINED && w.host != LOGS;
    assert forall n :: !Doomed(w, w.host, n);
  }

  /** What a cleanup takes from `logs/`: expired stray archives and, if there is a log file, expired logs. */
  lemma LogsArePruned(w: Sweep, t: Tree, name: string)
    requires "karkive-" <= w.host && "logs" in t.dirs && name in t.dirs["logs"] && ("logs", name) !in w.failing
    ensures "logs" in Swept(w, t).dirs
    ensures name in Swept(w, t).dirs["logs"] <==>
            !(&& (w.now - t.dirs["logs"][name].mtime) / 86400 > w.keep
              && ((exists f :: IsArchive(f, name)) || (w.logs && |name| >= 4 && name[|name| - 4..] == ".log")))
  {
    AnyArchive(name);
    assert w.host[0] == 'k';
    assert LOGS != RETAINED && w.host != LOGS;
    assert Spared(w, LOGS);
    assert IsLog(name) <==> |name| >= 4 && name[|name| - 4..] == ".log";
    assert Doomed(w, LOGS, name) <==> (w.logs && IsLog(name)) || IsAnyArchive(name);
  }

  /** At the root and in `lost+found` exactly the expired archives go, whichever engine made them. */
  lemma StraysArePruned(w: Sweep, t: Tree, name: string)
    requires "karkive-" <= w.host
    requires (".", name) !in w.failing && ("lost+found", name) !in w.failing
    ensures name in Swept(w, t).files <==>
            name in t.files && !(Expired(w, t.files[name]) && exists f :: IsArchive(f, name))
    ensures "lost+found" in t.dirs && name in t.dirs["lost+found"] ==>
            && "lost+found" in Swept(w, t).dirs
            && (name in Swept(w, t).dirs["lost+found"] <==>
                  !(Expired(w, t.dirs["lost+found"][name]) && exists f :: IsArchive(f, name)))
  {
    AnyArchive(name);
    assert w.host[0] == 'k';
    assert Spared(w, LOST_FOUND) && LOST_FOUND != RETAINED && LOST_FOUND != LOGS && w.host != LOST_FOUND;
    assert Doomed(w, LOST_FOUND, name) <==> IsAnyArchive(name);
  }

  lemma AnyArchive(name: string)
    ensures IsAnyArchive(name) <==> exists f :: IsArchive(f, name)
  {
    if f :| IsArchive(f, name) {
      assert f.Postgres? || f.MariaDB? || f.Redis? || f.Volume?;
    }
  }

  /** The archives a pod of this engine writes are those its cleanup looks for. */
  lemma WrittenArchivesAreFound(f: Format, db: string, t: Stamp)
    ensures IsArchive(f, ObjectName(Prefix(f), db, t, Extension(f)) + ".gz.gpg")
  {
    GlobsFollowTheFile(f, db, t, ".gz.gpg");
  }

  // ------------------------------------------------------------------ histories

  datatype Event = Clean(w: Sweep) | Copy(name: string, content: Content, at: int)

  /** The volume after a history that began with an empty volume. */
  function After(h: seq<Event>): Tree {
    if h == [] then Tree(map[], map[])
    else
      var t := After(h[..|h| - 1]);
      match h[|h| - 1]
      case Clean(w) => Swept(w, t)
      case Copy(name, content, at) => Copied(t, name, content, at)
  }

  /** The event takes file `f` out of `retained/` or writes over it. */
  predicate Ends(e: Event, name: string, f: File) {
    match e
    case Copy(n, _, _) => n == name
    case Clean(w) => IsArchive(w.format, name) && Expired(w, f) && (RETAINED, name) !in w.failing
  }

  /** The i-th event copied `f` in under `name` and nothing has ended it since. */
  ghost predicate Survives(h: seq<Event>, i: nat, name: string, f: File) {
    && i < |h| && h[i] == Copy(name, f.content, f.mtime)
    && forall j :: i < j < |h| ==> !Ends(h[j], name, f)
  }

  lemma ArchivesStep(w: Sweep, t: Tree)
    ensures Archives(Swept(w, t)) == Pruned(w, RETAINED, n => IsArchive(w.format, n), Archives(t))
  {
    var made := Made(w, t.dirs);
    assert RETAINED in made && made[RETAINED] == Archives(t);
  }

  lemma SurvivesStep(h: seq<Event>, n: nat, i: nat, name: string, f: File)
    requires |h| == n + 1 && i < n
    ensures Survives(h, i, name, f) <==> Survives(h[..n], i, name, f) && !Ends(h[n], name, f)
  {
    assert h[..n][i] == h[i];
    assert forall j :: i < j < n ==> h[..n][j] == h[j];
  }

  lemma PrunedHas(w: Sweep, dir: string, matches: string -> bool, d: Dir, name: string, f: File)
    ensures var left := Pruned(w, dir, matches, d);
            name in left && left[name] == f <==>
              name in d && d[name] == f && !(matches(name) && Expired(w, f) && (dir, name) !in w.failing)
  {
  }

  /** What one more event does to the archives. */
  lemma ArchivesAfter(h: seq<Event>, n: nat, name: string, f: File, was: Dir, now: Dir)
    requires |h| == n + 1 && was == Archives(After(h[..n])) && now == Archives(After(h))
    ensures name in now && now[name] == f <==>
              (name in was && was[name] == f && !Ends(h[n], name, f)) || h[n] == Copy(name, f.content, f.mtime)
  {
    if h[n].Clean? {
      var w := h[n].w;
      ArchivesStep(w, After(h[..n]));
      PrunedHas(w, RETAINED, x => IsArchive(w.format, x), was, name, f);
    }
  }

  /** `retained/` holds exactly the archives copied in, less the overwritten and the expired. */
  lemma {:induction false} RetainedIsHistory(h: seq<Event>, name: string, f: File)
    ensures name in Archives(After(h)) && Archives(After(h))[name] == f <==> exists i: nat :: Survives(h, i, name, f)
    decreases |h|
  {
    if h != [] {
      var n := |h| - 1;
      RetainedIsHistory(h[..n], name, f);
      forall i: nat | i < n ensures Survives(h, i, name, f) <==> Survives(h[..n], i, name, f) && !Ends(h[n], name, f) {
        SurvivesStep(h, n, i, name, f);
      }
      HistoryStep(h, n, name, f);
      ArchivesAfter(h, n, name, f, Archives(After(h[..n])), Archives(After(h)));
    }
  }

  lemma HistoryStep(h: seq<Event>, n: nat, name: string, f: File)
    requires |h| == n + 1
    requires forall i: nat :: i < n ==>
               (Survives(h, i, name, f) <==> Survives(h[..n], i, name, f) && !Ends(h[n], name, f))
    ensures (exists i: nat :: Survives(h, i, name, f)) <==>
            ((exists i: nat :: Survives(h[..n], i, name, f)) && !Ends(h[n], name, f)) ||
            h[n] == Copy(name, f.content, f.mtime)
  {
    if h[n] == Copy(name, f.content, f.mtime) {
      assert Survives(h, n, name, f);
    }
    if i: nat :| Survives(h[..n], i, name, f) {
      assert i < n;
      assert !Ends(h[n], name, f) ==> Survives(h, i, name, f);
    }
    if i: nat :| Survives(h, i, name, f) {
      assert i == n || Survives(h[..n], i, name, f);
    }
  }

  /**
    With one format, one retention and cleanups in order of time, the last cleanup decides: an
    archive that has not been written over is there exactly if it had not expired then.
  */
  lemma LastCleanupDecides(h: seq<Event>, i: nat, k: nat, keep: nat, format: Format)
    requires i < k < |h| && h[i].Copy? && h[k].Clean? && IsArchive(format, h[i].name)
    requires (RETAINED, h[i].name) !in h[k].w.failing
    requires forall j :: i < j < |h| ==> !(h[j].Copy? && h[j].name == h[i].name)
    requires forall j :: i < j < |h| && h[j].Clean? ==>
               j <= k && h[j].w.keep == keep && h[j].w.format == format && h[j].w.now <= h[k].w.now
    ensures h[i].name in Archives(After(h)) <==> (h[k].w.now - h[i].at) / 86400 <= keep
    ensures h[i].name in Archives(After(h)) ==> Archives(After(h))[h[i].name] == File(h[i].content, h[i].at)
  {
    var name, f := h[i].name, File(h[i].content, h[i].at);
    RetainedIsHistory(h, name, f);
    forall j | i < j < |h| && h[j].Clean? && Expired(h[j].w, f) ensures Expired(h[k].w, f) {
      DaysGrow(h[j].w.now - f.mtime, h[k].w.now - f.mtime);
    }
    if (h[k].w.now - h[i].at) / DAY <= keep {
      assert Survives(h, i, name, f);
    } else {
      assert Ends(h[k], name, f);
    }
    if name in Archives(After(h)) {
      var g := Archives(After(h))[name];
      RetainedIsHistory(h, name, g);
      var m: nat :| Survives(h, m, name, g);
      assert m < i ==> Ends(h[i], name, g);
      assert m == i;
    }
  }

  lemma DaysGrow(a: int, b: int)
    requires a <= b
    ensures a / 86400 <= b / 86400
  {
  }

  /** The archive names of two engines never meet. */
  lemma ArchiveNamesAreSeparate(d: Format, e: Format, name: string)
    requires IsArchive(d, name) && IsArchive(e, name)
    ensures d == e
  {
    assert Prefix(d)[0] == name[0] && Prefix(e)[0] == name[0];
    assert Prefix(d)[1] == name[1] && Prefix(e)[1] == name[1];
  }

  /** So an archive outlives every cleanup of a CR that has changed its engine, however old it is. */
  lemma OldEngineIsNeverPruned(h: seq<Event>, i: nat, was: Format)
    requires i < |h| && h[i].Copy? && IsArchive(was, h[i].name)
    requires forall j :: i < j < |h| ==> if h[j].Copy? then h[j].name != h[i].name else h[j].w.format != was
    ensures h[i].name in Archives(After(h)) && Archives(After(h))[h[i].name] == File(h[i].content, h[i].at)
  {
    var f := File(h[i].content, h[i].at);
    forall j | i < j < |h| ensures !Ends(h[j], h[i].name, f) {
      if h[j].Clean? && IsArchive(h[j].w.format, h[i].name) {
        ArchiveNamesAreSeparate(was, h[j].w.format, h[i].name);
      }
    }
    assert Survives(h, i, h[i].name, f);
    RetainedIsHistory(h, h[i].name, f);
  }
}
