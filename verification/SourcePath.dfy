/**
  The source of a PVC backup: what validation accepts, the cleaned path, and the excludes file
  that reaches tar.
*/
module SourcePath {

  /** The pieces of `s` between occurrences of `sep`; never empty. */
  function Split(s: string, sep: char): (r: seq<string>)
    ensures r != []
    ensures forall i :: 0 <= i < |r| ==> sep !in r[i]
  {
    if s == [] then [""]
    else
      var rest := Split(s[1..], sep);
      if s[0] == sep then [""] + rest else [[s[0]] + rest[0]] + rest[1..]
  }

  function Join(parts: seq<string>, sep: char): string {
    if parts == [] then "" else if |parts| == 1 then parts[0] else parts[0] + [sep] + Join(parts[1..], sep)
  }

  lemma {:induction false} SplitHead(p: string, rest: string, sep: char)
    requires sep !in p
    ensures Split(p + [sep] + rest, sep) == [p] + Split(rest, sep)
    decreases |p|
  {
    var s := p + [sep] + rest;
    if p == [] {
      assert s[1..] == rest;
    } else {
      assert s[1..] == p[1..] + [sep] + rest;
      SplitHead(p[1..], rest, sep);
      assert [p[0]] + p[1..] == p;
    }
  }

  lemma {:induction false} SplitPlain(p: string, sep: char)
    requires sep !in p
    ensures Split(p, sep) == [p]
    decreases |p|
  {
    if p != [] {
      SplitPlain(p[1..], sep);
      assert [p[0]] + p[1..] == p;
    }
  }

  /** Splitting undoes joining. */
  lemma {:induction false} SplitJoin(parts: seq<string>, sep: char)
    requires parts != [] && forall i :: 0 <= i < |parts| ==> sep !in parts[i]
    ensures Split(Join(parts, sep), sep) == parts
    decreases |parts|
  {
    if |parts| == 1 {
      SplitPlain(parts[0], sep);
    } else {
      SplitHead(parts[0], Join(parts[1..], sep), sep);
      SplitJoin(parts[1..], sep);
      assert [parts[0]] + parts[1..] == parts;
    }
  }

  /** `s[i..j]` stands between separators or the ends of `s`. */
  predicate Stands(s: string, sep: char, i: nat, j: nat) {
    i <= j <= |s| && (i == 0 || s[i - 1] == sep) && (j == |s| || s[j] == sep)
  }

  lemma {:induction false} PieceStands(s: string, sep: char, n: nat) returns (i: nat, j: nat)
    requires n < |Split(s, sep)|
    ensures Stands(s, sep, i, j) && s[i..j] == Split(s, sep)[n] && (n == 0 <==> i == 0)
  {
    if s == [] || (s[0] == sep && n == 0) {
      i, j := 0, 0;
    } else {
      var k, m := PieceStands(s[1..], sep, if s[0] == sep then n - 1 else n);
      i, j := if n == 0 then 0 else k + 1, m + 1;
      assert s[k + 1..m + 1] == s[1..][k..m];
      if n == 0 {
        assert s[0..m + 1] == [s[0]] + s[1..][0..m];
      }
    }
  }

  lemma TailSlice(s: string, i: nat, j: nat)
    requires 0 < i <= j <= |s|
    ensures s[i..j] == s[1..][i - 1..j - 1]
  {
    var t := s[1..];
    var u := t[i - 1..j - 1];
    assert forall k :: 0 <= k < |u| ==> u[k] == t[i - 1 + k] == s[i + k] == s[i..j][k];
    assert s[i..j] == u;
  }

  lemma {:induction false} StandingIsPiece(s: string, sep: char, i: nat, j: nat, piece: string) returns (n: nat)
    requires Stands(s, sep, i, j) && piece == s[i..j] && sep !in piece
    ensures n < |Split(s, sep)| && piece == Split(s, sep)[n] && (n == 0 <==> i == 0)
  {
    assert forall k :: i <= k < j ==> s[k] in piece;
    if s == [] || (s[0] == sep && i == 0) {
      n := 0;
      assert piece == "";
    } else if i == 0 {
      var tail := s[1..][0..j - 1];
      assert piece == [s[0]] + tail;
      n := StandingIsPiece(s[1..], sep, 0, j - 1, tail);
      assert Split(s, sep)[0] == [s[0]] + Split(s[1..], sep)[0];
    } else {
      TailSlice(s, i, j);
      n := StandingIsPiece(s[1..], sep, i - 1, j - 1, piece);
      n := if s[0] == sep then n + 1 else n;
      assert piece == Split(s, sep)[n];
    }
  }

  /** The pieces of a split string are what stands between separators. */
  lemma PieceIff(s: string, sep: char, piece: string)
    ensures piece in Split(s, sep) <==>
            sep !in piece && exists i: nat, j: nat :: Stands(s, sep, i, j) && s[i..j] == piece
  {
    if piece in Split(s, sep) {
      var n: nat :| n < |Split(s, sep)| && Split(s, sep)[n] == piece;
      var i, j := PieceStands(s, sep, n);
    }
    if sep !in piece && exists i: nat, j: nat :: Stands(s, sep, i, j) && s[i..j] == piece {
      var i: nat, j: nat :| Stands(s, sep, i, j) && s[i..j] == piece;
      var n := StandingIsPiece(s, sep, i, j, piece);
    }
  }

  // ------------------------------------------------------------------ excludes

  /** White space as Unicode defines it, which is what TrimSpace drops. */
  predicate IsSpace(c: char) {
    var n := c as int;
    || 9 <= n <= 13 || n == 0x20 || n == 0x85 || n == 0xA0 || n == 0x1680 || 0x2000 <= n <= 0x200A
    || n == 0x2028 || n == 0x2029 || n == 0x202F || n == 0x205F || n == 0x3000
  }

  predicate Blank(s: string) {
    forall i :: 0 <= i < |s| ==> IsSpace(s[i])
  }

  /** validatePVCSource accepts the list: non-blank, single-line patterns. */
  predicate ValidExcludes(excludes: seq<string>) {
    forall i :: 0 <= i < |excludes| ==> !Blank(excludes[i]) && '\n' !in excludes[i] && '\r' !in excludes[i]
  }

  /** The excludes file: pvcdump.sh prints the joined variable with a final newline, or leaves the file empty. */
  function ExcludesFile(excludes: seq<string>): string {
    var env := Join(excludes, '\n');
    if env == "" then "" else env + "\n"
  }

  /** The lines of a file, each ended by a newline. */
  function Lines(file: string): seq<string> {
    if file == "" then [] else Split(file[..|file| - 1], '\n')
  }

  lemma JoinNonEmpty(parts: seq<string>, sep: char)
    requires parts != [] && parts[0] != ""
    ensures Join(parts, sep) != ""
  {
  }

  /** tar reads back exactly the patterns of the spec, in order. */
  lemma ExcludesRoundTrip(excludes: seq<string>)
    requires ValidExcludes(excludes)
    ensures Lines(ExcludesFile(excludes)) == excludes
  {
    if excludes != [] {
      assert excludes[0] != "" by {
        assert !Blank(excludes[0]);
      }
      JoinNonEmpty(excludes, '\n');
      var env := Join(excludes, '\n');
      assert (env + "\n")[..|env|] == env;
      SplitJoin(excludes, '\n');
    }
  }

  // ------------------------------------------------------------------ path

  /** validatePVCSource accepts the path: relative, no `..` segment, one line. */
  predicate ValidPath(p: string) {
    p != "" ==> p[0] != '/' && ".." !in Split(p, '/') && '\n' !in p && '\r' !in p
  }

  /** `path.Clean` on the segments of a path: drop empty and `.`, let `..` take back the segment before it. */
  function CleanSegments(segs: seq<string>, done: seq<string>, rooted: bool): seq<string>
    decreases |segs|
  {
    if segs == [] then done
    else if segs[0] == "" || segs[0] == "." then CleanSegments(segs[1..], done, rooted)
    else if segs[0] == ".." then
      if done != [] && done[|done| - 1] != ".." then CleanSegments(segs[1..], done[..|done| - 1], rooted)
      else if rooted then CleanSegments(segs[1..], done, rooted)
      else CleanSegments(segs[1..], done + [".."], rooted)
    else CleanSegments(segs[1..], done + [segs[0]], rooted)
  }

  function Clean(p: string): string {
    if p == "" then "."
    else
      var rooted := p[0] == '/';
      var segs := CleanSegments(Split(p, '/'), [], rooted);
      if rooted then "/" + Join(segs, '/') else if segs == [] then "." else Join(segs, '/')
  }

  /** pvcSourcePath: the empty string stands for the claim root. */
  function SourceSubPath(p: string): string {
    if p == "" then "" else if Clean(p) == "." then "" else Clean(p)
  }

  /** An ordinary segment. */
  predicate Proper(seg: string) {
    seg != "" && seg != "." && seg != ".." && '/' !in seg
  }

  lemma {:induction false} CleanKeepsProper(segs: seq<string>, done: seq<string>)
    requires ".." !in segs
    requires forall i :: 0 <= i < |segs| ==> '/' !in segs[i]
    requires forall i :: 0 <= i < |done| ==> Proper(done[i])
    ensures forall i :: 0 <= i < |CleanSegments(segs, done, false)| ==> Proper(CleanSegments(segs, done, false)[i])
    decreases |segs|
  {
    if segs != [] {
      assert segs[0] != "..";
      if segs[0] == "" || segs[0] == "." {
        CleanKeepsProper(segs[1..], done);
      } else {
        CleanKeepsProper(segs[1..], done + [segs[0]]);
      }
    }
  }

  lemma {:induction false} ProperSegmentsAreClean(segs: seq<string>, done: seq<string>, rooted: bool)
    requires forall i :: 0 <= i < |segs| ==> Proper(segs[i])
    ensures CleanSegments(segs, done, rooted) == done + segs
    decreases |segs|
  {
    if segs == [] {
      assert done + segs == done;
    } else {
      ProperSegmentsAreClean(segs[1..], done + [segs[0]], rooted);
      assert done + [segs[0]] + segs[1..] == done + segs;
    }
  }

  /**
    A validated path cleans to the claim root or to a relative path of ordinary segments only,
    which cleaning leaves alone: joined to the mount point it cannot leave it.
  */
  lemma CleanedPathStaysInside(p: string)
    requires ValidPath(p)
    ensures var q := SourceSubPath(p);
            q != "" ==>
              && q[0] != '/'
              && (forall i :: 0 <= i < |Split(q, '/')| ==> Proper(Split(q, '/')[i]))
              && SourceSubPath(q) == q && Clean(q) == q
  {
    if p != "" {
      var segs := CleanSegments(Split(p, '/'), [], false);
      CleanKeepsProper(Split(p, '/'), []);
      if segs != [] {
        var q := Join(segs, '/');
        SplitJoin(segs, '/');
        JoinHead(segs, '/');
        assert Proper(segs[0]);
        ProperSegmentsAreClean(segs, [], false);
        assert [] + segs == segs;
        DotIsNotProper(q);
      }
    }
  }

  lemma JoinHead(parts: seq<string>, sep: char)
    requires parts != [] && parts[0] != ""
    ensures Join(parts, sep) != "" && Join(parts, sep)[0] == parts[0][0]
  {
  }

  lemma DotIsNotProper(q: string)
    requires forall i :: 0 <= i < |Split(q, '/')| ==> Proper(Split(q, '/')[i])
    ensures q != "."
  {
    assert Split(".", '/') == ["."] by {
      SplitPlain(".", '/');
    }
    assert !Proper(".");
    assert Split(q, '/') != ["."] by {
      assert Split(q, '/') == [] || Split(q, '/')[0] != ".";
    }
  }
}
