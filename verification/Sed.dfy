/**
  The part of `sed` the dump filters use: scripts made of `d` commands with one or two regular
  expression addresses, with the range rules of "Addresses in sed" in the POSIX.1-2017 `sed`
  utility.  Regular expressions are arbitrary predicates on lines.
*/
module Sed {
  type Line = string
  type Pattern = Line -> bool

  /** `/first/d`, or `/first/,/last/d`. */
  datatype Cmd = Delete(first: Pattern) | DeleteRange(first: Pattern, last: Pattern)

  /** A range command is open between its first line and its last line. */
  predicate Selects(c: Cmd, open: bool, line: Line) {
    open || c.first(line)
  }

  /** A range end is looked for from the line after the one that opened the range. */
  predicate OpenAfter(c: Cmd, open: bool, line: Line) {
    c.DeleteRange? && (if open then !c.last(line) else c.first(line))
  }

  datatype Cycle = Cycle(deleted: bool, open: seq<bool>)

  /** One cycle: `d` deletes the line and starts the next cycle, so later commands do not see it. */
  function RunCycle(prog: seq<Cmd>, open: seq<bool>, line: Line): (r: Cycle)
    requires |open| == |prog|
    ensures |r.open| == |prog|
  {
    if prog == [] then Cycle(false, [])
    else
      var nextOpen := OpenAfter(prog[0], open[0], line);
      if Selects(prog[0], open[0], line) then Cycle(true, [nextOpen] + open[1..])
      else
        var rest := RunCycle(prog[1..], open[1..], line);
        Cycle(rest.deleted, [nextOpen] + rest.open)
  }

  /** The whole script over the whole input, every command keeping its own range state. */
  function RunFrom(prog: seq<Cmd>, open: seq<bool>, lines: seq<Line>): seq<Line>
    requires |open| == |prog|
    decreases |lines|
  {
    if lines == [] then []
    else
      var r := RunCycle(prog, open, lines[0]);
      (if r.deleted then [] else [lines[0]]) + RunFrom(prog, r.open, lines[1..])
  }

  function Closed(n: nat): seq<bool> {
    seq(n, _ => false)
  }

  function Run(prog: seq<Cmd>, lines: seq<Line>): seq<Line> {
    RunFrom(prog, Closed(|prog|), lines)
  }

  /** A script of one command. */
  function FilterFrom(c: Cmd, open: bool, lines: seq<Line>): seq<Line>
    decreases |lines|
  {
    if lines == [] then []
    else
      (if Selects(c, open, lines[0]) then [] else [lines[0]])
      + FilterFrom(c, OpenAfter(c, open, lines[0]), lines[1..])
  }

  function Filter(c: Cmd, lines: seq<Line>): seq<Line> {
    FilterFrom(c, false, lines)
  }

  /** The commands run one after the other, each over the output of the one before. */
  function Pipe(prog: seq<Cmd>, lines: seq<Line>): seq<Line> {
    if prog == [] then lines else Pipe(prog[1..], Filter(prog[0], lines))
  }

  // ------------------------------------------------ the script as a composition of filters

  lemma {:induction false} EmptyScript(lines: seq<Line>)
    ensures RunFrom([], [], lines) == lines
  {
    if lines != [] {
      EmptyScript(lines[1..]);
      assert [lines[0]] + lines[1..] == lines;
    }
  }

  lemma {:induction false} SplitFirst(prog: seq<Cmd>, open: seq<bool>, lines: seq<Line>)
    requires |open| == |prog| > 0
    ensures RunFrom(prog, open, lines) == RunFrom(prog[1..], open[1..], FilterFrom(prog[0], open[0], lines))
    decreases |lines|
  {
    if lines != [] {
      var r := RunCycle(prog, open, lines[0]);
      SplitFirst(prog, r.open, lines[1..]);
      var nextOpen := OpenAfter(prog[0], open[0], lines[0]);
      assert r.open[0] == nextOpen;
      var tail := FilterFrom(prog[0], nextOpen, lines[1..]);
      if Selects(prog[0], open[0], lines[0]) {
        assert r.open[1..] == open[1..];
        assert FilterFrom(prog[0], open[0], lines) == tail;
      } else {
        var rest := RunCycle(prog[1..], open[1..], lines[0]);
        assert r.open[1..] == rest.open;
        assert FilterFrom(prog[0], open[0], lines) == [lines[0]] + tail;
        assert ([lines[0]] + tail)[1..] == tail;
      }
    }
  }

  /** The multi-command script equals its commands run in sequence, on every input. */
  lemma {:induction false} ScriptIsPipe(prog: seq<Cmd>, lines: seq<Line>)
    ensures Run(prog, lines) == Pipe(prog, lines)
    decreases |prog|
  {
    if prog == [] {
      EmptyScript(lines);
    } else {
      SplitFirst(prog, Closed(|prog|), lines);
      assert Closed(|prog|)[1..] == Closed(|prog[1..]|);
      ScriptIsPipe(prog[1..], Filter(prog[0], lines));
    }
  }

  /** Two scripts run one after the other are the concatenated script. */
  lemma {:induction false} PipeAppend(a: seq<Cmd>, b: seq<Cmd>, lines: seq<Line>)
    ensures Pipe(a + b, lines) == Pipe(b, Pipe(a, lines))
  {
    if a == [] {
      assert a + b == b;
    } else {
      assert (a + b)[1..] == a[1..] + b;
      PipeAppend(a[1..], b, Filter(a[0], lines));
    }
  }

  // ------------------------------------------------ only deletion, and all of it

  predicate Subsequence(a: seq<Line>, b: seq<Line>)
    decreases |b|
  {
    a == [] || (b != [] && ((a[0] == b[0] && Subsequence(a[1..], b[1..])) || Subsequence(a, b[1..])))
  }

  lemma {:induction false} SubsequenceTrans(a: seq<Line>, b: seq<Line>, c: seq<Line>)
    requires Subsequence(a, b) && Subsequence(b, c)
    ensures Subsequence(a, c)
    decreases |c|
  {
    if a != [] && b != [] {
      if b[0] == c[0] && Subsequence(b[1..], c[1..]) {
        if a[0] == b[0] && Subsequence(a[1..], b[1..]) {
          SubsequenceTrans(a[1..], b[1..], c[1..]);
        } else {
          SubsequenceTrans(a, b[1..], c[1..]);
        }
      } else {
        SubsequenceTrans(a, b, c[1..]);
      }
    }
  }

  lemma {:induction false} SubsequenceRefl(a: seq<Line>)
    ensures Subsequence(a, a)
  {
    if a != [] {
      SubsequenceRefl(a[1..]);
    }
  }

  lemma {:induction false} FilterFacts(c: Cmd, open: bool, lines: seq<Line>)
    ensures Subsequence(FilterFrom(c, open, lines), lines)
    ensures forall l :: l in FilterFrom(c, open, lines) ==> l in lines && !c.first(l)
    decreases |lines|
  {
    if lines != [] {
      var nextOpen := OpenAfter(c, open, lines[0]);
      FilterFacts(c, nextOpen, lines[1..]);
      var tail := FilterFrom(c, nextOpen, lines[1..]);
      if Selects(c, open, lines[0]) {
        assert FilterFrom(c, open, lines) == tail;
      } else {
        assert FilterFrom(c, open, lines) == [lines[0]] + tail;
        assert ([lines[0]] + tail)[1..] == tail;
      }
    }
  }

  /** No line of `lines` is a header of any command of `prog`. */
  ghost predicate Clean(prog: seq<Cmd>, lines: seq<Line>) {
    forall i, l :: 0 <= i < |prog| && l in lines ==> !prog[i].first(l)
  }

  /** The output is a subsequence of the input and matches no deletion or range-start pattern. */
  lemma {:induction false} PipeOnlyDeletes(prog: seq<Cmd>, lines: seq<Line>)
    ensures Subsequence(Pipe(prog, lines), lines)
    ensures forall l :: l in Pipe(prog, lines) ==> l in lines
    ensures Clean(prog, Pipe(prog, lines))
    decreases |prog|
  {
    if prog == [] {
      SubsequenceRefl(lines);
    } else {
      var once := Filter(prog[0], lines);
      FilterFacts(prog[0], false, lines);
      PipeOnlyDeletes(prog[1..], once);
      SubsequenceTrans(Pipe(prog, lines), once, lines);
      forall i, l | 0 <= i < |prog| && l in Pipe(prog, lines) ensures !prog[i].first(l) {
        assert i > 0 ==> prog[i] == prog[1..][i - 1];
      }
    }
  }

  lemma {:induction false} CleanFilterIsIdentity(c: Cmd, lines: seq<Line>)
    requires forall l :: l in lines ==> !c.first(l)
    ensures Filter(c, lines) == lines
    decreases |lines|
  {
    if lines != [] {
      assert lines[0] in lines;
      CleanFilterIsIdentity(c, lines[1..]);
      assert [lines[0]] + lines[1..] == lines;
    }
  }

  lemma {:induction false} CleanPipeIsIdentity(prog: seq<Cmd>, lines: seq<Line>)
    requires Clean(prog, lines)
    ensures Pipe(prog, lines) == lines
    decreases |prog|
  {
    if prog != [] {
      CleanFilterIsIdentity(prog[0], lines);
      forall i, l | 0 <= i < |prog[1..]| && l in lines ensures !prog[1..][i].first(l) {
        assert prog[1..][i] == prog[i + 1];
      }
      CleanPipeIsIdentity(prog[1..], lines);
    }
  }

  /** Running the script on its own output changes nothing. */
  lemma ScriptIsIdempotent(prog: seq<Cmd>, lines: seq<Line>)
    ensures Run(prog, Run(prog, lines)) == Run(prog, lines)
  {
    ScriptIsPipe(prog, lines);
    ScriptIsPipe(prog, Run(prog, lines));
    PipeOnlyDeletes(prog, lines);
    CleanPipeIsIdentity(prog, Pipe(prog, lines));
  }

  /** The lines that do not match, in order. */
  function Unmatched(p: Pattern, lines: seq<Line>): seq<Line> {
    if lines == [] then [] else (if p(lines[0]) then [] else [lines[0]]) + Unmatched(p, lines[1..])
  }

  /** One deletion command leaves exactly the lines that do not match. */
  lemma {:induction false} DeleteLeavesUnmatched(p: Pattern, lines: seq<Line>)
    ensures Run([Delete(p)], lines) == Unmatched(p, lines)
    decreases |lines|
  {
    ScriptIsPipe([Delete(p)], lines);
    assert [Delete(p)][1..] == [];
    if lines != [] {
      DeleteLeavesUnmatched(p, lines[1..]);
      ScriptIsPipe([Delete(p)], lines[1..]);
    }
  }

  lemma {:induction false} NothingMatches(p: Pattern, lines: seq<Line>)
    requires forall l :: l in lines ==> !p(l)
    ensures Unmatched(p, lines) == lines
  {
    if lines != [] {
      assert lines[0] in lines;
      NothingMatches(p, lines[1..]);
      assert [lines[0]] + lines[1..] == lines;
    }
  }

  // ------------------------------------------------ whole statements

  /** Some command of `prog` picks lines like `l`. */
  ghost predicate Header(prog: seq<Cmd>, l: Line) {
    exists i :: 0 <= i < |prog| && prog[i].first(l)
  }

  /** One statement of the dump. */
  type Block = b: seq<Line> | b != [] witness [""]

  /** Only the first line of the statement may be a header. */
  ghost predicate BodyIsPlain(c: Cmd, b: Block) {
    forall i :: 1 <= i < |b| ==> !c.first(b[i])
  }

  /**
    If the command picks statement `b` then it deletes all of it: a one-line deletion takes a
    one-line statement, a range takes at least two lines ending with the first end line.
  */
  ghost predicate Covers(c: Cmd, b: Block) {
    c.first(b[0]) ==>
      if c.Delete? then |b| == 1
      else |b| >= 2 && c.last(b[|b| - 1]) && forall i :: 1 <= i < |b| - 1 ==> !c.last(b[i])
  }

  ghost predicate WellFormed(prog: seq<Cmd>, blocks: seq<Block>) {
    forall i, j :: 0 <= i < |prog| && 0 <= j < |blocks| ==>
      BodyIsPlain(prog[i], blocks[j]) && Covers(prog[i], blocks[j])
  }

  function Concat(blocks: seq<Block>): seq<Line> {
    if blocks == [] then [] else blocks[0] + Concat(blocks[1..])
  }

  /** The statements whose header `c` does not pick. */
  function Spared(c: Cmd, blocks: seq<Block>): seq<Block>
  {
    if blocks == [] then []
    else (if c.first(blocks[0][0]) then [] else [blocks[0]]) + Spared(c, blocks[1..])
  }

  ghost function SparedByAll(prog: seq<Cmd>, blocks: seq<Block>): seq<Block>
  {
    if blocks == [] then []
    else (if Header(prog, blocks[0][0]) then [] else [blocks[0]]) + SparedByAll(prog, blocks[1..])
  }

  lemma {:induction false} FilterPlain(c: Cmd, a: seq<Line>, rest: seq<Line>)
    requires forall l :: l in a ==> !c.first(l)
    ensures FilterFrom(c, false, a + rest) == a + FilterFrom(c, false, rest)
    decreases |a|
  {
    if a == [] {
      assert a + rest == rest;
    } else {
      assert (a + rest)[1..] == a[1..] + rest;
      assert a[0] in a;
      FilterPlain(c, a[1..], rest);
      assert [a[0]] + (a[1..] + FilterFrom(c, false, rest)) == a + FilterFrom(c, false, rest);
    }
  }

  /** An open range swallows `a`, whose only end line is its last. */
  lemma {:induction false} FilterOpen(c: Cmd, a: seq<Line>, rest: seq<Line>)
    requires c.DeleteRange? && a != [] && c.last(a[|a| - 1])
    requires forall i :: 0 <= i < |a| - 1 ==> !c.last(a[i])
    ensures FilterFrom(c, true, a + rest) == FilterFrom(c, false, rest)
    decreases |a|
  {
    assert (a + rest)[1..] == a[1..] + rest;
    if |a| == 1 {
      assert a[1..] + rest == rest;
    } else {
      FilterOpen(c, a[1..], rest);
    }
  }

  lemma FilterBlock(c: Cmd, b: Block, rest: seq<Line>)
    requires BodyIsPlain(c, b) && Covers(c, b)
    ensures Filter(c, b + rest) == (if c.first(b[0]) then [] else b) + Filter(c, rest)
  {
    if c.first(b[0]) {
      assert (b + rest)[1..] == b[1..] + rest;
      if c.Delete? {
        assert b[1..] + rest == rest;
      } else {
        FilterOpen(c, b[1..], rest);
      }
    } else {
      forall l | l in b ensures !c.first(l) {
        var i :| 0 <= i < |b| && b[i] == l;
      }
      FilterPlain(c, b, rest);
    }
  }

  lemma {:induction false} FilterBlocks(c: Cmd, blocks: seq<Block>)
    requires forall j :: 0 <= j < |blocks| ==> BodyIsPlain(c, blocks[j]) && Covers(c, blocks[j])
    ensures Filter(c, Concat(blocks)) == Concat(Spared(c, blocks))
    decreases |blocks|
  {
    if blocks != [] {
      FilterBlock(c, blocks[0], Concat(blocks[1..]));
      FilterBlocks(c, blocks[1..]);
      var tail := Spared(c, blocks[1..]);
      if !c.first(blocks[0][0]) {
        assert Spared(c, blocks) == [blocks[0]] + tail;
        assert ([blocks[0]] + tail)[1..] == tail;
      } else {
        assert Spared(c, blocks) == tail;
      }
    }
  }

  lemma {:induction false} SparedFacts(c: Cmd, prog: seq<Cmd>, blocks: seq<Block>)
    requires WellFormed([c] + prog, blocks)
    ensures forall j :: 0 <= j < |Spared(c, blocks)| ==> Spared(c, blocks)[j] in blocks
    ensures SparedByAll([c] + prog, blocks) == SparedByAll(prog, Spared(c, blocks))
    decreases |blocks|
  {
    if blocks != [] {
      SparedFacts(c, prog, blocks[1..]);
      var tail := Spared(c, blocks[1..]);
      HeaderCons(c, prog, blocks[0][0]);
      if !c.first(blocks[0][0]) {
        assert Spared(c, blocks) == [blocks[0]] + tail;
        assert ([blocks[0]] + tail)[1..] == tail;
      } else {
        assert Spared(c, blocks) == tail;
      }
    }
  }

  lemma HeaderCons(c: Cmd, prog: seq<Cmd>, l: Line)
    ensures Header([c] + prog, l) <==> c.first(l) || Header(prog, l)
  {
    var both := [c] + prog;
    if c.first(l) {
      assert both[0].first(l);
    }
    if Header(prog, l) {
      var i :| 0 <= i < |prog| && prog[i].first(l);
      assert both[i + 1].first(l);
    }
  }

  /** On well-formed statements the script removes exactly the statements with a picked header. */
  lemma {:induction false} ScriptRemovesExactlyTargets(prog: seq<Cmd>, blocks: seq<Block>)
    requires WellFormed(prog, blocks)
    ensures Run(prog, Concat(blocks)) == Concat(SparedByAll(prog, blocks))
    decreases |prog|
  {
    ScriptIsPipe(prog, Concat(blocks));
    if prog == [] {
      NothingPicked(blocks);
    } else {
      var c, rest := prog[0], prog[1..];
      assert prog == [c] + rest;
      forall j | 0 <= j < |blocks| ensures BodyIsPlain(c, blocks[j]) && Covers(c, blocks[j]) {
        assert c == prog[0];
      }
      FilterBlocks(c, blocks);
      SparedFacts(c, rest, blocks);
      var left := Spared(c, blocks);
      forall i, j | 0 <= i < |rest| && 0 <= j < |left|
        ensures BodyIsPlain(rest[i], left[j]) && Covers(rest[i], left[j])
      {
        var k :| 0 <= k < |blocks| && blocks[k] == left[j];
        assert rest[i] == prog[i + 1];
      }
      ScriptRemovesExactlyTargets(rest, left);
      ScriptIsPipe(rest, Concat(left));
    }
  }

  lemma {:induction false} NothingPicked(blocks: seq<Block>)
    ensures SparedByAll([], blocks) == blocks
  {
    if blocks != [] {
      NothingPicked(blocks[1..]);
      assert [blocks[0]] + blocks[1..] == blocks;
    }
  }

  /** The lines after the first end line of `lines`; nothing if there is none. */
  function AfterEnd(last: Pattern, lines: seq<Line>): seq<Line> {
    if lines == [] then [] else if last(lines[0]) then lines[1..] else AfterEnd(last, lines[1..])
  }

  /**
    A one-line statement that opens a range is not its own end: the range goes on to the next
    end line, or to the end of the input, and takes the statements in between with it.
  */
  lemma OneLineHeaderOverruns(c: Cmd, header: Line, rest: seq<Line>)
    requires c.DeleteRange? && c.first(header)
    ensures Filter(c, [header] + rest) == Filter(c, AfterEnd(c.last, rest))
  {
    assert ([header] + rest)[1..] == rest;
    OpenSkips(c, rest);
  }

  lemma {:induction false} OpenSkips(c: Cmd, rest: seq<Line>)
    requires c.DeleteRange?
    ensures FilterFrom(c, true, rest) == FilterFrom(c, false, AfterEnd(c.last, rest))
    decreases |rest|
  {
    if rest != [] && !c.last(rest[0]) {
      OpenSkips(c, rest[1..]);
    }
  }

  // ------------------------------------------------ exactly the targets, exactly when

  predicate HasEnd(last: Pattern, lines: seq<Line>) {
    exists i :: 0 <= i < |lines| && last(lines[i])
  }

  /**
    The shape of a statement some command is after: one line; or, for the ranges, any number of
    lines of which only the last is an end line.
  */
  ghost predicate TargetFits(prog: seq<Cmd>, b: Block) {
    forall i :: 0 <= i < |prog| ==>
      var c := prog[i];
      |b| == 1 ||
      if c.Delete? then !c.first(b[0])
      else c.last(b[|b| - 1]) && forall k :: 0 <= k < |b| - 1 ==> !c.last(b[k])
  }

  /** A statement cut at its header; what no command is after may have any shape. */
  ghost predicate Fits(prog: seq<Cmd>, b: Block) {
    && (forall i :: 0 <= i < |prog| ==> BodyIsPlain(prog[i], b))
    && (Header(prog, b[0]) ==> TargetFits(prog, b))
  }

  ghost predicate Shaped(prog: seq<Cmd>, blocks: seq<Block>) {
    forall b :: b in blocks ==> Fits(prog, b)
  }

  /** The command's range is open after the statement, if it was `open` before. */
  predicate NextOpen(c: Cmd, open: bool, b: Block) {
    c.DeleteRange? && if open then !HasEnd(c.last, b) else c.first(b[0]) && !HasEnd(c.last, b[1..])
  }

  /** The range is open when statement `j` begins, if it was `open` when the first began. */
  predicate OpenAt(c: Cmd, open: bool, blocks: seq<Block>, j: nat)
    requires j <= |blocks|
  {
    if j == 0 then open else NextOpen(c, OpenAt(c, open, blocks, j - 1), blocks[j - 1])
  }

  lemma {:induction false} OpenShift(c: Cmd, open: bool, blocks: seq<Block>, j: nat)
    requires j < |blocks|
    ensures OpenAt(c, open, blocks, j + 1) == OpenAt(c, NextOpen(c, open, blocks[0]), blocks[1..], j)
    decreases j
  {
    if j > 0 {
      OpenShift(c, open, blocks, j - 1);
      assert blocks[1..][j - 1] == blocks[j];
    }
  }

  /** What the command leaves of a statement: an open range takes it up to its first end line. */
  function Rest(c: Cmd, open: bool, b: Block): seq<Line>
    requires open ==> c.DeleteRange?
  {
    if open then AfterEnd(c.last, b) else if c.first(b[0]) then [] else b
  }

  /** The pieces of statements one command leaves. */
  function KeptFrom(c: Cmd, open: bool, blocks: seq<Block>): seq<Block>
    requires open ==> c.DeleteRange?
    decreases |blocks|
  {
    if blocks == [] then []
    else
      (if Rest(c, open, blocks[0]) == [] then [] else [Rest(c, open, blocks[0])])
      + KeptFrom(c, NextOpen(c, open, blocks[0]), blocks[1..])
  }

  /** An open range takes lines up to the first end line and spares the rest. */
  lemma {:induction false} FilterOpenPart(c: Cmd, a: seq<Line>, rest: seq<Line>)
    requires c.DeleteRange? && forall i :: 1 <= i < |a| ==> !c.first(a[i])
    ensures FilterFrom(c, true, a + rest) == AfterEnd(c.last, a) + FilterFrom(c, !HasEnd(c.last, a), rest)
    decreases |a|
  {
    if a == [] {
      assert a + rest == rest;
    } else {
      assert (a + rest)[1..] == a[1..] + rest && (a + rest)[0] == a[0];
      if c.last(a[0]) {
        forall l | l in a[1..] ensures !c.first(l) {
          var i :| 0 <= i < |a[1..]| && a[1..][i] == l;
          assert a[i + 1] == l;
        }
        FilterPlain(c, a[1..], rest);
      } else {
        FilterOpenPart(c, a[1..], rest);
        assert HasEnd(c.last, a) <==> HasEnd(c.last, a[1..]) by {
          assert forall i :: 0 <= i < |a[1..]| ==> a[1..][i] == a[i + 1];
          if i :| 0 <= i < |a| && c.last(a[i]) {
            assert c.last(a[1..][i - 1]);
          }
        }
      }
    }
  }

  lemma FilterFits(prog: seq<Cmd>, c: Cmd, open: bool, b: Block, rest: seq<Line>)
    requires c in prog && Fits(prog, b) && (open ==> c.DeleteRange?)
    ensures FilterFrom(c, open, b + rest) == Rest(c, open, b) + FilterFrom(c, NextOpen(c, open, b), rest)
  {
    assert BodyIsPlain(c, b);
    if open {
      FilterOpenPart(c, b, rest);
    } else if c.first(b[0]) {
      assert Header(prog, b[0]);
      assert (b + rest)[1..] == b[1..] + rest;
      if |b| == 1 {
        assert b[1..] + rest == rest;
      } else {
        var tail := b[1..];
        assert tail[|tail| - 1] == b[|b| - 1] && c.last(tail[|tail| - 1]);
        FilterOpen(c, tail, rest);
      }
    } else {
      forall l | l in b ensures !c.first(l) {
        var i :| 0 <= i < |b| && b[i] == l;
      }
      FilterPlain(c, b, rest);
    }
  }

  lemma {:induction false} FilterKeeps(prog: seq<Cmd>, c: Cmd, open: bool, blocks: seq<Block>)
    requires c in prog && Shaped(prog, blocks) && (open ==> c.DeleteRange?)
    ensures FilterFrom(c, open, Concat(blocks)) == Concat(KeptFrom(c, open, blocks))
    decreases |blocks|
  {
    if blocks != [] {
      var b, next := blocks[0], NextOpen(c, open, blocks[0]);
      FilterFits(prog, c, open, b, Concat(blocks[1..]));
      FilterKeeps(prog, c, next, blocks[1..]);
      var tail := KeptFrom(c, next, blocks[1..]);
      assert [] + tail == tail;
      if Rest(c, open, b) != [] {
        assert ([Rest(c, open, b)] + tail)[1..] == tail;
      }
    }
  }

  lemma {:induction false} AfterEndIsSuffix(last: Pattern, b: seq<Line>) returns (k: nat)
    ensures k <= |b| && AfterEnd(last, b) == b[k..] && (b != [] ==> k > 0)
    ensures (forall i :: 0 <= i < |b| - 1 ==> !last(b[i])) ==> AfterEnd(last, b) == []
    decreases |b|
  {
    k := 0;
    if b != [] {
      if !last(b[0]) {
        k := AfterEndIsSuffix(last, b[1..]);
        assert b[1..][k..] == b[k + 1..];
        assert forall i :: 0 <= i < |b[1..]| ==> b[1..][i] == b[i + 1];
      }
      k := k + 1;
    }
  }

  /** What is left of a statement is the statement, or the end of one that no command is after. */
  lemma RestFits(prog: seq<Cmd>, c: Cmd, open: bool, b: Block)
    requires c in prog && Fits(prog, b) && (open ==> c.DeleteRange?)
    ensures var r := Rest(c, open, b);
            && |r| <= |b| && (open ==> |r| < |b|) && (open && Header(prog, b[0]) ==> r == [])
            && (r != [] ==> Fits(prog, r) && !c.first(r[0]))
            && (r != [] && open ==> !Header(prog, r[0]))
  {
    assert BodyIsPlain(c, b);
    if open {
      var k := AfterEndIsSuffix(c.last, b);
      var r := b[k..];
      assert Header(prog, b[0]) ==> TargetFits(prog, b);
      if r != [] {
        forall i | 0 <= i < |prog| ensures BodyIsPlain(prog[i], r) && !prog[i].first(r[0]) {
          assert BodyIsPlain(prog[i], b);
          assert r[0] == b[k];
        }
      }
    }
  }

  /** The pieces left after the first `n` commands. */
  function Left(prog: seq<Cmd>, blocks: seq<Block>, n: nat): seq<Block>
    requires n <= |prog|
  {
    if n == 0 then blocks else KeptFrom(prog[n - 1], false, Left(prog, blocks, n - 1))
  }

  lemma {:induction false} KeptFit(prog: seq<Cmd>, c: Cmd, open: bool, blocks: seq<Block>)
    requires c in prog && Shaped(prog, blocks) && (open ==> c.DeleteRange?)
    ensures Shaped(prog, KeptFrom(c, open, blocks))
    ensures forall b :: b in KeptFrom(c, open, blocks) ==> !c.first(b[0])
    ensures forall b :: b in KeptFrom(c, open, blocks) && Header(prog, b[0]) ==> b in blocks
    decreases |blocks|
  {
    if blocks != [] {
      assert blocks[0] in blocks && forall b :: b in blocks[1..] ==> b in blocks;
      RestFits(prog, c, open, blocks[0]);
      KeptFit(prog, c, NextOpen(c, open, blocks[0]), blocks[1..]);
    }
  }

  /** No command of the first `n` is after the statement. */
  ghost predicate Rid(prog: seq<Cmd>, n: nat, b: Block) {
    forall i :: 0 <= i < n && i < |prog| ==> !prog[i].first(b[0])
  }

  lemma RidOfOne(prog: seq<Cmd>, n: nat, before: seq<Block>, b: Block)
    requires n < |prog| && !prog[n].first(b[0]) && (Header(prog, b[0]) ==> b in before)
    requires forall x :: x in before ==> Rid(prog, n, x)
    ensures Rid(prog, n + 1, b)
  {
    assert forall i :: 0 <= i < |prog| && prog[i].first(b[0]) ==> Header(prog, b[0]);
  }

  lemma {:induction false} LeftFit(prog: seq<Cmd>, blocks: seq<Block>, n: nat)
    requires n <= |prog| && Shaped(prog, blocks)
    ensures Shaped(prog, Left(prog, blocks, n))
    ensures forall b :: b in Left(prog, blocks, n) ==> Rid(prog, n, b)
  {
    if n > 0 {
      LeftFit(prog, blocks, n - 1);
      var before := Left(prog, blocks, n - 1);
      KeptFit(prog, prog[n - 1], false, before);
      forall b | b in Left(prog, blocks, n) ensures Rid(prog, n, b) {
        RidOfOne(prog, n - 1, before, b);
      }
    }
  }

  lemma PipeSnoc(prog: seq<Cmd>, c: Cmd, lines: seq<Line>)
    ensures Pipe(prog + [c], lines) == Filter(c, Pipe(prog, lines))
  {
    PipeAppend(prog, [c], lines);
    assert [c][1..] == [];
  }

  lemma {:induction false} PipeLeaves(prog: seq<Cmd>, blocks: seq<Block>, n: nat)
    requires n <= |prog| && Shaped(prog, blocks)
    ensures Pipe(prog[..n], Concat(blocks)) == Concat(Left(prog, blocks, n))
  {
    if n > 0 {
      PipeLeaves(prog, blocks, n - 1);
      assert prog[..n] == prog[..n - 1] + [prog[n - 1]];
      PipeSnoc(prog[..n - 1], prog[n - 1], Concat(blocks));
      LeftFit(prog, blocks, n - 1);
      FilterKeeps(prog, prog[n - 1], false, Left(prog, blocks, n - 1));
    }
  }

  /** Statement `j`, which no command of the script is after, begins while the command's range is open. */
  ghost predicate Swallows(prog: seq<Cmd>, c: Cmd, open: bool, blocks: seq<Block>, j: nat) {
    j < |blocks| && !Header(prog, blocks[j][0]) && OpenAt(c, open, blocks, j)
  }

  /** The lines of statements nobody is after get fewer exactly when one begins in an open range. */
  lemma {:induction false} KeptLoses(prog: seq<Cmd>, c: Cmd, open: bool, blocks: seq<Block>)
    requires c in prog && Shaped(prog, blocks) && (open ==> c.DeleteRange?)
    ensures var was, left := SparedByAll(prog, blocks), SparedByAll(prog, KeptFrom(c, open, blocks));
            if exists j: nat :: Swallows(prog, c, open, blocks, j) then |Concat(left)| < |Concat(was)| else left == was
    decreases |blocks|
  {
    if blocks != [] {
      var b, rest, next := blocks[0], blocks[1..], NextOpen(c, open, blocks[0]);
      assert b in blocks && Fits(prog, b);
      KeptLoses(prog, c, next, rest);
      SwallowsShift(prog, c, open, blocks, next, rest);
      RestFits(prog, c, open, b);
      var tail := KeptFrom(c, next, rest);
      assert blocks == [b] + rest;
      SparedCons(prog, b, rest);
      assert [] + tail == tail;
      if Rest(c, open, b) != [] {
        SparedCons(prog, Rest(c, open, b), tail);
      }
      assert c.first(b[0]) ==> Header(prog, b[0]);
    }
  }

  lemma SparedCons(prog: seq<Cmd>, b: Block, rest: seq<Block>)
    ensures var tail := SparedByAll(prog, rest);
            SparedByAll(prog, [b] + rest) == (if Header(prog, b[0]) then [] else [b]) + tail
    ensures |Concat(SparedByAll(prog, [b] + rest))| ==
            (if Header(prog, b[0]) then 0 else |b|) + |Concat(SparedByAll(prog, rest))|
  {
    assert ([b] + rest)[1..] == rest;
    var tail := SparedByAll(prog, rest);
    assert [] + tail == tail && ([b] + tail)[1..] == tail;
  }

  lemma SwallowsShift(prog: seq<Cmd>, c: Cmd, open: bool, blocks: seq<Block>, next: bool, rest: seq<Block>)
    requires blocks != [] && rest == blocks[1..] && next == NextOpen(c, open, blocks[0])
    ensures (exists j: nat :: Swallows(prog, c, open, blocks, j)) <==>
            (open && !Header(prog, blocks[0][0])) || exists j: nat :: Swallows(prog, c, next, rest, j)
  {
    forall j: nat | j < |rest| ensures Swallows(prog, c, open, blocks, j + 1) <==> Swallows(prog, c, next, rest, j) {
      OpenShift(c, open, blocks, j);
    }
    if j: nat :| Swallows(prog, c, open, blocks, j) {
      assert j > 0 ==> Swallows(prog, c, next, rest, j - 1);
    }
    if j: nat :| Swallows(prog, c, next, rest, j) {
      assert Swallows(prog, c, open, blocks, j + 1);
    }
    if open && !Header(prog, blocks[0][0]) {
      assert Swallows(prog, c, open, blocks, 0);
    }
  }

  /** When command `i` runs, a statement that no command is after begins while its range is open. */
  ghost predicate Overruns(prog: seq<Cmd>, blocks: seq<Block>, i: nat, j: nat) {
    i < |prog| && Swallows(prog, prog[i], false, Left(prog, blocks, i), j)
  }

  ghost predicate SomeSwallowed(prog: seq<Cmd>, c: Cmd, blocks: seq<Block>) {
    exists j: nat :: Swallows(prog, c, false, blocks, j)
  }

  ghost predicate OverrunsBefore(prog: seq<Cmd>, blocks: seq<Block>, n: nat) {
    exists i: nat, j: nat :: i < n && Overruns(prog, blocks, i, j)
  }

  lemma OverrunsSplit(prog: seq<Cmd>, blocks: seq<Block>, n: nat, before: seq<Block>)
    requires n < |prog| && before == Left(prog, blocks, n)
    ensures OverrunsBefore(prog, blocks, n + 1) <==>
            OverrunsBefore(prog, blocks, n) || SomeSwallowed(prog, prog[n], before)
  {
    if j: nat :| Swallows(prog, prog[n], false, before, j) {
      assert Overruns(prog, blocks, n, j);
    }
    if OverrunsBefore(prog, blocks, n + 1) {
      var i: nat, j: nat :| i < n + 1 && Overruns(prog, blocks, i, j);
      assert i == n ==> Swallows(prog, prog[n], false, before, j);
    }
  }

  lemma {:induction false} LossesAddUp(prog: seq<Cmd>, blocks: seq<Block>, n: nat)
    requires n <= |prog| && Shaped(prog, blocks)
    ensures Lessens(SparedByAll(prog, blocks), SparedByAll(prog, Left(prog, blocks, n)),
                    OverrunsBefore(prog, blocks, n))
  {
    if n > 0 {
      LossesAddUp(prog, blocks, n - 1);
      LossStep(prog, blocks, n - 1, SparedByAll(prog, blocks), OverrunsBefore(prog, blocks, n - 1));
    }
  }

  lemma LossStep(prog: seq<Cmd>, blocks: seq<Block>, n: nat, was: seq<Block>, lost: bool)
    requires n < |prog| && Shaped(prog, blocks) && (lost <==> OverrunsBefore(prog, blocks, n))
    requires Lessens(was, SparedByAll(prog, Left(prog, blocks, n)), lost)
    ensures Lessens(was, SparedByAll(prog, Left(prog, blocks, n + 1)), OverrunsBefore(prog, blocks, n + 1))
  {
    var before := Left(prog, blocks, n);
    LeftFit(prog, blocks, n);
    OverrunsSplit(prog, blocks, n, before);
    OneLoss(prog, prog[n], before, was, lost);
  }

  /** Lines are missing, or nothing is. */
  ghost predicate Lessens(was: seq<Block>, left: seq<Block>, lost: bool) {
    if lost then |Concat(left)| < |Concat(was)| else left == was
  }

  lemma OneLoss(prog: seq<Cmd>, c: Cmd, blocks: seq<Block>, was: seq<Block>, lost: bool)
    requires c in prog && Shaped(prog, blocks) && Lessens(was, SparedByAll(prog, blocks), lost)
    ensures Lessens(was, SparedByAll(prog, KeptFrom(c, false, blocks)), lost || SomeSwallowed(prog, c, blocks))
  {
    KeptLoses(prog, c, false, blocks);
  }

  lemma {:induction false} NothingToSpare(prog: seq<Cmd>, blocks: seq<Block>)
    requires forall b :: b in blocks ==> !Header(prog, b[0])
    ensures SparedByAll(prog, blocks) == blocks
  {
    if blocks != [] {
      assert blocks[0] in blocks;
      NothingToSpare(prog, blocks[1..]);
      assert [blocks[0]] + blocks[1..] == blocks;
    }
  }

  /**
    Where the statements a script is after are one line long or end at their only end line, and
    all others are arbitrary, the script removes exactly the former if and only if, for no
    command, one of the others begins while the command's range is open.
  */
  lemma ScriptExactIff(prog: seq<Cmd>, blocks: seq<Block>)
    requires Shaped(prog, blocks)
    ensures Run(prog, Concat(blocks)) == Concat(SparedByAll(prog, blocks)) <==>
            forall i: nat, j: nat :: !Overruns(prog, blocks, i, j)
  {
    var n := |prog|;
    ScriptIsPipe(prog, Concat(blocks));
    PipeLeaves(prog, blocks, n);
    assert prog[..n] == prog;
    LeftFit(prog, blocks, n);
    NothingToSpare(prog, Left(prog, blocks, n));
    LossesAddUp(prog, blocks, n);
    assert forall i: nat, j: nat :: Overruns(prog, blocks, i, j) ==> i < n;
  }

  lemma {:induction false} PipePlain(prog: seq<Cmd>, plain: seq<Line>, rest: seq<Line>)
    requires Clean(prog, plain)
    ensures Pipe(prog, plain + rest) == plain + Pipe(prog, rest)
    decreases |prog|
  {
    if prog != [] {
      FilterPlain(prog[0], plain, rest);
      assert Clean(prog[1..], plain) by {
        forall i, l | 0 <= i < |prog[1..]| && l in plain ensures !prog[1..][i].first(l) {
          assert prog[1..][i] == prog[i + 1];
        }
      }
      PipePlain(prog[1..], plain, Filter(prog[0], rest));
    }
  }

  /** The overrun in a whole script: the statement after a one-line header of `c` is gone, whatever
      it is and follows. */
  lemma ScriptOverruns(
    before: seq<Cmd>, c: Cmd, after: seq<Cmd>, header: Line, victim: seq<Line>, rest: seq<Line>)
    requires c.DeleteRange? && c.first(header) && Clean(before, [header] + victim)
    requires victim != [] && c.last(victim[|victim| - 1])
    requires forall i :: 0 <= i < |victim| - 1 ==> !c.last(victim[i])
    ensures Run(before + [c] + after, [header] + victim + rest) == Run(before + [c] + after, rest)
  {
    var prog, lines := before + [c] + after, [header] + victim + rest;
    ScriptIsPipe(prog, lines);
    ScriptIsPipe(prog, rest);
    PipeAppend(before + [c], after, lines);
    PipeAppend(before + [c], after, rest);
    PipeSnoc(before, c, lines);
    PipeSnoc(before, c, rest);
    PipePlain(before, [header] + victim, rest);
    var left := Pipe(before, rest);
    var start := [header] + victim + left;
    assert start[0] == header && start[1..] == victim + left;
    FilterOpen(c, victim, left);
    assert Filter(c, start) == Filter(c, left);
  }
}
