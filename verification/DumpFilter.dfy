/** `filter_dump` of the PostgreSQL restore stage: three sed scripts over files of the scratch directory. */
module DumpFilter {
  import opened Wrappers
  import opened Sed

  /** The regular expressions of the scripts, as arbitrary predicates on lines. */
  datatype Patterns = Patterns(
    setTransactionTimeout: Pattern,
    restrictMeta: Pattern,
    unrestrictMeta: Pattern,
    dropAuditExtension: Pattern,
    createAuditExtension: Pattern,
    commentAuditExtension: Pattern,
    dropAuditTrigger: Pattern,
    createAuditTrigger: Pattern,
    alterAuditTrigger: Pattern,
    commentAuditTrigger: Pattern,
    dropAuditFunction: Pattern,
    createAuditFunction: Pattern,
    alterAuditFunction: Pattern,
    commentAuditFunction: Pattern,
    grantAuditFunction: Pattern,
    revokeAuditFunction: Pattern,
    dropTimescale: Pattern,
    createTimescale: Pattern,
    commentTimescale: Pattern,
    copyTimescaleCatalog: Pattern,
    endsStatement: Pattern)

  function MetaScript(p: Patterns): seq<Cmd> {
    [Delete(p.setTransactionTimeout), Delete(p.restrictMeta), Delete(p.unrestrictMeta)]
  }

  function AuditScript(p: Patterns): seq<Cmd> {
    [
      Delete(p.dropAuditExtension),
      Delete(p.createAuditExtension),
      Delete(p.commentAuditExtension),
      Delete(p.dropAuditTrigger),
      DeleteRange(p.createAuditTrigger, p.endsStatement),
      Delete(p.alterAuditTrigger),
      Delete(p.commentAuditTrigger),
      Delete(p.dropAuditFunction),
      DeleteRange(p.createAuditFunction, p.endsStatement),
      DeleteRange(p.alterAuditFunction, p.endsStatement),
      Delete(p.commentAuditFunction),
      Delete(p.grantAuditFunction),
      Delete(p.revokeAuditFunction)
    ]
  }

  function TimescaleScript(p: Patterns): seq<Cmd> {
    [Delete(p.dropTimescale), Delete(p.createTimescale), Delete(p.commentTimescale)]
  }

  /** The one script that does what the chosen stages do in sequence. */
  function FilterScript(p: Patterns, audit: bool, timescale: bool): seq<Cmd> {
    MetaScript(p) + (if audit then AuditScript(p) else []) + (if timescale then TimescaleScript(p) else [])
  }

  /** The dump comes from a TimescaleDB database. */
  predicate IsTimescale(p: Patterns, dump: seq<Line>) {
    exists i :: 0 <= i < |dump| &&
      (p.createTimescale(dump[i]) || p.dropTimescale(dump[i]) || p.copyTimescaleCatalog(dump[i]))
  }

  /** What psql is given for a dump. */
  function Filtered(p: Patterns, audit: bool, dump: seq<Line>): seq<Line> {
    Run(FilterScript(p, audit, IsTimescale(p, dump)), dump)
  }

  /** The files `filter_dump` names: dump, dump.filtered, dump.filtered.meta, dump.filtered.pgaudit. */
  datatype File = Dump | Out | Meta | Audit | Other(name: string)

  /** Scripts run one after the other are the concatenated script. */
  lemma RunAppend(a: seq<Cmd>, b: seq<Cmd>, lines: seq<Line>)
    ensures Run(a + b, lines) == Run(b, Run(a, lines))
  {
    PipeAppend(a, b, lines);
    ScriptIsPipe(a + b, lines);
    ScriptIsPipe(a, lines);
    ScriptIsPipe(b, Run(a, lines));
  }

  function Stage(on: bool, script: seq<Cmd>, lines: seq<Line>): seq<Line> {
    if on then Run(script, lines) else lines
  }

  /** The stages over real files equal the one script. */
  lemma StagesAreOneScript(p: Patterns, audit: bool, timescale: bool, dump: seq<Line>)
    ensures Stage(timescale, TimescaleScript(p), Stage(audit, AuditScript(p), Run(MetaScript(p), dump)))
         == Run(FilterScript(p, audit, timescale), dump)
  {
    var a := if audit then AuditScript(p) else [];
    var t := if timescale then TimescaleScript(p) else [];
    EmptyScript(Run(MetaScript(p), dump));
    RunAppend(MetaScript(p), a, dump);
    EmptyScript(Run(MetaScript(p) + a, dump));
    RunAppend(MetaScript(p) + a, t, dump);
  }

  class Workdir {
    var files: map<File, seq<Line>>

    constructor (files: map<File, seq<Line>>)
      ensures this.files == files
    {
      this.files := files;
    }

    /** `sed … < src > dst`; a sed that stops half way leaves what it wrote so far. */
    method Strip(script: seq<Cmd>, src: File, dst: File, fault: Option<seq<Line>>) returns (ok: bool)
      requires src in files && src != dst
      modifies this
      ensures ok <==> fault.None?
      ensures files == old(files)[dst := if ok then Run(script, old(files)[src]) else fault.value]
    {
      if fault.Some? {
        files := files[dst := fault.value];
        return false;
      }
      files := files[dst := Run(script, files[src])];
      ok := true;
    }

    /** `rm -f`. */
    method Remove(f: File, fault: Option<seq<Line>>) returns (ok: bool)
      modifies this
      ensures ok <==> fault.None?
      ensures files == if ok then old(files) - {f} else old(files)
    {
      ok := fault.None?;
      if ok {
        files := files - {f};
      }
    }

    /** `mv`. */
    method Move(src: File, dst: File, fault: Option<seq<Line>>) returns (ok: bool)
      requires src in files && src != dst
      modifies this
      ensures ok <==> fault.None?
      ensures files == if ok then old(files)[dst := old(files)[src]] - {src} else old(files)
    {
      ok := fault.None?;
      if ok {
        files := files[dst := files[src]] - {src};
      }
    }

    /** The pgAudit stage; `meta` is the file that holds the dump after it. */
    method StripAudit(p: Patterns, faults: Faults) returns (ok: bool)
      requires Meta in files
      modifies this
      ensures ok <==> faults(1).None? && faults(2).None?
      ensures ok ==> files == old(files)[Audit := Run(AuditScript(p), old(files)[Meta])] - {Meta}
      ensures !ok ==> files - SCRATCH == old(files) - SCRATCH
    {
      ok := Strip(AuditScript(p), Meta, Audit, faults(1));
      if ok {
        ok := Remove(Meta, faults(2));
      }
    }

    /** The last stage: strip TimescaleDB lines or rename. */
    method StripTimescale(p: Patterns, meta: File, timescale: bool, faults: Faults) returns (ok: bool)
      requires meta in files && (meta == Meta || meta == Audit)
      modifies this
      ensures ok <==> faults(3).None? && (timescale ==> faults(4).None?)
      ensures ok ==> files == old(files)[Out := Stage(timescale, TimescaleScript(p), old(files)[meta])] - {meta}
      ensures !ok ==> files - SCRATCH == old(files) - SCRATCH
    {
      if timescale {
        ok := Strip(TimescaleScript(p), meta, Out, faults(3));
        if ok {
          ok := Remove(meta, faults(4));
        }
      } else {
        ok := Move(meta, Out, faults(3));
      }
    }

    /**
      filter_dump, whose commands may stop half way.  If none does, it leaves the filtered dump
      in its file and none of the intermediate files, everything else as it was.  If one does,
      it stops there, and only the three scratch files may differ: the dump is never touched.
    */
    method FilterDump(p: Patterns, audit: bool, timescale: bool, faults: Faults) returns (ok: bool)
      modifies this
      ensures ok <==> Dump in old(files) && !Breaks(audit, timescale, faults)
      ensures ok ==> files == Outcome(p, audit, timescale, old(files))
      ensures !ok ==> files - SCRATCH == old(files) - SCRATCH
    {
      if Dump !in files {
        return false;
      }
      StagesAreOneScript(p, audit, timescale, files[Dump]);
      ok := Strip(MetaScript(p), Dump, Meta, faults(0));
      if !ok {
        return;
      }
      ok := StripRest(p, audit, timescale, faults);
      ScratchIsGone(old(files), Run(MetaScript(p), old(files)[Dump]), audit);
    }

    /** The stages after the first. */
    method StripRest(p: Patterns, audit: bool, timescale: bool, faults: Faults) returns (ok: bool)
      requires Meta in files
      modifies this
      ensures ok <==> faults(3).None? && (timescale ==> faults(4).None?) &&
                      (audit ==> faults(1).None? && faults(2).None?)
      ensures ok ==>
                files == (old(files) - Middle(audit))[
                           Out := Stage(timescale, TimescaleScript(p), Stage(audit, AuditScript(p), old(files)[Meta]))]
      ensures !ok ==> files - SCRATCH == old(files) - SCRATCH
    {
      var meta := Meta;
      if audit {
        ok := StripAudit(p, faults);
        if !ok {
          return;
        }
        meta := Audit;
      }
      ok := StripTimescale(p, meta, timescale, faults);
    }
  }

  /** The intermediate files. */
  function Middle(audit: bool): set<File> {
    if audit then {Meta, Audit} else {Meta}
  }

  lemma ScratchIsGone(files: map<File, seq<Line>>, meta: seq<Line>, audit: bool)
    ensures files[Meta := meta] - Middle(audit) == files - Middle(audit)
    ensures files[Meta := meta] - SCRATCH == files - SCRATCH
  {
  }

  /** Which of the commands of `filter_dump` stops, and what a stopped sed leaves. */
  type Faults = nat -> Option<seq<Line>>

  const SCRATCH: set<File> := {Out, Meta, Audit}

  predicate Breaks(audit: bool, timescale: bool, faults: Faults) {
    || faults(0).Some? || faults(3).Some?
    || (audit && (faults(1).Some? || faults(2).Some?))
    || (timescale && faults(4).Some?)
  }

  /** The directory after an undisturbed `filter_dump`. */
  function Outcome(p: Patterns, audit: bool, timescale: bool, files: map<File, seq<Line>>): map<File, seq<Line>>
    requires Dump in files
  {
    (files - Middle(audit))[Out := Run(FilterScript(p, audit, timescale), files[Dump])]
  }

  /**
    What psql is given is a subsequence of the dump with no statement header of any chosen
    filter left in it, and filtering it again would change nothing.
  */
  lemma FilterIsCleanAndIdempotent(p: Patterns, audit: bool, timescale: bool, dump: seq<Line>)
    ensures var script := FilterScript(p, audit, timescale);
            var once := Run(script, dump);
            Subsequence(once, dump) && Clean(script, once) && Run(script, once) == once
  {
    var script := FilterScript(p, audit, timescale);
    ScriptIsPipe(script, dump);
    PipeOnlyDeletes(script, dump);
    ScriptIsIdempotent(script, dump);
  }

  /** Lines no filtered dump may hold: client settings, and pgAudit and
      TimescaleDB statements where they are stripped. */
  predicate Unwanted(p: Patterns, audit: bool, timescale: bool, l: Line) {
    || p.setTransactionTimeout(l) || p.restrictMeta(l) || p.unrestrictMeta(l)
    || (audit && (
          || p.dropAuditExtension(l) || p.createAuditExtension(l) || p.commentAuditExtension(l)
          || p.dropAuditTrigger(l) || p.createAuditTrigger(l) || p.alterAuditTrigger(l) || p.commentAuditTrigger(l)
          || p.dropAuditFunction(l) || p.createAuditFunction(l) || p.alterAuditFunction(l) || p.commentAuditFunction(l)
          || p.grantAuditFunction(l) || p.revokeAuditFunction(l)))
    || (timescale && (p.dropTimescale(l) || p.createTimescale(l) || p.commentTimescale(l)))
  }

  lemma AuditHeaders(p: Patterns, l: Line)
    ensures Header(AuditScript(p), l) <==>
            || p.dropAuditExtension(l) || p.createAuditExtension(l) || p.commentAuditExtension(l)
            || p.dropAuditTrigger(l) || p.createAuditTrigger(l) || p.alterAuditTrigger(l) || p.commentAuditTrigger(l)
            || p.dropAuditFunction(l) || p.createAuditFunction(l)
            || p.alterAuditFunction(l) || p.commentAuditFunction(l)
            || p.grantAuditFunction(l) || p.revokeAuditFunction(l)
  {
    var a := AuditScript(p);
    assert a[0].first(l) == p.dropAuditExtension(l) && a[1].first(l) == p.createAuditExtension(l);
    assert a[2].first(l) == p.commentAuditExtension(l) && a[3].first(l) == p.dropAuditTrigger(l);
    assert a[4].first(l) == p.createAuditTrigger(l) && a[5].first(l) == p.alterAuditTrigger(l);
    assert a[6].first(l) == p.commentAuditTrigger(l) && a[7].first(l) == p.dropAuditFunction(l);
    assert a[8].first(l) == p.createAuditFunction(l) && a[9].first(l) == p.alterAuditFunction(l);
    assert a[10].first(l) == p.commentAuditFunction(l) && a[11].first(l) == p.grantAuditFunction(l);
    assert a[12].first(l) == p.revokeAuditFunction(l);
  }

  lemma OtherHeaders(p: Patterns, l: Line)
    ensures Header(MetaScript(p), l) <==> p.setTransactionTimeout(l) || p.restrictMeta(l) || p.unrestrictMeta(l)
    ensures Header(TimescaleScript(p), l) <==> p.dropTimescale(l) || p.createTimescale(l) || p.commentTimescale(l)
  {
    var m, t := MetaScript(p), TimescaleScript(p);
    assert m[0].first(l) == p.setTransactionTimeout(l) && m[1].first(l) == p.restrictMeta(l);
    assert m[2].first(l) == p.unrestrictMeta(l);
    assert t[0].first(l) == p.dropTimescale(l) && t[1].first(l) == p.createTimescale(l);
    assert t[2].first(l) == p.commentTimescale(l);
  }

  lemma HeaderAppend(a: seq<Cmd>, b: seq<Cmd>, l: Line)
    ensures Header(a + b, l) <==> Header(a, l) || Header(b, l)
  {
    if Header(a, l) {
      var i :| 0 <= i < |a| && a[i].first(l);
      assert (a + b)[i].first(l);
    }
    if Header(b, l) {
      var i :| 0 <= i < |b| && b[i].first(l);
      assert (a + b)[|a| + i].first(l);
    }
  }

  lemma HeadersAreUnwanted(p: Patterns, audit: bool, timescale: bool, l: Line)
    ensures Header(FilterScript(p, audit, timescale), l) <==> Unwanted(p, audit, timescale, l)
  {
    var a := if audit then AuditScript(p) else [];
    var t := if timescale then TimescaleScript(p) else [];
    HeaderAppend(MetaScript(p), a, l);
    HeaderAppend(MetaScript(p) + a, t, l);
    AuditHeaders(p, l);
    OtherHeaders(p, l);
  }

  /**
    No unwanted line is left, and on well-formed statements the filter removes exactly those
    that begin with an unwanted line.
  */
  lemma FilterRemovesTheUnwanted(p: Patterns, audit: bool, timescale: bool, dump: seq<Line>, blocks: seq<Block>)
    ensures forall l :: l in Run(FilterScript(p, audit, timescale), dump) ==> !Unwanted(p, audit, timescale, l)
    ensures WellFormed(FilterScript(p, audit, timescale), blocks) ==>
              Run(FilterScript(p, audit, timescale), Concat(blocks)) == Concat(Wanted(p, audit, timescale, blocks))
  {
    var script := FilterScript(p, audit, timescale);
    FilterIsCleanAndIdempotent(p, audit, timescale, dump);
    forall l | l in Run(script, dump) ensures !Unwanted(p, audit, timescale, l) {
      HeadersAreUnwanted(p, audit, timescale, l);
    }
    if WellFormed(script, blocks) {
      ScriptRemovesExactlyTargets(script, blocks);
      SparedAreWanted(p, audit, timescale, blocks);
    }
  }

  /** The statements that do not begin with an unwanted line. */
  function Wanted(p: Patterns, audit: bool, timescale: bool, blocks: seq<Block>): seq<Block> {
    if blocks == [] then []
    else (if Unwanted(p, audit, timescale, blocks[0][0]) then [] else [blocks[0]])
         + Wanted(p, audit, timescale, blocks[1..])
  }

  lemma {:induction false} SparedAreWanted(p: Patterns, audit: bool, timescale: bool, blocks: seq<Block>)
    ensures SparedByAll(FilterScript(p, audit, timescale), blocks) == Wanted(p, audit, timescale, blocks)
  {
    if blocks != [] {
      HeadersAreUnwanted(p, audit, timescale, blocks[0][0]);
      SparedAreWanted(p, audit, timescale, blocks[1..]);
    }
  }

  /**
    What psql has to be given for a dump, over its lines: a subsequence of it that holds no
    unwanted line and, however the dump is cut into well-formed statements, is exactly the
    statements that do not begin with an unwanted line.  TimescaleDB lines are unwanted if some
    line creates or drops the extension or copies its catalog.
  */
  ghost predicate IsFiltered(p: Patterns, audit: bool, dump: seq<Line>, text: seq<Line>) {
    var timescale := exists l :: l in dump && (p.createTimescale(l) || p.dropTimescale(l) || p.copyTimescaleCatalog(l));
    && Subsequence(text, dump)
    && (forall l :: l in text ==> !Unwanted(p, audit, timescale, l))
    && (forall blocks :: WellFormed(FilterScript(p, audit, timescale), blocks) && Concat(blocks) == dump ==>
          text == Concat(Wanted(p, audit, timescale, blocks)))
  }

  lemma FilteredIsFiltered(p: Patterns, audit: bool, dump: seq<Line>)
    ensures IsFiltered(p, audit, dump, Filtered(p, audit, dump))
  {
    var timescale := exists l :: l in dump && (p.createTimescale(l) || p.dropTimescale(l) || p.copyTimescaleCatalog(l));
    assert IsTimescale(p, dump) <==> timescale;
    FilterIsCleanAndIdempotent(p, audit, timescale, dump);
    FilterRemovesTheUnwanted(p, audit, timescale, dump, []);
    forall blocks | WellFormed(FilterScript(p, audit, timescale), blocks) && Concat(blocks) == dump
      ensures Filtered(p, audit, dump) == Concat(Wanted(p, audit, timescale, blocks))
    {
      FilterRemovesTheUnwanted(p, audit, timescale, dump, blocks);
    }
  }

  /**
    Where unwanted statements are one line long or end at their only end line, and all others
    (comments and blank lines included) are arbitrary, the filter removes exactly the unwanted
    ones if and only if no wanted statement begins while a range is open.
  */
  lemma FilterExactIff(p: Patterns, audit: bool, timescale: bool, blocks: seq<Block>)
    requires Shaped(FilterScript(p, audit, timescale), blocks)
    ensures Run(FilterScript(p, audit, timescale), Concat(blocks)) == Concat(Wanted(p, audit, timescale, blocks)) <==>
            forall i: nat, j: nat :: !Overruns(FilterScript(p, audit, timescale), blocks, i, j)
  {
    ScriptExactIff(FilterScript(p, audit, timescale), blocks);
    SparedAreWanted(p, audit, timescale, blocks);
  }

  /** The commands that run before the one for `ALTER FUNCTION`. */
  function BeforeAlterFunction(p: Patterns): seq<Cmd> {
    MetaScript(p) + AuditScript(p)[..9]
  }

  /**
    A one-line `ALTER FUNCTION …;` on a pgAudit function takes the next statement with it: with
    the whole script, psql is given what it would be given without both, whatever follows.
  */
  lemma OneLineAlterFunctionOverruns(
    p: Patterns, timescale: bool, header: Line, victim: seq<Line>, rest: seq<Line>)
    requires p.alterAuditFunction(header) && Clean(BeforeAlterFunction(p), [header] + victim)
    requires victim != [] && p.endsStatement(victim[|victim| - 1])
    requires forall i :: 0 <= i < |victim| - 1 ==> !p.endsStatement(victim[i])
    ensures Run(FilterScript(p, true, timescale), [header] + victim + rest) ==
            Run(FilterScript(p, true, timescale), rest)
  {
    var c := DeleteRange(p.alterAuditFunction, p.endsStatement);
    var after := AuditScript(p)[10..] + if timescale then TimescaleScript(p) else [];
    assert AuditScript(p) == AuditScript(p)[..9] + [c] + AuditScript(p)[10..];
    assert FilterScript(p, true, timescale) == BeforeAlterFunction(p) + [c] + after;
    ScriptOverruns(BeforeAlterFunction(p), c, after, header, victim, rest);
  }
}
