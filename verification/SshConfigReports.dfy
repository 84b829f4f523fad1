/**
  What an import reports: over every include graph, the warnings are those the lines of the files read give rise to,
  besides the refusals of files that were seen before or lie too deep.
 */
module SshConfigReports {
  import opened Options
  import opened Text
  import opened Lexer
  import opened SshConfig
  import opened SshConfigLaws
  import opened ConfigScan

  /** One of the first `n` arguments of an `Include` names nothing. */
  predicate ArgReports(w: World, file: string, d: Directive, n: nat, base: string, warning: Warning)
    requires n <= |d.args|
  {
    exists a | 0 <= a < n ::
      w.targets(base, w.expandTilde(d.args[a])) == [] && warning == IncludeUnreadable(file, d.line, d.args[a])
  }

  /** Line `n` of a file gives rise to the warning. */
  predicate LineReports(w: World, file: string, ds: seq<Directive>, n: nat, warning: Warning)
    requires n < |ds|
  {
    var d := ds[n];
    if d.keyword == "match" then warning == MatchUnsupported(file, d.line)
    else if d.keyword == "include" then
      match w.parent(file)
      case None => warning == IncludeUnreadable(file, d.line, Join(d.args, " "))
      case Some(base) => ArgReports(w, file, d, |d.args|, base, warning)
    else
      && d.keyword != "host" && d.keyword !in UNDERSTOOD && OpenAt(ds, n)
      && warning == UnsupportedKeyword(file, d.line, d.keyword)
  }

  /** One of the first `n` lines gives rise to the warning. */
  predicate LinesReport(w: World, file: string, ds: seq<Directive>, n: nat, warning: Warning)
    requires n <= |ds|
  {
    exists k | 0 <= k < n :: LineReports(w, file, ds, k, warning)
  }

  predicate FileReports(w: World, file: string, warning: Warning) {
    w.text(file).Some?
    && var ds := Tokenize(w.text(file).value); LinesReport(w, file, ds, |ds|, warning)
  }

  /** A file of the list, from index `from` on, gives rise to the warning. */
  predicate FilesReport(w: World, files: seq<(string, nat)>, from: nat, warning: Warning) {
    exists i | from <= i < |files| :: FileReports(w, files[i].0, warning)
  }

  /** From `p` to `q` exactly the warnings were added that the files read in between give rise to, refusals aside. */
  ghost predicate Tells(w: World, p: Progress, q: Progress) {
    && Extends(p, q)
    && forall warning: Warning | !warning.IncludeCycle? ::
         warning in q.warnings <==> warning in p.warnings || FilesReport(w, q.filesRead, |p.filesRead|, warning)
  }

  lemma NothingTold(w: World, p: Progress, q: Progress)
    requires Extends(p, q) && q.filesRead == p.filesRead
    requires forall warning: Warning | !warning.IncludeCycle? :: warning in q.warnings <==> warning in p.warnings
    ensures Tells(w, p, q)
  {
  }

  lemma FilesSplit(w: World, a: seq<(string, nat)>, b: seq<(string, nat)>, from: nat, warning: Warning)
    requires from <= |a| && a <= b
    ensures FilesReport(w, b, from, warning) <==> FilesReport(w, a, from, warning) || FilesReport(w, b, |a|, warning)
  {
    if FilesReport(w, b, from, warning) {
      var i :| from <= i < |b| && FileReports(w, b[i].0, warning);
      assert i < |a| ==> a[i] == b[i];
    }
    if FilesReport(w, a, from, warning) {
      var i :| from <= i < |a| && FileReports(w, a[i].0, warning);
      assert a[i] == b[i];
    }
  }

  lemma TellsTransitive(w: World, p: Progress, q: Progress, r: Progress)
    requires Tells(w, p, q) && Tells(w, q, r)
    ensures Tells(w, p, r)
  {
    ExtendsTransitive(p, q, r);
    forall warning: Warning | !warning.IncludeCycle?
      ensures warning in r.warnings <==> warning in p.warnings || FilesReport(w, r.filesRead, |p.filesRead|, warning)
    {
      FilesSplit(w, q.filesRead, r.filesRead, |p.filesRead|, warning);
    }
  }

  /** Midway through a file entered with `p`: besides, the warnings of its own lines so far. */
  ghost predicate TellsSoFar(w: World, file: string, ds: seq<Directive>, n: nat, p: Progress, q: Progress)
    requires n <= |ds|
  {
    && Extends(p, q)
    && forall warning: Warning | !warning.IncludeCycle? ::
         warning in q.warnings <==>
           || warning in p.warnings || LinesReport(w, file, ds, n, warning)
           || FilesReport(w, q.filesRead, |p.filesRead|, warning)
  }

  lemma LinesReportNext(w: World, file: string, ds: seq<Directive>, n: nat, warning: Warning)
    requires n < |ds|
    ensures LinesReport(w, file, ds, n + 1, warning) <==>
              LinesReport(w, file, ds, n, warning) || LineReports(w, file, ds, n, warning)
  {
  }

  /** A step of which the warnings and the files are known. */
  lemma TellsNext(w: World, file: string, ds: seq<Directive>, n: nat, p: Progress, q: Progress, r: Progress)
    requires n < |ds| && TellsSoFar(w, file, ds, n, p, q) && Extends(q, r)
    requires forall warning: Warning | !warning.IncludeCycle? ::
               warning in r.warnings <==>
                 || warning in q.warnings || LineReports(w, file, ds, n, warning)
                 || FilesReport(w, r.filesRead, |q.filesRead|, warning)
    ensures TellsSoFar(w, file, ds, n + 1, p, r)
  {
    ExtendsTransitive(p, q, r);
    forall warning: Warning | !warning.IncludeCycle?
      ensures warning in r.warnings <==>
                || warning in p.warnings || LinesReport(w, file, ds, n + 1, warning)
                || FilesReport(w, r.filesRead, |p.filesRead|, warning)
    {
      LinesReportNext(w, file, ds, n, warning);
      FilesSplit(w, q.filesRead, r.filesRead, |p.filesRead|, warning);
    }
  }

  lemma ReadKeeps(w: World, file: string, r: Reading, d: Directive, after: Reading)
    requires after == Read(w, file, r, d)
    ensures Extends(r.p, after.p) && after.p.filesRead == r.p.filesRead
  {
    ReadShape(w, file, r, r, d);
    FlushCounts(r.p.blocks, r.current);
  }

  /** A line that is no `Include`. */
  lemma ReadTells(
      w: World, file: string, ds: seq<Directive>, n: nat, r: Reading, after: Reading, warning: Warning, reports: bool)
    requires n < |ds| && ds[n].keyword != "include" && after == Read(w, file, r, ds[n])
    requires (r.current.Some? <==> OpenAt(ds, n)) && (r.inMatch ==> r.current.None?)
    requires reports == LineReports(w, file, ds, n, warning)
    ensures warning in after.p.warnings <==> warning in r.p.warnings || reports
  {
  }

  lemma FirstOfFiles(w: World, files: seq<(string, nat)>, n: nat, warning: Warning)
    requires n < |files|
    ensures FilesReport(w, files, n, warning) <==>
              FileReports(w, files[n].0, warning) || FilesReport(w, files, n + 1, warning)
  {
  }

  /** The end of a file: its own lines are the first of the files read since before it was entered. */
  lemma FileEnds(w: World, path: string, depth: nat, p: Progress, q: Progress, r: Progress, final: Progress)
    requires w.text(path).Some? && q == Entered(w, path, depth, p)
    requires
      var ds := Tokenize(w.text(path).value);
      TellsSoFar(w, path, ds, |ds|, q, r)
    requires Extends(r, final) && final.warnings == r.warnings && final.filesRead == r.filesRead
    ensures Tells(w, p, final)
  {
    ExtendsTransitive(p, q, r);
    ExtendsTransitive(p, r, final);
    assert final.filesRead[|p.filesRead|] == q.filesRead[|p.filesRead|] == (path, depth);
    forall warning: Warning | !warning.IncludeCycle?
      ensures FilesReport(w, final.filesRead, |p.filesRead|, warning) <==>
                FileReports(w, path, warning) || FilesReport(w, final.filesRead, |q.filesRead|, warning)
    {
      FirstOfFiles(w, final.filesRead, |p.filesRead|, warning);
    }
  }

  // ---------------------------------------------------------------- the whole graph

  lemma {:induction false} FileTells(w: World, path: string, depth: nat, p: Progress, after: Progress)
    requires after == ParseInto(w, path, depth, p)
    ensures Tells(w, p, after)
    decreases Rank(depth), 4, 0
  {
    if depth > MAX_INCLUDE_DEPTH || w.canonical(path) in p.visited || w.text(path).None? {
      NothingTold(w, p, after);
    } else {
      var ds := Tokenize(w.text(path).value);
      var q := Entered(w, path, depth, p);
      var r := AbsorbUpTo(w, ds, |ds|, path, depth, Reading(q, None, false));
      LinesTell(w, ds, |ds|, path, depth, q, r);
      FlushCounts(r.p.blocks, r.current);
      FileEnds(w, path, depth, p, q, r.p, after);
    }
  }

  lemma {:induction false} LinesTell(
      w: World, ds: seq<Directive>, n: nat, file: string, depth: nat, p: Progress, r: Reading)
    requires n <= |ds| && depth <= MAX_INCLUDE_DEPTH
    requires r == AbsorbUpTo(w, ds, n, file, depth, Reading(p, None, false))
    ensures TellsSoFar(w, file, ds, n, p, r.p)
    decreases Rank(depth), 3, n
  {
    if n > 0 {
      var before := AbsorbUpTo(w, ds, n - 1, file, depth, Reading(p, None, false));
      LinesTell(w, ds, n - 1, file, depth, p, before);
      CurrentIsOpen(w, ds, n - 1, file, depth, p);
      if ds[n - 1].keyword == "include" {
        IncludeTells(w, ds, n - 1, file, depth, before.p, r.p);
      } else {
        ReadKeeps(w, file, before, ds[n - 1], r);
        forall warning: Warning
          ensures warning in r.p.warnings <==>
                    warning in before.p.warnings || LineReports(w, file, ds, n - 1, warning)
        {
          ReadTells(w, file, ds, n - 1, before, r, warning, LineReports(w, file, ds, n - 1, warning));
        }
      }
      TellsNext(w, file, ds, n - 1, p, before.p, r.p);
    }
  }

  lemma {:induction false} IncludeTells(
      w: World, ds: seq<Directive>, n: nat, file: string, depth: nat, p: Progress, after: Progress)
    requires n < |ds| && ds[n].keyword == "include" && depth <= MAX_INCLUDE_DEPTH
    requires after == Include(w, ds[n], file, depth, p)
    ensures Extends(p, after)
    ensures forall warning: Warning | !warning.IncludeCycle? ::
              warning in after.warnings <==>
                || warning in p.warnings || LineReports(w, file, ds, n, warning)
                || FilesReport(w, after.filesRead, |p.filesRead|, warning)
    decreases Rank(depth), 2, 0
  {
    match w.parent(file)
    case None =>
    case Some(base) =>
      ArgsTell(w, ds[n], |ds[n].args|, base, file, depth, p, after);
  }

  /** From `p` to `q`: the warnings of the first `n` arguments, and of the files they brought. */
  ghost predicate ArgsTold(w: World, d: Directive, n: nat, base: string, file: string, p: Progress, q: Progress)
    requires n <= |d.args|
  {
    && Extends(p, q)
    && forall warning: Warning | !warning.IncludeCycle? ::
         warning in q.warnings <==>
           || warning in p.warnings || ArgReports(w, file, d, n, base, warning)
           || FilesReport(w, q.filesRead, |p.filesRead|, warning)
  }

  lemma ArgUnreadable(w: World, d: Directive, n: nat, base: string, file: string, p: Progress, q: Progress)
    requires n < |d.args| && ArgsTold(w, d, n, base, file, p, q)
    requires w.targets(base, w.expandTilde(d.args[n])) == []
    ensures ArgsTold(w, d, n + 1, base, file, p, Warned(q, IncludeUnreadable(file, d.line, d.args[n])))
  {
    ExtendsTransitive(p, q, Warned(q, IncludeUnreadable(file, d.line, d.args[n])));
  }

  lemma ArgRead(w: World, d: Directive, n: nat, base: string, file: string, p: Progress, q: Progress, r: Progress)
    requires n < |d.args| && ArgsTold(w, d, n, base, file, p, q) && Tells(w, q, r)
    requires w.targets(base, w.expandTilde(d.args[n])) != []
    ensures ArgsTold(w, d, n + 1, base, file, p, r)
  {
    ExtendsTransitive(p, q, r);
    forall warning: Warning | !warning.IncludeCycle?
      ensures ArgReports(w, file, d, n + 1, base, warning) <==> ArgReports(w, file, d, n, base, warning)
      ensures FilesReport(w, r.filesRead, |p.filesRead|, warning) <==>
                || FilesReport(w, q.filesRead, |p.filesRead|, warning)
                || FilesReport(w, r.filesRead, |q.filesRead|, warning)
    {
      FilesSplit(w, q.filesRead, r.filesRead, |p.filesRead|, warning);
    }
  }

  lemma {:induction false} ArgsTell(
      w: World, d: Directive, n: nat, base: string, file: string, depth: nat, p: Progress, after: Progress)
    requires n <= |d.args| && depth <= MAX_INCLUDE_DEPTH && after == IncludeUpTo(w, d, n, base, file, depth, p)
    ensures ArgsTold(w, d, n, base, file, p, after)
    decreases Rank(depth), 1, n
  {
    if n > 0 {
      var before := IncludeUpTo(w, d, n - 1, base, file, depth, p);
      ArgsTell(w, d, n - 1, base, file, depth, p, before);
      var targets := w.targets(base, w.expandTilde(d.args[n - 1]));
      if targets == [] {
        ArgUnreadable(w, d, n - 1, base, file, p, before);
      } else {
        FilesTell(w, targets, |targets|, depth, before, after);
        ArgRead(w, d, n - 1, base, file, p, before, after);
      }
    }
  }

  lemma {:induction false} FilesTell(
      w: World, targets: seq<string>, n: nat, depth: nat, p: Progress, after: Progress)
    requires n <= |targets| && depth <= MAX_INCLUDE_DEPTH && after == FilesUpTo(w, targets, n, depth, p)
    ensures Tells(w, p, after)
    decreases Rank(depth), 0, n
  {
    if n == 0 {
      NothingTold(w, p, p);
    } else {
      var before := FilesUpTo(w, targets, n - 1, depth, p);
      FilesTell(w, targets, n - 1, depth, p, before);
      FileTells(w, targets[n - 1], depth + 1, before, after);
      TellsTransitive(w, p, before, after);
    }
  }

  /**
    Over every include graph: a warning other than a refusal is given exactly when a line of a file read gives rise to
    it. A `Match` line does, with its number; an unknown keyword inside a stanza; an `Include` argument that names
    nothing, or all of an `Include` without a directory to look in.
   */
  lemma EveryReportIsGiven(w: World, path: string, warning: Warning)
    requires !warning.IncludeCycle?
    ensures
      var p := ParseInto(w, path, 0, NOTHING);
      warning in p.warnings <==> FilesReport(w, p.filesRead, 0, warning)
  {
    FileTells(w, path, 0, NOTHING, ParseInto(w, path, 0, NOTHING));
  }

  /** And the preview shows them: nothing the lines of the files read give rise to is lost on the way, and no more. */
  lemma PreviewReports(w: World, path: string, find: Lookup, warning: Warning)
    requires Scanned(w, path, find).Some? && !warning.IncludeCycle?
    ensures
      warning in Scanned(w, path, find).value.warnings <==>
        FilesReport(w, ParseInto(w, path, 0, NOTHING).filesRead, 0, warning)
  {
    EveryReportIsGiven(w, path, warning);
  }
}
