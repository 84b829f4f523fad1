/**
  Where the stanzas of included files stand: an include graph means one flat file, in which the lines of an
  included file stand directly before the stanza its `Include` line interrupts. The stanzas are those of the
  flat file, and resolving an alias is one pass over it.
 */
module IncludeOrder {
  import opened Options
  import opened Text
  import opened Lexer
  import opened SshConfig
  import opened SshConfigLaws

  // ---------------------------------------------------------------- the flat file

  /** A line that ends whatever stanza is open: every file begins outside one. */
  const BOUNDARY := Directive(0, "match", [])

  /**
    A file being laid flat: the lines that are in place, the lines since the last `Host` or `Match`, which
    have to stay together, and the paths seen.
   */
  datatype Inlining = Inlining(done: seq<Directive>, section: seq<Directive>, visited: set<string>)

  /** All files the first `n` arguments of an `Include` name, in order. */
  function TargetsUpTo(w: World, base: string, args: seq<string>, n: nat): seq<string>
    requires n <= |args|
  {
    if n == 0 then []
    else TargetsUpTo(w, base, args, n - 1) + w.targets(base, w.expandTilde(args[n - 1]))
  }

  function TargetsOf(w: World, file: string, d: Directive): seq<string> {
    match w.parent(file)
    case None => []
    case Some(base) => TargetsUpTo(w, base, d.args, |d.args|)
  }

  function FlatFile(w: World, path: string, depth: nat, visited: set<string>): (seq<Directive>, set<string>)
    decreases Rank(depth), 2, 0
  {
    if depth > MAX_INCLUDE_DEPTH || w.canonical(path) in visited then ([], visited)
    else
      match w.text(path)
      case None => ([], visited + {w.canonical(path)})
      case Some(text) =>
        var f := FlatUpTo(w, Tokenize(text), |Tokenize(text)|, path, depth, visited + {w.canonical(path)});
        (f.done + f.section, f.visited)
  }

  predicate Heads(d: Directive) {
    d.keyword == "host" || d.keyword == "match"
  }

  function FlatLine(before: Inlining, d: Directive): Inlining {
    if Heads(d) then Inlining(before.done + before.section, [d], before.visited)
    else before.(section := before.section + [d])
  }

  /** A `Host` or `Match` begins a section; what is included goes in before the section under way. */
  function FlatUpTo(w: World, ds: seq<Directive>, n: nat, file: string, depth: nat, visited: set<string>): Inlining
    requires n <= |ds| && depth <= MAX_INCLUDE_DEPTH
    decreases Rank(depth), 1, n
  {
    if n == 0 then Inlining([], [BOUNDARY], visited)
    else
      var before := FlatUpTo(w, ds, n - 1, file, depth, visited);
      var d := ds[n - 1];
      if d.keyword == "include" then
        var targets := TargetsOf(w, file, d);
        var (lines, seen) := FlatFiles(w, targets, |targets|, depth, before.visited);
        Inlining(before.done + lines, before.section, seen)
      else FlatLine(before, d)
  }

  function FlatFiles(w: World, targets: seq<string>, n: nat, depth: nat, visited: set<string>)
    : (seq<Directive>, set<string>)
    requires n <= |targets| && depth <= MAX_INCLUDE_DEPTH
    decreases Rank(depth), 0, n
  {
    if n == 0 then ([], visited)
    else
      var (lines, seen) := FlatFiles(w, targets, n - 1, depth, visited);
      var (more, after) := FlatFile(w, targets[n - 1], depth + 1, seen);
      (lines + more, after)
  }

  /** The include graph that begins at a file, as the lines of one file. */
  function Flat(w: World, path: string): seq<Directive> {
    FlatFile(w, path, 0, {}).0
  }

  /** Lines that begin a section of their own, so that what stands before them has no part in them. */
  predicate Headed(lines: seq<Directive>) {
    NoInclude(lines) && (lines != [] ==> Heads(lines[0]))
  }

  /** The stanzas of a list of lines without `Include`. */
  function StanzasOf(w: World, lines: seq<Directive>): seq<Block> {
    var r := OwnUpTo(w, lines, |lines|, "");
    Flush(r.p.blocks, r.current)
  }

  // ---------------------------------------------------------------- sections

  lemma {:induction false} OwnPrefix(w: World, a: seq<Directive>, b: seq<Directive>, n: nat, file: string)
    requires n <= |a|
    ensures OwnUpTo(w, a + b, n, file) == OwnUpTo(w, a, n, file)
  {
    if n > 0 {
      OwnPrefix(w, a, b, n - 1, file);
      assert (a + b)[n - 1] == a[n - 1];
    }
  }

  lemma FlushBehind(a: seq<Block>, b: seq<Block>, current: Option<Block>)
    ensures Flush(a + b, current) == a + Flush(b, current)
  {
  }

  /** A headed list read after another: its stanzas come behind, its open stanza is its own. */
  lemma {:induction false} OwnAfter(w: World, a: seq<Directive>, b: seq<Directive>, n: nat)
    requires Headed(b) && 1 <= n <= |b|
    ensures
      var r, own := OwnUpTo(w, a + b, |a| + n, ""), OwnUpTo(w, b, n, "");
      && r.p.blocks == StanzasOf(w, a) + own.p.blocks && r.current == own.current && r.inMatch == own.inMatch
  {
    assert (a + b)[|a| + n - 1] == b[n - 1] && b[n - 1].keyword != "include";
    if n == 1 {
      OwnPrefix(w, a, b, |a|, "");
      assert OwnUpTo(w, b, 0, "") == Reading(NOTHING, None, false);
    } else {
      OwnAfter(w, a, b, n - 1);
      var own := OwnUpTo(w, b, n - 1, "");
      FlushBehind(StanzasOf(w, a), own.p.blocks, own.current);
    }
  }

  lemma StanzasConcat(w: World, a: seq<Directive>, b: seq<Directive>)
    requires Headed(b)
    ensures StanzasOf(w, a + b) == StanzasOf(w, a) + StanzasOf(w, b)
  {
    if b == [] {
      assert a + b == a;
      assert StanzasOf(w, b) == [];
    } else {
      OwnAfter(w, a, b, |b|);
      var own := OwnUpTo(w, b, |b|, "");
      FlushBehind(StanzasOf(w, a), own.p.blocks, own.current);
    }
  }

  lemma HeadedConcat(a: seq<Directive>, b: seq<Directive>)
    requires Headed(a) && Headed(b)
    ensures Headed(a + b)
  {
  }

  // ---------------------------------------------------------------- the graph and the flat file

  /** From `p` to `q` the stanzas of some lines were added, and the paths seen are those given. */
  ghost predicate Adds(w: World, p: Progress, q: Progress, lines: seq<Directive>, visited: set<string>) {
    Headed(lines) && q.visited == visited && q.blocks == p.blocks + StanzasOf(w, lines)
  }

  /** Midway through a file: what is gathered is what is in place, the open stanza is the section's. */
  ghost predicate Along(w: World, p: Progress, r: Reading, f: Inlining) {
    && Adds(w, p, r.p, f.done, f.visited)
    && f.section != [] && Headed(f.section)
    && (r.inMatch ==> r.current.None?)
    && var own := OwnUpTo(w, f.section, |f.section|, "");
       own.p.blocks == [] && own.current == r.current && (own.inMatch ==> own.current.None?)
  }

  lemma AddsNothing(w: World, p: Progress)
    ensures Adds(w, p, p, [], p.visited)
  {
    assert StanzasOf(w, []) == [];
  }

  lemma AddsWarned(w: World, p: Progress, q: Progress, warning: Warning, lines: seq<Directive>, visited: set<string>)
    requires Adds(w, p, q, lines, visited)
    ensures Adds(w, p, Warned(q, warning), lines, visited)
  {
  }

  lemma AddsThen(
      w: World, p: Progress, q: Progress, r: Progress,
      a: seq<Directive>, b: seq<Directive>, v: set<string>, u: set<string>)
    requires Adds(w, p, q, a, v) && Adds(w, q, r, b, u)
    ensures Adds(w, p, r, a + b, u)
  {
    StanzasConcat(w, a, b);
    HeadedConcat(a, b);
  }

  lemma SectionAlone(w: World, d: Directive)
    requires Heads(d)
    ensures
      var own := OwnUpTo(w, [d], 1, "");
      && own.p.blocks == [] && own.current == (if d.keyword == "host" then Some(Block(d.args, UNSET)) else None)
      && own.inMatch == (d.keyword == "match")
  {
    assert OwnUpTo(w, [d], 0, "") == Reading(NOTHING, None, false);
  }

  lemma AlongStarts(w: World, p: Progress)
    ensures Along(w, p, Reading(p, None, false), Inlining([], [BOUNDARY], p.visited))
  {
    AddsNothing(w, p);
    SectionAlone(w, BOUNDARY);
  }

  lemma SectionClosed(w: World, p: Progress, r: Reading, f: Inlining)
    requires Along(w, p, r, f)
    ensures Adds(w, p, r.p.(blocks := Flush(r.p.blocks, r.current)), f.done + f.section, f.visited)
  {
    StanzasConcat(w, f.done, f.section);
    HeadedConcat(f.done, f.section);
    FlushBehind(r.p.blocks, [], r.current);
    assert r.p.blocks + [] == r.p.blocks;
  }

  lemma AlongHead(w: World, file: string, p: Progress, r: Reading, f: Inlining, d: Directive)
    requires Along(w, p, r, f) && Heads(d)
    ensures Along(w, p, Read(w, file, r, d), FlatLine(f, d))
  {
    SectionClosed(w, p, r, f);
    SectionAlone(w, d);
  }

  lemma AlongBody(w: World, file: string, p: Progress, r: Reading, f: Inlining, d: Directive)
    requires Along(w, p, r, f) && !Heads(d) && d.keyword != "include"
    ensures Along(w, p, Read(w, file, r, d), FlatLine(f, d))
  {
    var section := f.section + [d];
    OwnPrefix(w, f.section, [d], |f.section|, "");
    assert section[|section| - 1] == d;
    assert OwnUpTo(w, section, |section|, "") == Read(w, "", OwnUpTo(w, f.section, |f.section|, ""), d);
  }

  lemma {:induction false} FileFlat(w: World, path: string, depth: nat, p: Progress, after: Progress)
    requires after == ParseInto(w, path, depth, p)
    ensures
      var (lines, seen) := FlatFile(w, path, depth, p.visited);
      Adds(w, p, after, lines, seen)
    decreases Rank(depth), 4, 0
  {
    AddsNothing(w, p);
    if depth <= MAX_INCLUDE_DEPTH && w.canonical(path) !in p.visited && w.text(path).Some? {
      var ds := Tokenize(w.text(path).value);
      var q := Entered(w, path, depth, p);
      var r := AbsorbUpTo(w, ds, |ds|, path, depth, Reading(q, None, false));
      var f := FlatUpTo(w, ds, |ds|, path, depth, q.visited);
      LinesFlat(w, ds, |ds|, path, depth, q, r, f);
      SectionClosed(w, q, r, f);
    }
  }

  lemma {:induction false} LinesFlat(
      w: World, ds: seq<Directive>, n: nat, file: string, depth: nat, p: Progress, r: Reading, f: Inlining)
    requires n <= |ds| && depth <= MAX_INCLUDE_DEPTH
    requires r == AbsorbUpTo(w, ds, n, file, depth, Reading(p, None, false))
    requires f == FlatUpTo(w, ds, n, file, depth, p.visited)
    ensures Along(w, p, r, f)
    decreases Rank(depth), 3, n
  {
    if n == 0 {
      AlongStarts(w, p);
    } else {
      var before := AbsorbUpTo(w, ds, n - 1, file, depth, Reading(p, None, false));
      var flat := FlatUpTo(w, ds, n - 1, file, depth, p.visited);
      LinesFlat(w, ds, n - 1, file, depth, p, before, flat);
      var d := ds[n - 1];
      if d.keyword == "include" {
        var targets := TargetsOf(w, file, d);
        var (lines, seen) := FlatFiles(w, targets, |targets|, depth, flat.visited);
        IncludeFlat(w, d, file, depth, before.p, r.p, lines, seen);
        AddsThen(w, p, before.p, r.p, flat.done, lines, flat.visited, seen);
      } else if Heads(d) {
        AlongHead(w, file, p, before, flat, d);
      } else {
        AlongBody(w, file, p, before, flat, d);
      }
    }
  }

  lemma {:induction false} IncludeFlat(
      w: World, d: Directive, file: string, depth: nat, p: Progress, after: Progress,
      lines: seq<Directive>, seen: set<string>)
    requires depth <= MAX_INCLUDE_DEPTH && after == Include(w, d, file, depth, p)
    requires
      var targets := TargetsOf(w, file, d);
      (lines, seen) == FlatFiles(w, targets, |targets|, depth, p.visited)
    ensures Adds(w, p, after, lines, seen)
    decreases Rank(depth), 2, 0
  {
    match w.parent(file)
    case None => AddsNothing(w, p);
    case Some(base) => ArgsFlat(w, d, |d.args|, base, file, depth, p, after, lines, seen);
  }

  lemma {:induction false} FlatFilesPrefix(
      w: World, a: seq<string>, b: seq<string>, n: nat, depth: nat, visited: set<string>)
    requires n <= |a| && depth <= MAX_INCLUDE_DEPTH
    ensures FlatFiles(w, a + b, n, depth, visited) == FlatFiles(w, a, n, depth, visited)
  {
    if n > 0 {
      FlatFilesPrefix(w, a, b, n - 1, depth, visited);
      assert (a + b)[n - 1] == a[n - 1];
    }
  }

  lemma {:induction false} FlatFilesConcat(
      w: World, a: seq<string>, b: seq<string>, n: nat, depth: nat, visited: set<string>)
    requires n <= |b| && depth <= MAX_INCLUDE_DEPTH
    ensures
      var (lines, seen) := FlatFiles(w, a, |a|, depth, visited);
      var (more, after) := FlatFiles(w, b, n, depth, seen);
      FlatFiles(w, a + b, |a| + n, depth, visited) == (lines + more, after)
  {
    var (lines, seen) := FlatFiles(w, a, |a|, depth, visited);
    if n == 0 {
      FlatFilesPrefix(w, a, b, |a|, depth, visited);
      assert lines + [] == lines;
    } else {
      FlatFilesConcat(w, a, b, n - 1, depth, visited);
      assert (a + b)[|a| + n - 1] == b[n - 1];
      var (more, after) := FlatFiles(w, b, n - 1, depth, seen);
      var (last, _) := FlatFile(w, b[n - 1], depth + 1, after);
      Assoc(lines, more, last);
    }
  }

  lemma {:induction false} ArgsFlat(
      w: World, d: Directive, n: nat, base: string, file: string, depth: nat, p: Progress, after: Progress,
      lines: seq<Directive>, seen: set<string>)
    requires n <= |d.args| && depth <= MAX_INCLUDE_DEPTH && after == IncludeUpTo(w, d, n, base, file, depth, p)
    requires
      var targets := TargetsUpTo(w, base, d.args, n);
      (lines, seen) == FlatFiles(w, targets, |targets|, depth, p.visited)
    ensures Adds(w, p, after, lines, seen)
    decreases Rank(depth), 1, n
  {
    if n == 0 {
      AddsNothing(w, p);
    } else {
      var before := IncludeUpTo(w, d, n - 1, base, file, depth, p);
      var earlier := TargetsUpTo(w, base, d.args, n - 1);
      var targets := w.targets(base, w.expandTilde(d.args[n - 1]));
      var (first, v) := FlatFiles(w, earlier, |earlier|, depth, p.visited);
      var (more, u) := FlatFiles(w, targets, |targets|, depth, v);
      ArgsFlat(w, d, n - 1, base, file, depth, p, before, first, v);
      FlatFilesConcat(w, earlier, targets, |targets|, depth, p.visited);
      ArgFlat(w, targets, IncludeUnreadable(file, d.line, d.args[n - 1]), depth, before, after, more, u);
      AddsThen(w, p, before, after, first, more, v, u);
    }
  }

  /** One argument: its files, or a warning when it names none. */
  lemma {:induction false} ArgFlat(
      w: World, targets: seq<string>, warning: Warning, depth: nat, p: Progress, after: Progress,
      lines: seq<Directive>, seen: set<string>)
    requires depth <= MAX_INCLUDE_DEPTH
    requires after == if targets == [] then Warned(p, warning) else FilesUpTo(w, targets, |targets|, depth, p)
    requires (lines, seen) == FlatFiles(w, targets, |targets|, depth, p.visited)
    ensures Adds(w, p, after, lines, seen)
    decreases Rank(depth), 1, 0
  {
    if targets == [] {
      AddsNothing(w, p);
      AddsWarned(w, p, p, warning, lines, seen);
    } else {
      FilesFlat(w, targets, |targets|, depth, p, after, lines, seen);
    }
  }

  lemma {:induction false} FilesFlat(
      w: World, targets: seq<string>, n: nat, depth: nat, p: Progress, after: Progress,
      lines: seq<Directive>, seen: set<string>)
    requires n <= |targets| && depth <= MAX_INCLUDE_DEPTH && after == FilesUpTo(w, targets, n, depth, p)
    requires (lines, seen) == FlatFiles(w, targets, n, depth, p.visited)
    ensures Adds(w, p, after, lines, seen)
    decreases Rank(depth), 0, n
  {
    if n == 0 {
      AddsNothing(w, p);
    } else {
      var before := FilesUpTo(w, targets, n - 1, depth, p);
      var (first, v) := FlatFiles(w, targets, n - 1, depth, p.visited);
      FilesFlat(w, targets, n - 1, depth, p, before, first, v);
      FileFlat(w, targets[n - 1], depth + 1, before, after);
      var (more, u) := FlatFile(w, targets[n - 1], depth + 1, v);
      AddsThen(w, p, before, after, first, more, v, u);
    }
  }

  // ---------------------------------------------------------------- what the graph means

  lemma FlatAdds(w: World, path: string, p: Progress, lines: seq<Directive>, stanzas: seq<Block>)
    requires p == ParseInto(w, path, 0, NOTHING) && lines == Flat(w, path) && stanzas == StanzasOf(w, lines)
    ensures NoInclude(lines) && p.blocks == stanzas
  {
    FileFlat(w, path, 0, NOTHING, p);
    assert [] + stanzas == stanzas;
  }

  /** Over every include graph the stanzas found are those of the flat file, in that order and no others. */
  lemma GraphIsOneFile(w: World, path: string)
    ensures NoInclude(Flat(w, path))
    ensures ParseInto(w, path, 0, NOTHING).blocks == StanzasOf(w, Flat(w, path))
  {
    FlatAdds(w, path, ParseInto(w, path, 0, NOTHING), Flat(w, path), StanzasOf(w, Flat(w, path)));
  }

  lemma {:induction false} OwnIsAll(w: World, lines: seq<Directive>, n: nat, file: string, depth: nat)
    requires n <= |lines| && NoInclude(lines) && depth <= MAX_INCLUDE_DEPTH
    ensures AbsorbUpTo(w, lines, n, file, depth, Reading(NOTHING, None, false)) == OwnUpTo(w, lines, n, file)
  {
    if n > 0 {
      OwnIsAll(w, lines, n - 1, file, depth);
    }
  }

  /**
    Importing an include graph and resolving an alias gives, for each of the eight settings, what one pass over
    the flat file hears first.
   */
  lemma ResolvedInOnePass(w: World, path: string, alias: string, asked: string)
    requires asked in UNDERSTOOD
    ensures Get(Resolve(ParseInto(w, path, 0, NOTHING).blocks, alias), asked)
         == OnePass(w, Flat(w, path), |Flat(w, path)|, alias, asked).heard
  {
    var lines := Flat(w, path);
    GraphIsOneFile(w, path);
    OwnIsAll(w, lines, |lines|, "", 0);
    TwoPhasesInStep(w, lines, |lines|, "", 0, alias, asked, NOTHING);
    var r := OwnUpTo(w, lines, |lines|, "");
    ResolveFlush(r.p.blocks, r.current, alias, asked);
  }

  lemma {:induction false} FlatWithoutInclude(
      w: World, ds: seq<Directive>, n: nat, file: string, visited: set<string>)
    requires n <= |ds| && NoInclude(ds)
    ensures
      var f := FlatUpTo(w, ds, n, file, 0, visited);
      f.done + f.section == [BOUNDARY] + ds[..n]
  {
    if n > 0 {
      FlatWithoutInclude(w, ds, n - 1, file, visited);
      var f := FlatUpTo(w, ds, n - 1, file, 0, visited);
      assert f.done + (f.section + [ds[n - 1]]) == f.done + f.section + [ds[n - 1]];
      assert ds[..n] == ds[..n - 1] + [ds[n - 1]];
    }
  }

  /** A file without `Include` is its own flat file, behind the line that stands for its beginning. */
  lemma FlatOfOneFile(w: World, path: string, text: string)
    requires w.text(path) == Some(text) && NoInclude(Tokenize(text))
    ensures Flat(w, path) == [BOUNDARY] + Tokenize(text)
  {
    var ds := Tokenize(text);
    FlatWithoutInclude(w, ds, |ds|, path, {w.canonical(path)});
    assert {} + {w.canonical(path)} == {w.canonical(path)} && ds[..|ds|] == ds;
  }

  // ---------------------------------------------------------------- Include where it stands

  /** A file of one `Host` line. */
  predicate HoldsOneHost(w: World, path: string, name: string) {
    w.text(path).Some? && Tokenize(w.text(path).value) == [Directive(1, "host", [name])]
  }

  lemma OneHostRead(w: World, path: string, name: string, p: Progress)
    requires HoldsOneHost(w, path, name) && w.canonical(path) !in p.visited
    ensures ParseInto(w, path, 1, p).blocks == p.blocks + [Block([name], UNSET)]
    ensures ParseInto(w, path, 1, p).warnings == p.warnings
  {
    var ds := Tokenize(w.text(path).value);
    var start := Reading(Entered(w, path, 1, p), None, false);
    assert AbsorbUpTo(w, ds, 0, path, 1, start) == start;
    assert AbsorbUpTo(w, ds, 1, path, 1, start) == start.(current := Some(Block([name], UNSET)));
  }

  lemma OneTarget(w: World, file: string, base: string, arg: string, line: nat, target: string, p: Progress)
    requires w.parent(file) == Some(base) && w.targets(base, w.expandTilde(arg)) == [target]
    ensures Include(w, Directive(line, "include", [arg]), file, 0, p) == ParseInto(w, target, 1, p)
  {
    var d := Directive(line, "include", [arg]);
    assert IncludeUpTo(w, d, 0, base, file, 0, p) == p;
    assert FilesUpTo(w, [target], 0, 0, p) == p;
    assert FilesUpTo(w, [target], 1, 0, p) == ParseInto(w, target, 1, p);
  }

  /**
    An `Include` after a `Match` line is followed all the same, and one inside a stanza brings its stanzas in
    before the stanza it stands in.
   */
  lemma IncludeIsFollowedAnywhere(w: World, file: string, base: string, target: string, name: string, first: Directive)
    requires first == Directive(1, "match", ["all"]) || first == Directive(1, "host", ["a"])
    requires w.text(file).Some?
    requires Tokenize(w.text(file).value) == [first, Directive(2, "include", ["more"])]
    requires w.parent(file) == Some(base) && w.targets(base, w.expandTilde("more")) == [target]
    requires w.canonical(target) != w.canonical(file) && HoldsOneHost(w, target, name)
    ensures ParseInto(w, file, 0, NOTHING).blocks
         == [Block([name], UNSET)] + (if first.keyword == "host" then [Block(["a"], UNSET)] else [])
  {
    var ds := Tokenize(w.text(file).value);
    var start := Reading(Entered(w, file, 0, NOTHING), None, false);
    assert AbsorbUpTo(w, ds, 0, file, 0, start) == start;
    var begun := Read(w, file, start, first);
    assert AbsorbUpTo(w, ds, 1, file, 0, start) == begun;
    OneTarget(w, file, base, "more", 2, target, begun.p);
    OneHostRead(w, target, name, begun.p);
    var r := begun.(p := ParseInto(w, target, 1, begun.p));
    assert AbsorbUpTo(w, ds, 2, file, 0, start) == r;
    assert ParseInto(w, file, 0, NOTHING).blocks == Flush(r.p.blocks, r.current);
  }
}
