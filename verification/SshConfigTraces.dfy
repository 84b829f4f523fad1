/**
  Which lines of an ssh_config leave no trace in the parsed configuration: the stanzas with their settings and
  the warnings, were the file to end there, are what they were before the line. What a later line does may still
  depend on it: a bare `Host` ends the stanza above. The module comment promises that nothing is dropped in
  silence; here is exactly when something is. What of the configuration reaches the user is in ConfigScan.
 */
module SshConfigTraces {
  import opened Options
  import opened Text
  import opened Lexer
  import opened SshConfig
  import opened SshConfigLaws

  /** What the import would have gathered if the file ended here. */
  function Yield(r: Reading): Progress {
    r.p.(blocks := Flush(r.p.blocks, r.current))
  }

  /** The reading after a directive of any kind. */
  function Next(w: World, file: string, depth: nat, r: Reading, d: Directive): Reading
    requires depth <= MAX_INCLUDE_DEPTH
  {
    if d.keyword == "include" then r.(p := Include(w, d, file, depth, r.p)) else Read(w, file, r, d)
  }

  /** The same stanzas and the same warnings, which is all that leaves the parser. */
  predicate Same(p: Progress, q: Progress) {
    p.blocks == q.blocks && p.warnings == q.warnings
  }

  predicate LeavesNoTrace(w: World, file: string, depth: nat, r: Reading, d: Directive)
    requires depth <= MAX_INCLUDE_DEPTH
  {
    Same(Yield(r), Yield(Next(w, file, depth, r, d)))
  }

  /**
    A file that adds neither a stanza nor a warning: within the depth cap and not seen before, and either it
    cannot be read or each of its lines is mute where it stands.
   */
  predicate MuteFile(w: World, path: string, depth: nat, p: Progress)
    decreases Rank(depth), 4, 0
  {
    && depth <= MAX_INCLUDE_DEPTH && w.canonical(path) !in p.visited
    && match w.text(path)
       case None => true
       case Some(text) => MuteLines(w, Tokenize(text), |Tokenize(text)|, path, depth, Entered(w, path, depth, p))
  }

  predicate MuteLine(ds: seq<Directive>, n: nat)
    requires n < |ds|
  {
    if ds[n].keyword == "host" then ds[n].args == []
    else ds[n].keyword != "match" && (OpenAt(ds, n) ==> ds[n].keyword in UNDERSTOOD)
  }

  /** The first `n` lines hold no stanza with a name, no `Match`, nothing to report, and mute includes only. */
  predicate MuteLines(w: World, ds: seq<Directive>, n: nat, file: string, depth: nat, p: Progress)
    requires n <= |ds| && depth <= MAX_INCLUDE_DEPTH
    decreases Rank(depth), 3, n
  {
    n == 0
    || (&& MuteLines(w, ds, n - 1, file, depth, p)
        && if ds[n - 1].keyword != "include" then MuteLine(ds, n - 1)
           else MuteInclude(w, ds[n - 1], file, depth,
                            AbsorbUpTo(w, ds, n - 1, file, depth, Reading(p, None, false)).p))
  }

  /** An `Include` with a base directory, each of whose arguments names files, all of them mute in their turn. */
  predicate MuteInclude(w: World, d: Directive, file: string, depth: nat, p: Progress)
    requires depth <= MAX_INCLUDE_DEPTH
    decreases Rank(depth), 2, 0
  {
    w.parent(file).Some? && MuteArgs(w, d, |d.args|, w.parent(file).value, file, depth, p)
  }

  predicate MuteArgs(w: World, d: Directive, n: nat, base: string, file: string, depth: nat, p: Progress)
    requires n <= |d.args| && depth <= MAX_INCLUDE_DEPTH
    decreases Rank(depth), 1, n
  {
    n == 0
    || (&& MuteArgs(w, d, n - 1, base, file, depth, p)
        && var targets := w.targets(base, w.expandTilde(d.args[n - 1]));
           targets != [] && MuteFiles(w, targets, |targets|, depth, IncludeUpTo(w, d, n - 1, base, file, depth, p)))
  }

  predicate MuteFiles(w: World, targets: seq<string>, n: nat, depth: nat, p: Progress)
    requires n <= |targets| && depth <= MAX_INCLUDE_DEPTH
    decreases Rank(depth), 0, n
  {
    n == 0
    || (&& MuteFiles(w, targets, n - 1, depth, p)
        && MuteFile(w, targets[n - 1], depth + 1, FilesUpTo(w, targets, n - 1, depth, p)))
  }

  /**
    The condition. A `Host` without patterns; a mute `Include`; anything else outside a stanza that is not
    `Match`; and inside a stanza an understood keyword whose stanza has no patterns, whose value is missing or
    does not parse, or whose setting the stanza has already.
   */
  predicate Traceless(w: World, file: string, depth: nat, r: Reading, d: Directive)
    requires depth <= MAX_INCLUDE_DEPTH
  {
    match d.keyword
    case "host" => d.args == []
    case "match" => false
    case "include" => MuteInclude(w, d, file, depth, r.p)
    case _ =>
      || r.current.None?
      || (d.keyword in UNDERSTOOD
          && (|| r.current.value.patterns == []
              || Interpret(w, d.keyword, d.args).None?
              || Get(r.current.value.settings, d.keyword).Some?))
  }

  // ---------------------------------------------------------------- directives other than Include

  /** Applying a directive changes nothing exactly when the value is there already or none is given. */
  lemma AppliedSame(w: World, s: Settings, keyword: string, args: seq<string>)
    requires keyword in UNDERSTOOD
    ensures Applied(w, s, keyword, args) == s <==> Interpret(w, keyword, args).None? || Get(s, keyword).Some?
  {
    ApplyTakesFirst(w, s, keyword, args, keyword);
    if Interpret(w, keyword, args).None? || Get(s, keyword).Some? {
      forall k | k in UNDERSTOOD ensures Get(Applied(w, s, keyword, args), k) == Get(s, k) {
        ApplyTakesFirst(w, s, keyword, args, k);
      }
      SettingsByKeyword(Applied(w, s, keyword, args), s);
    }
  }

  lemma FlushSame(blocks: seq<Block>, b: Block, c: Block)
    requires b.patterns == c.patterns
    ensures Flush(blocks, Some(b)) == Flush(blocks, Some(c)) <==> b == c || b.patterns == []
  {
    if b.patterns != [] {
      assert Flush(blocks, Some(b))[|blocks|] == b && Flush(blocks, Some(c))[|blocks|] == c;
    }
  }

  lemma SettingTraceless(w: World, file: string, depth: nat, r: Reading, d: Directive)
    requires depth <= MAX_INCLUDE_DEPTH && d.keyword in UNDERSTOOD && r.current.Some? && !r.inMatch
    ensures Same(Yield(r), Yield(Read(w, file, r, d))) <==> Traceless(w, file, depth, r, d)
  {
    var b := r.current.value;
    AppliedSame(w, b.settings, d.keyword, d.args);
    FlushSame(r.p.blocks, b, b.(settings := Applied(w, b.settings, d.keyword, d.args)));
  }

  /** How many stanzas and warnings there are. */
  function Size(p: Progress): nat {
    |p.blocks| + |p.warnings|
  }

  /** What one directive adds to the number of stanzas and warnings: one, or none if it is mute. */
  lemma ReadSize(w: World, file: string, r: Reading, d: Directive)
    requires d.keyword != "include" && (r.inMatch ==> r.current.None?)
    ensures
      var mute := if d.keyword == "host" then d.args == []
                  else d.keyword != "match" && (r.current.Some? ==> d.keyword in UNDERSTOOD);
      Size(Yield(Read(w, file, r, d))) == Size(Yield(r)) + (if mute then 0 else 1)
  {
  }

  lemma ReadTraceless(w: World, file: string, depth: nat, r: Reading, d: Directive)
    requires depth <= MAX_INCLUDE_DEPTH && d.keyword != "include" && (r.inMatch ==> r.current.None?)
    ensures Same(Yield(r), Yield(Read(w, file, r, d))) <==> Traceless(w, file, depth, r, d)
  {
    ReadSize(w, file, r, d);
    if r.current.Some? && d.keyword in UNDERSTOOD {
      SettingTraceless(w, file, depth, r, d);
    }
  }

  // ---------------------------------------------------------------- Include

  /** What is gathered step by step stays the same exactly when each step adds nothing. */
  lemma SameThrough(p: Progress, q: Progress, r: Progress)
    requires Extends(p, q) && Extends(q, r)
    ensures Extends(p, r)
    ensures Same(p, r) <==> Same(p, q) && Same(q, r)
  {
    assert |p.blocks| <= |q.blocks| <= |r.blocks| && |p.warnings| <= |q.warnings| <= |r.warnings|;
  }

  lemma SameBySize(p: Progress, q: Progress)
    requires Extends(p, q)
    ensures Same(p, q) <==> Size(q) == Size(p)
    ensures Size(p) <= Size(q)
  {
  }

  lemma {:induction false} FileMute(w: World, path: string, depth: nat, p: Progress, after: Progress)
    requires after == ParseInto(w, path, depth, p)
    ensures Extends(p, after)
    ensures Same(p, after) <==> MuteFile(w, path, depth, p)
    decreases Rank(depth), 4, 0
  {
    if depth <= MAX_INCLUDE_DEPTH && w.canonical(path) !in p.visited && w.text(path).Some? {
      var ds := Tokenize(w.text(path).value);
      var q := Entered(w, path, depth, p);
      var r := AbsorbUpTo(w, ds, |ds|, path, depth, Reading(q, None, false));
      LinesMute(w, ds, |ds|, path, depth, q, r);
      assert after == Yield(r);
      SameBySize(p, after);
    }
  }

  /** The first `n` lines of a file add as many stanzas and warnings as not to be mute, and none if all are. */
  lemma {:induction false} LinesMute(
      w: World, ds: seq<Directive>, n: nat, file: string, depth: nat, p: Progress, r: Reading)
    requires n <= |ds| && depth <= MAX_INCLUDE_DEPTH
    requires r == AbsorbUpTo(w, ds, n, file, depth, Reading(p, None, false))
    ensures Extends(p, r.p) && Size(p) <= Size(Yield(r))
    ensures Size(Yield(r)) == Size(p) <==> MuteLines(w, ds, n, file, depth, p)
    decreases Rank(depth), 3, n
  {
    if n > 0 {
      var before := AbsorbUpTo(w, ds, n - 1, file, depth, Reading(p, None, false));
      LinesMute(w, ds, n - 1, file, depth, p, before);
      CurrentIsOpen(w, ds, n - 1, file, depth, p);
      if ds[n - 1].keyword == "include" {
        IncludeMute(w, ds[n - 1], file, depth, before.p, r.p);
        SameBySize(before.p, r.p);
        ExtendsTransitive(p, before.p, r.p);
      } else {
        ReadSize(w, file, before, ds[n - 1]);
        ReadShape(w, file, before, before, ds[n - 1]);
      }
    }
  }

  lemma {:induction false} IncludeMute(
      w: World, d: Directive, file: string, depth: nat, p: Progress, after: Progress)
    requires depth <= MAX_INCLUDE_DEPTH && after == Include(w, d, file, depth, p)
    ensures Extends(p, after)
    ensures Same(p, after) <==> MuteInclude(w, d, file, depth, p)
    decreases Rank(depth), 2, 0
  {
    match w.parent(file)
    case None =>
      assert |after.warnings| == |p.warnings| + 1;
    case Some(base) =>
      ArgsMute(w, d, |d.args|, base, file, depth, p, after);
  }

  lemma {:induction false} ArgsMute(
      w: World, d: Directive, n: nat, base: string, file: string, depth: nat, p: Progress, after: Progress)
    requires n <= |d.args| && depth <= MAX_INCLUDE_DEPTH && after == IncludeUpTo(w, d, n, base, file, depth, p)
    ensures Extends(p, after)
    ensures Same(p, after) <==> MuteArgs(w, d, n, base, file, depth, p)
    decreases Rank(depth), 1, n
  {
    if n > 0 {
      var before := IncludeUpTo(w, d, n - 1, base, file, depth, p);
      ArgsMute(w, d, n - 1, base, file, depth, p, before);
      var targets := w.targets(base, w.expandTilde(d.args[n - 1]));
      if targets == [] {
        assert |after.warnings| == |before.warnings| + 1;
      } else {
        FilesMute(w, targets, |targets|, depth, before, after);
      }
      SameThrough(p, before, after);
    }
  }

  lemma {:induction false} FilesMute(
      w: World, targets: seq<string>, n: nat, depth: nat, p: Progress, after: Progress)
    requires n <= |targets| && depth <= MAX_INCLUDE_DEPTH && after == FilesUpTo(w, targets, n, depth, p)
    ensures Extends(p, after)
    ensures Same(p, after) <==> MuteFiles(w, targets, n, depth, p)
    decreases Rank(depth), 0, n
  {
    if n > 0 {
      var before := FilesUpTo(w, targets, n - 1, depth, p);
      FilesMute(w, targets, n - 1, depth, p, before);
      FileMute(w, targets[n - 1], depth + 1, before, after);
      SameThrough(p, before, after);
    }
  }

  // ---------------------------------------------------------------- the exact condition

  lemma IncludeTraceless(w: World, file: string, depth: nat, r: Reading, d: Directive)
    requires d.keyword == "include" && depth <= MAX_INCLUDE_DEPTH
    ensures LeavesNoTrace(w, file, depth, r, d) <==> Traceless(w, file, depth, r, d)
  {
    var q := Include(w, d, file, depth, r.p);
    IncludeMute(w, d, file, depth, r.p, q);
    if Flush(r.p.blocks, r.current) == Flush(q.blocks, r.current) {
      assert |r.p.blocks| == |q.blocks|;
    }
  }

  /** For every directive of every file: it leaves no trace exactly when the condition holds where it stands. */
  lemma NoTraceExactly(w: World, ds: seq<Directive>, n: nat, file: string, depth: nat, p: Progress, before: Reading)
    requires n < |ds| && depth <= MAX_INCLUDE_DEPTH
    requires before == AbsorbUpTo(w, ds, n, file, depth, Reading(p, None, false))
    ensures AbsorbUpTo(w, ds, n + 1, file, depth, Reading(p, None, false)) == Next(w, file, depth, before, ds[n])
    ensures before.current.Some? <==> OpenAt(ds, n)
    ensures LeavesNoTrace(w, file, depth, before, ds[n]) <==> Traceless(w, file, depth, before, ds[n])
  {
    CurrentIsOpen(w, ds, n, file, depth, p);
    if ds[n].keyword == "include" {
      IncludeTraceless(w, file, depth, before, ds[n]);
    } else {
      ReadTraceless(w, file, depth, before, ds[n]);
    }
  }

  /** And a file leaves no trace exactly when it is mute: refused files warn, others are as their lines are. */
  lemma FileLeavesNoTrace(w: World, path: string, depth: nat, p: Progress)
    ensures Same(p, ParseInto(w, path, depth, p)) <==> MuteFile(w, path, depth, p)
  {
    FileMute(w, path, depth, p, ParseInto(w, path, depth, p));
  }

  // ---------------------------------------------------------------- lines that vanish

  /** An `Include` of one file that cannot be read, or holds no directive, vanishes without a word. */
  lemma BarrenIncludeVanishes(
      w: World, file: string, depth: nat, r: Reading, line: nat, arg: string, base: string, target: string)
    requires depth < MAX_INCLUDE_DEPTH && w.parent(file) == Some(base)
    requires w.targets(base, w.expandTilde(arg)) == [target] && w.canonical(target) !in r.p.visited
    requires w.text(target).Some? ==> Tokenize(w.text(target).value) == []
    ensures LeavesNoTrace(w, file, depth, r, Directive(line, "include", [arg]))
  {
    var d := Directive(line, "include", [arg]);
    assert IncludeUpTo(w, d, 0, base, file, depth, r.p) == r.p;
    assert FilesUpTo(w, [target], 0, depth, r.p) == r.p;
    assert MuteFile(w, target, depth + 1, r.p);
    assert MuteFiles(w, [target], 0, depth, r.p) && MuteFiles(w, [target], 1, depth, r.p);
    assert MuteArgs(w, d, 0, base, file, depth, r.p) && MuteArgs(w, d, 1, base, file, depth, r.p);
    IncludeTraceless(w, file, depth, r, d);
  }

  lemma OutOfRange()
    ensures ParseUnsigned("70000", U16_MAX) == None
  {
    var s := "70000";
    assert s[..4] == "7000" && "7000"[..3] == "700" && "700"[..2] == "70" && "70"[..1] == "7" && "7"[..0] == "";
    assert DecimalValue("7") == 7 && DecimalValue("70") == 70 && DecimalValue("700") == 700;
    assert DecimalValue("7000") == 7000 && DecimalValue(s) == 70000;
  }

  /** `Host a`, then `Port 70000`: the stanza is open, and nothing is imported and nothing is said. */
  lemma PortOutOfRangeVanishes(w: World, file: string, depth: nat, p: Progress)
    requires depth <= MAX_INCLUDE_DEPTH
    ensures
      var ds := [Directive(1, "host", ["a"]), Directive(2, "port", ["70000"])];
      var start := Reading(p, None, false);
      OpenAt(ds, 1) && AbsorbUpTo(w, ds, 2, file, depth, start) == AbsorbUpTo(w, ds, 1, file, depth, start)
  {
    var ds := [Directive(1, "host", ["a"]), Directive(2, "port", ["70000"])];
    var start := Reading(p, None, false);
    OutOfRange();
    assert AbsorbUpTo(w, ds, 0, file, depth, start) == start;
    assert AbsorbUpTo(w, ds, 1, file, depth, start) == Reading(p, Some(Block(["a"], UNSET)), false);
  }

  /** `Host` alone, then `HostName x`: the stanza is open, and at the end of the file it is gone. */
  lemma NamelessStanzaVanishes(w: World, file: string, depth: nat, p: Progress)
    requires depth <= MAX_INCLUDE_DEPTH
    ensures
      var ds := [Directive(1, "host", []), Directive(2, "hostname", ["x"])];
      OpenAt(ds, 1) && Yield(AbsorbUpTo(w, ds, 2, file, depth, Reading(p, None, false))) == p
  {
    var ds := [Directive(1, "host", []), Directive(2, "hostname", ["x"])];
    var start := Reading(p, None, false);
    assert AbsorbUpTo(w, ds, 0, file, depth, start) == start;
    assert AbsorbUpTo(w, ds, 1, file, depth, start) == Reading(p, Some(Block([], UNSET)), false);
    assert AbsorbUpTo(w, ds, 2, file, depth, start).p == p;
  }
}
