/**
  What an ssh_config import means: the two-phase reading of one file equals a one-pass reading, and over
  any include graph each file is read at most once and contributes exactly its own stanzas.
 */
module SshConfigLaws {
  import opened Options
  import opened Text
  import opened Lexer
  import opened SshConfig

  // ---------------------------------------------------------------- values by keyword

  datatype Value = TextValue(text: string) | NumberValue(n: nat) | FlagValue(on: bool)

  function OfText(o: Option<string>): Option<Value> {
    match o case None => None case Some(t) => Some(TextValue(t))
  }

  function OfNumber(o: Option<nat>): Option<Value> {
    match o case None => None case Some(n) => Some(NumberValue(n))
  }

  function OfFlag(o: Option<bool>): Option<Value> {
    match o case None => None case Some(b) => Some(FlagValue(b))
  }

  /** The setting a keyword names. */
  function Get(s: Settings, keyword: string): Option<Value> {
    match keyword
    case "hostname" => OfText(s.hostname)
    case "port" => OfNumber(s.port)
    case "user" => OfText(s.user)
    case "identityfile" => OfText(s.identityFile)
    case "proxyjump" => OfText(s.proxyJump)
    case "serveraliveinterval" => OfNumber(s.serverAliveInterval)
    case "connecttimeout" => OfNumber(s.connectTimeout)
    case "forwardagent" => OfFlag(s.forwardAgent)
    case _ => None
  }

  /** What a directive says on its own: nothing when it has no argument or does not parse. */
  function Interpret(w: World, keyword: string, args: seq<string>): Option<Value> {
    if args == [] then None
    else
      match keyword
      case "hostname" => Some(TextValue(args[0]))
      case "port" => OfNumber(ParseUnsigned(args[0], U16_MAX))
      case "user" => Some(TextValue(args[0]))
      case "identityfile" => Some(TextValue(w.expandTilde(args[0])))
      case "proxyjump" => Some(TextValue(Join(args, ",")))
      case "serveraliveinterval" => OfNumber(ParseUnsigned(args[0], U32_MAX))
      case "connecttimeout" => OfNumber(ParseUnsigned(args[0], U32_MAX))
      case "forwardagent" => Some(FlagValue(ParseFlag(args[0])))
      case _ => None
  }

  lemma SettingsByFields(a: Settings, b: Settings)
    requires Get(a, "hostname") == Get(b, "hostname") && Get(a, "port") == Get(b, "port")
    requires Get(a, "user") == Get(b, "user") && Get(a, "identityfile") == Get(b, "identityfile")
    requires Get(a, "proxyjump") == Get(b, "proxyjump")
    requires Get(a, "serveraliveinterval") == Get(b, "serveraliveinterval")
    requires Get(a, "connecttimeout") == Get(b, "connecttimeout")
    requires Get(a, "forwardagent") == Get(b, "forwardagent")
    ensures a == b
  {
  }

  /** Two records that answer every keyword alike are the same record. */
  lemma SettingsByKeyword(a: Settings, b: Settings)
    requires forall k | k in UNDERSTOOD :: Get(a, k) == Get(b, k)
    ensures a == b
  {
    forall i | 0 <= i < 8 ensures Get(a, UNDERSTOOD[i]) == Get(b, UNDERSTOOD[i]) {
      assert UNDERSTOOD[i] in UNDERSTOOD;
    }
    SettingsByFields(a, b);
  }

  lemma ApplyLeavesOthers(w: World, s: Settings, keyword: string, args: seq<string>, asked: string)
    requires asked != keyword
    ensures Get(Applied(w, s, keyword, args), asked) == Get(s, asked)
  {
    match asked
    case "hostname" =>
    case "port" =>
    case "user" =>
    case "identityfile" =>
    case _ =>
  }

  lemma ApplyTakesOwn(w: World, s: Settings, keyword: string, args: seq<string>)
    ensures Get(Applied(w, s, keyword, args), keyword) == Get(s, keyword).OrElse(Interpret(w, keyword, args))
  {
  }

  /** Applying a directive sets the value of its own keyword if it had none, and no other value. */
  lemma ApplyTakesFirst(w: World, s: Settings, keyword: string, args: seq<string>, asked: string)
    ensures Get(Applied(w, s, keyword, args), asked)
         == if asked == keyword then Get(s, asked).OrElse(Interpret(w, keyword, args)) else Get(s, asked)
  {
    if asked == keyword {
      ApplyTakesOwn(w, s, keyword, args);
    } else {
      ApplyLeavesOthers(w, s, keyword, args, asked);
    }
  }

  lemma InheritTakesFirst(s: Settings, other: Settings, asked: string)
    ensures Get(Inherited(s, other), asked) == Get(s, asked).OrElse(Get(other, asked))
  {
  }

  // ---------------------------------------------------------------- one pass over one file

  /** A one-pass reader looking for one value: whether it listens now, and what it has heard. */
  datatype Listener = Listener(on: bool, heard: Option<Value>)

  /**
    Reading in order: on after a matching `Host`, off after any other `Host` and after any `Match`,
    keeping the first value that parses.
   */
  function OnePass(w: World, ds: seq<Directive>, n: nat, alias: string, asked: string): Listener
    requires n <= |ds|
  {
    if n == 0 then Listener(false, None)
    else
      var l := OnePass(w, ds, n - 1, alias, asked);
      var d := ds[n - 1];
      if d.keyword == "host" then l.(on := Matches(d.args, alias))
      else if d.keyword == "match" then l.(on := false)
      else if l.on && d.keyword == asked then l.(heard := l.heard.OrElse(Interpret(w, asked, d.args)))
      else l
  }

  predicate NoInclude(ds: seq<Directive>) {
    forall i | 0 <= i < |ds| :: ds[i].keyword != "include"
  }

  lemma {:induction false} ResolvePrefix(a: seq<Block>, b: seq<Block>, n: nat, alias: string)
    requires n <= |a|
    ensures ResolveUpTo(a + b, n, alias) == ResolveUpTo(a, n, alias)
  {
    if n > 0 {
      ResolvePrefix(a, b, n - 1, alias);
    }
  }

  lemma ResolveFlush(blocks: seq<Block>, current: Option<Block>, alias: string, asked: string)
    ensures Get(Resolve(Flush(blocks, current), alias), asked)
         == if current.Some? && Matches(current.value.patterns, alias)
            then Get(Resolve(blocks, alias), asked).OrElse(Get(current.value.settings, asked))
            else Get(Resolve(blocks, alias), asked)
  {
    if current.Some? && current.value.patterns != [] {
      var more := blocks + [current.value];
      ResolvePrefix(blocks, [current.value], |blocks|, alias);
      assert more[|more| - 1] == current.value;
      InheritTakesFirst(Resolve(blocks, alias), current.value.settings, asked);
    }
  }

  /** What the stanzas and the open stanza hold together is what a one-pass reader has heard. */
  ghost predicate InStep(r: Reading, l: Listener, alias: string, asked: string) {
    && l.on == (r.current.Some? && Matches(r.current.value.patterns, alias))
    && l.heard == Get(Resolve(r.p.blocks, alias), asked)
                    .OrElse(if l.on then Get(r.current.value.settings, asked) else None)
    && (r.inMatch ==> r.current.None?)
  }

  lemma StepTogether(
      w: World, file: string, r: Reading, l: Listener, d: Directive, alias: string, asked: string, l': Listener)
    requires InStep(r, l, alias, asked) && asked in UNDERSTOOD && d.keyword != "include"
    requires l' == if d.keyword == "host" then l.(on := Matches(d.args, alias))
                   else if d.keyword == "match" then l.(on := false)
                   else if l.on && d.keyword == asked then l.(heard := l.heard.OrElse(Interpret(w, asked, d.args)))
                   else l
    ensures InStep(Read(w, file, r, d), l', alias, asked)
  {
    ResolveFlush(r.p.blocks, r.current, alias, asked);
    if r.current.Some? {
      ApplyTakesFirst(w, r.current.value.settings, d.keyword, d.args, asked);
    }
  }

  lemma {:induction false} TwoPhasesInStep(
      w: World, ds: seq<Directive>, n: nat, file: string, depth: nat, alias: string, asked: string, p: Progress)
    requires n <= |ds| && NoInclude(ds) && asked in UNDERSTOOD && depth <= MAX_INCLUDE_DEPTH && p.blocks == []
    ensures
      var r := AbsorbUpTo(w, ds, n, file, depth, Reading(p, None, false));
      InStep(r, OnePass(w, ds, n, alias, asked), alias, asked)
  {
    if n > 0 {
      TwoPhasesInStep(w, ds, n - 1, file, depth, alias, asked, p);
      StepTogether(w, file, AbsorbUpTo(w, ds, n - 1, file, depth, Reading(p, None, false)),
                   OnePass(w, ds, n - 1, alias, asked), ds[n - 1], alias, asked, OnePass(w, ds, n, alias, asked));
    }
  }

  /**
    Importing one file and resolving an alias gives, for each of the eight settings, exactly what one
    pass over its directives would: stanzas first and resolution second lose and invent nothing.
   */
  lemma TwoPhasesAreOnePass(w: World, path: string, text: string, alias: string, asked: string)
    requires w.text(path) == Some(text) && NoInclude(Tokenize(text)) && asked in UNDERSTOOD
    ensures Get(Resolve(ParseInto(w, path, 0, NOTHING).blocks, alias), asked)
         == OnePass(w, Tokenize(text), |Tokenize(text)|, alias, asked).heard
  {
    var ds := Tokenize(text);
    var p := Entered(w, path, 0, NOTHING);
    TwoPhasesInStep(w, ds, |ds|, path, 0, alias, asked, p);
    var r := AbsorbUpTo(w, ds, |ds|, path, 0, Reading(p, None, false));
    ResolveFlush(r.p.blocks, r.current, alias, asked);
  }

  // ---------------------------------------------------------------- what is reported

  /** A `Host` stanza is open before directive `n`. */
  predicate OpenAt(ds: seq<Directive>, n: nat)
    requires n <= |ds|
  {
    n > 0 && (ds[n - 1].keyword == "host" || (ds[n - 1].keyword != "match" && OpenAt(ds, n - 1)))
  }

  lemma {:induction false} CurrentIsOpen(w: World, ds: seq<Directive>, n: nat, file: string, depth: nat, p: Progress)
    requires n <= |ds| && depth <= MAX_INCLUDE_DEPTH
    ensures
      var r := AbsorbUpTo(w, ds, n, file, depth, Reading(p, None, false));
      r.current.Some? == OpenAt(ds, n) && (r.inMatch ==> r.current.None?)
  {
    if n > 0 {
      CurrentIsOpen(w, ds, n - 1, file, depth, p);
    }
  }

  /**
    A keyword outside the understood ones is reported exactly when a `Host` stanza is open; before the
    first `Host` and inside a `Match` block it leaves no trace.
   */
  lemma ReportedExactlyInStanzas(w: World, ds: seq<Directive>, n: nat, file: string, depth: nat, p: Progress)
    requires n < |ds| && depth <= MAX_INCLUDE_DEPTH
    requires ds[n].keyword !in UNDERSTOOD && ds[n].keyword !in ["host", "match", "include"]
    ensures
      var start := Reading(p, None, false);
      var before := AbsorbUpTo(w, ds, n, file, depth, start);
      var after := AbsorbUpTo(w, ds, n + 1, file, depth, start);
      && (OpenAt(ds, n) ==>
            after == before.(p := Warned(before.p, UnsupportedKeyword(file, ds[n].line, ds[n].keyword))))
      && (!OpenAt(ds, n) ==> after == before)
  {
    CurrentIsOpen(w, ds, n, file, depth, p);
  }

  // ---------------------------------------------------------------- include graphs

  /** The reading of a file with its `Include` lines struck out. */
  function OwnUpTo(w: World, ds: seq<Directive>, n: nat, file: string): Reading
    requires n <= |ds|
  {
    if n == 0 then Reading(NOTHING, None, false)
    else
      var before := OwnUpTo(w, ds, n - 1, file);
      if ds[n - 1].keyword == "include" then before else Read(w, file, before, ds[n - 1])
  }

  /** The stanzas that stand in the file itself. */
  function OwnBlocks(w: World, path: string): seq<Block> {
    match w.text(path)
    case None => []
    case Some(text) =>
      var r := OwnUpTo(w, Tokenize(text), |Tokenize(text)|, path);
      Flush(r.p.blocks, r.current)
  }

  /** Each file's own stanzas, counted with multiplicity. */
  function OwnBags(w: World, files: seq<(string, nat)>): (bags: seq<multiset<Block>>)
    ensures |bags| == |files|
    ensures forall i | 0 <= i < |bags| :: bags[i] == multiset(OwnBlocks(w, files[i].0))
  {
    seq(|files|, i requires 0 <= i < |files| => multiset(OwnBlocks(w, files[i].0)))
  }

  function Total<T>(bags: seq<multiset<T>>, n: nat): multiset<T>
    requires n <= |bags|
    decreases |bags| - n
  {
    if n == |bags| then multiset{} else bags[n] + Total(bags, n + 1)
  }

  /** The stanzas of the files from index `n` of a list, each file's own. */
  function OwnOf(w: World, files: seq<(string, nat)>, n: nat): multiset<Block>
    requires n <= |files|
  {
    Total(OwnBags(w, files), n)
  }

  lemma {:induction false} TotalSplit<T>(bags: seq<multiset<T>>, a: seq<multiset<T>>, n: nat)
    requires n <= |a| && a <= bags
    ensures Total(bags, n) == Total(a, n) + Total(bags, |a|)
    decreases |a| - n
  {
    if n < |a| {
      TotalSplit(bags, a, n + 1);
    }
  }

  /** No canonical path is read twice, none is read below the depth cap, and all are on the visit list. */
  predicate Disciplined(w: World, p: Progress) {
    && (forall i | 0 <= i < |p.filesRead| ::
          && p.filesRead[i].1 <= MAX_INCLUDE_DEPTH
          && w.text(p.filesRead[i].0).Some?
          && w.canonical(p.filesRead[i].0) in p.visited)
    && (forall i, j | 0 <= i < j < |p.filesRead| :: w.canonical(p.filesRead[i].0) != w.canonical(p.filesRead[j].0))
  }

  /** `a` is `b` with some elements left out, the order kept. */
  predicate Subsequence<T(==)>(a: seq<T>, b: seq<T>)
    decreases |b|
  {
    || a == []
    || (b != [] && a[|a| - 1] == b[|b| - 1] && Subsequence(a[..|a| - 1], b[..|b| - 1]))
    || (b != [] && Subsequence(a, b[..|b| - 1]))
  }

  lemma {:induction false} SubsequenceExtends<T>(a: seq<T>, b: seq<T>, c: seq<T>)
    requires Subsequence(a, b) && b <= c
    ensures Subsequence(a, c)
    decreases |c|
  {
    if |b| < |c| {
      SubsequenceExtends(a, b, c[..|c| - 1]);
    } else {
      assert b == c;
    }
  }

  lemma SubsequenceSnoc<T>(a: seq<T>, b: seq<T>, x: T)
    requires Subsequence(a, b)
    ensures Subsequence(a + [x], b + [x])
  {
    assert (a + [x])[..|a|] == a && (b + [x])[..|b|] == b;
  }

  /** The files read from index `n` on have all their stanzas among the blocks, each file's in its own order. */
  ghost predicate Ordered(w: World, p: Progress, n: nat) {
    forall i | n <= i < |p.filesRead| :: Subsequence(OwnBlocks(w, p.filesRead[i].0), p.blocks)
  }

  /** Nothing gathered is ever taken back. */
  ghost predicate Extends(p: Progress, q: Progress) {
    p.blocks <= q.blocks && p.warnings <= q.warnings && p.visited <= q.visited && p.filesRead <= q.filesRead
  }

  /** Stanzas added later disturb no order, and files added in order are in order. */
  lemma OrderedJoins(w: World, p: Progress, q: Progress, n: nat)
    requires Extends(p, q) && Ordered(w, p, n) && Ordered(w, q, |p.filesRead|)
    ensures Ordered(w, q, n)
  {
    forall i | n <= i < |q.filesRead|
      ensures Subsequence(OwnBlocks(w, q.filesRead[i].0), q.blocks)
    {
      if i < |p.filesRead| {
        SubsequenceExtends(OwnBlocks(w, p.filesRead[i].0), p.blocks, q.blocks);
      }
    }
  }

  /** From `p` to `q` more files were read, each adding its own stanzas to those already there. */
  ghost predicate Grows(w: World, p: Progress, q: Progress) {
    && Extends(p, q)
    && multiset(q.blocks) == multiset(p.blocks) + OwnOf(w, q.filesRead, |p.filesRead|)
    && (Disciplined(w, p) ==> Disciplined(w, q))
    && Ordered(w, q, |p.filesRead|)
  }

  lemma ExtendsTransitive(p: Progress, q: Progress, r: Progress)
    requires Extends(p, q) && Extends(q, r)
    ensures Extends(p, r)
  {
  }

  /** Files read in two stretches count as the files of both. */
  lemma OwnOfStretch(w: World, a: seq<(string, nat)>, b: seq<(string, nat)>, n: nat)
    requires n <= |a| && a <= b
    ensures OwnOf(w, b, n) == OwnOf(w, a, n) + OwnOf(w, b, |a|)
  {
    TotalSplit(OwnBags(w, b), OwnBags(w, a), n);
  }

  lemma GrowsTransitive(w: World, p: Progress, q: Progress, r: Progress)
    requires Grows(w, p, q) && Grows(w, q, r)
    ensures Grows(w, p, r)
  {
    ExtendsTransitive(p, q, r);
    OwnOfStretch(w, q.filesRead, r.filesRead, |p.filesRead|);
    OrderedJoins(w, q, r, |p.filesRead|);
  }

  lemma GrowsWarned(w: World, p: Progress, q: Progress, warning: Warning)
    requires Grows(w, p, q)
    ensures Grows(w, p, Warned(q, warning))
  {
    ExtendsTransitive(p, q, Warned(q, warning));
    OrderedJoins(w, q, Warned(q, warning), |p.filesRead|);
    assert Disciplined(w, q) ==> Disciplined(w, Warned(q, warning));
  }

  lemma NoGrowth(w: World, p: Progress)
    ensures Grows(w, p, p)
  {
  }

  /** Midway through a file: its own stanzas so far are there besides those of the files it pulled in. */
  ghost predicate Midfile(w: World, p: Progress, r: Reading, own: Reading) {
    && r.current == own.current && r.inMatch == own.inMatch
    && Extends(p, r.p)
    && multiset(r.p.blocks) == multiset(p.blocks) + multiset(own.p.blocks) + OwnOf(w, r.p.filesRead, |p.filesRead|)
    && (Disciplined(w, p) ==> Disciplined(w, r.p))
    && Ordered(w, r.p, |p.filesRead|)
    && Subsequence(own.p.blocks, r.p.blocks)
  }

  /** What a directive does to the stanzas depends on the open stanza alone, and it reads no file. */
  lemma ReadShape(w: World, file: string, r: Reading, own: Reading, d: Directive)
    requires r.current == own.current && r.inMatch == own.inMatch
    ensures
      var r', own' := Read(w, file, r, d), Read(w, file, own, d);
      var flushes := d.keyword == "host" || d.keyword == "match";
      && r'.current == own'.current && r'.inMatch == own'.inMatch
      && r'.p.filesRead == r.p.filesRead && r'.p.visited == r.p.visited && r.p.warnings <= r'.p.warnings
      && r'.p.blocks == (if flushes then Flush(r.p.blocks, r.current) else r.p.blocks)
      && own'.p.blocks == (if flushes then Flush(own.p.blocks, own.current) else own.p.blocks)
  {
  }

  lemma FlushKeepsOrder(own: seq<Block>, blocks: seq<Block>, current: Option<Block>)
    requires Subsequence(own, blocks)
    ensures Subsequence(Flush(own, current), Flush(blocks, current))
  {
    if current.Some? {
      SubsequenceSnoc(own, blocks, current.value);
    }
  }

  lemma FlushCounts(blocks: seq<Block>, current: Option<Block>)
    ensures blocks <= Flush(blocks, current)
    ensures multiset(Flush(blocks, current)) == multiset(blocks) + multiset(Flush([], current))
  {
  }

  lemma MidfileRead(w: World, file: string, p: Progress, r: Reading, own: Reading, d: Directive)
    requires Midfile(w, p, r, own)
    ensures Midfile(w, p, Read(w, file, r, d), Read(w, file, own, d))
  {
    ReadShape(w, file, r, own, d);
    FlushCounts(r.p.blocks, r.current);
    FlushCounts(own.p.blocks, own.current);
    var q := Read(w, file, r, d).p;
    ExtendsTransitive(p, r.p, q);
    OrderedJoins(w, r.p, q, |p.filesRead|);
    FlushKeepsOrder(own.p.blocks, r.p.blocks, r.current);
    assert Disciplined(w, r.p) ==> Disciplined(w, q);
  }

  lemma MidfileInclude(w: World, p: Progress, r: Reading, own: Reading, q: Progress)
    requires Midfile(w, p, r, own) && Grows(w, r.p, q)
    ensures Midfile(w, p, r.(p := q), own)
  {
    ExtendsTransitive(p, r.p, q);
    OwnOfStretch(w, r.p.filesRead, q.filesRead, |p.filesRead|);
    OrderedJoins(w, r.p, q, |p.filesRead|);
    SubsequenceExtends(own.p.blocks, r.p.blocks, q.blocks);
  }

  lemma EnterCounts(w: World, files: seq<(string, nat)>, n: nat)
    requires n < |files|
    ensures OwnOf(w, files, n) == multiset(OwnBlocks(w, files[n].0)) + OwnOf(w, files, n + 1)
  {
  }

  lemma EnterKeepsDiscipline(w: World, path: string, depth: nat, p: Progress, q: Progress)
    requires q == Entered(w, path, depth, p)
    requires depth <= MAX_INCLUDE_DEPTH && w.text(path).Some? && w.canonical(path) !in p.visited
    requires Disciplined(w, p)
    ensures Disciplined(w, q)
  {
  }

  lemma EnterKeepsOrder(w: World, p: Progress, n: nat)
    requires n < |p.filesRead| && Ordered(w, p, n + 1) && Subsequence(OwnBlocks(w, p.filesRead[n].0), p.blocks)
    ensures Ordered(w, p, n)
  {
  }

  /** The end of a file: from a file just entered to its last stanza flushed. */
  lemma MidfileEnds(w: World, path: string, depth: nat, p: Progress, q: Progress, r: Reading, own: Reading)
    requires q == Entered(w, path, depth, p)
    requires Midfile(w, q, r, own) && OwnBlocks(w, path) == Flush(own.p.blocks, own.current)
    requires depth <= MAX_INCLUDE_DEPTH && w.text(path).Some? && w.canonical(path) !in p.visited
    ensures Grows(w, p, r.p.(blocks := Flush(r.p.blocks, r.current)))
  {
    var final := r.p.(blocks := Flush(r.p.blocks, r.current));
    var n := |p.filesRead|;
    assert q.filesRead[n] == (path, depth) && r.p.filesRead[n] == q.filesRead[n];
    if Disciplined(w, p) {
      EnterKeepsDiscipline(w, path, depth, p, q);
      assert Disciplined(w, final);
    }
    FlushCounts(r.p.blocks, r.current);
    FlushCounts(own.p.blocks, own.current);
    EnterCounts(w, final.filesRead, n);
    ExtendsTransitive(p, q, r.p);
    ExtendsTransitive(p, r.p, final);
    OrderedJoins(w, r.p, final, n + 1);
    FlushKeepsOrder(own.p.blocks, r.p.blocks, r.current);
    EnterKeepsOrder(w, final, n);
  }

  lemma GrowsSeen(w: World, p: Progress, canonical: string)
    ensures Grows(w, p, p.(visited := p.visited + {canonical}))
  {
  }

  lemma {:induction false} ParseGrows(w: World, path: string, depth: nat, p: Progress, after: Progress)
    requires after == ParseInto(w, path, depth, p)
    ensures Grows(w, p, after)
    decreases Rank(depth), 4, 0
  {
    NoGrowth(w, p);
    if depth > MAX_INCLUDE_DEPTH || w.canonical(path) in p.visited {
      GrowsWarned(w, p, p, IncludeCycle(path, 0));
    } else if w.text(path).Some? {
      var ds := Tokenize(w.text(path).value);
      var q := Entered(w, path, depth, p);
      var r, own := AbsorbUpTo(w, ds, |ds|, path, depth, Reading(q, None, false)), OwnUpTo(w, ds, |ds|, path);
      AbsorbGrows(w, ds, |ds|, path, depth, q, r, own);
      MidfileEnds(w, path, depth, p, q, r, own);
    } else {
      GrowsSeen(w, p, w.canonical(path));
    }
  }

  lemma MidfileStarts(w: World, p: Progress)
    ensures Midfile(w, p, Reading(p, None, false), Reading(NOTHING, None, false))
  {
  }

  lemma {:induction false} AbsorbGrows(
      w: World, ds: seq<Directive>, n: nat, file: string, depth: nat, p: Progress, r: Reading, own: Reading)
    requires n <= |ds| && depth <= MAX_INCLUDE_DEPTH
    requires r == AbsorbUpTo(w, ds, n, file, depth, Reading(p, None, false)) && own == OwnUpTo(w, ds, n, file)
    ensures Midfile(w, p, r, own)
    decreases Rank(depth), 3, n
  {
    if n == 0 {
      MidfileStarts(w, p);
    } else {
      var before := AbsorbUpTo(w, ds, n - 1, file, depth, Reading(p, None, false));
      var ownBefore := OwnUpTo(w, ds, n - 1, file);
      AbsorbGrows(w, ds, n - 1, file, depth, p, before, ownBefore);
      if ds[n - 1].keyword == "include" {
        IncludeGrows(w, ds[n - 1], file, depth, before.p, r.p);
        MidfileInclude(w, p, before, ownBefore, r.p);
      } else {
        MidfileRead(w, file, p, before, ownBefore, ds[n - 1]);
      }
    }
  }

  lemma {:induction false} IncludeGrows(
      w: World, d: Directive, file: string, depth: nat, p: Progress, after: Progress)
    requires depth <= MAX_INCLUDE_DEPTH && after == Include(w, d, file, depth, p)
    ensures Grows(w, p, after)
    decreases Rank(depth), 2, 0
  {
    match w.parent(file)
    case None =>
      NoGrowth(w, p);
      GrowsWarned(w, p, p, IncludeUnreadable(file, d.line, Join(d.args, " ")));
    case Some(base) => PatternsGrow(w, d, |d.args|, base, file, depth, p);
  }

  /** The states between the files of a list. */
  ghost function FileStates(w: World, targets: seq<string>, depth: nat, p: Progress): (states: seq<Progress>)
    requires depth <= MAX_INCLUDE_DEPTH
    ensures |states| == |targets| + 1
    ensures forall i | 0 <= i < |states| :: states[i] == FilesUpTo(w, targets, i, depth, p)
  {
    seq(|targets| + 1, i requires 0 <= i <= |targets| => FilesUpTo(w, targets, i, depth, p))
  }

  lemma {:induction false} PatternsGrow(
      w: World, d: Directive, n: nat, base: string, file: string, depth: nat, p: Progress)
    requires n <= |d.args| && depth <= MAX_INCLUDE_DEPTH
    ensures Grows(w, p, IncludeUpTo(w, d, n, base, file, depth, p))
    decreases Rank(depth), 1, n
  {
    if n == 0 {
      NoGrowth(w, p);
    } else {
      PatternsGrow(w, d, n - 1, base, file, depth, p);
      var before := IncludeUpTo(w, d, n - 1, base, file, depth, p);
      var targets := w.targets(base, w.expandTilde(d.args[n - 1]));
      if targets == [] {
        GrowsWarned(w, p, before, IncludeUnreadable(file, d.line, d.args[n - 1]));
      } else {
        var states := FileStates(w, targets, depth, before);
        FilesGrow(w, targets, depth, before, states);
        GrowsTransitive(w, p, before, states[|targets|]);
      }
    }
  }

  lemma FileGrows(w: World, targets: seq<string>, n: nat, depth: nat, p: Progress, before: Progress, after: Progress)
    requires n < |targets| && depth <= MAX_INCLUDE_DEPTH
    requires before == FilesUpTo(w, targets, n, depth, p) && after == FilesUpTo(w, targets, n + 1, depth, p)
    ensures Grows(w, before, after)
    decreases Rank(depth), 0, 0
  {
    ParseGrows(w, targets[n], depth + 1, before, after);
  }

  lemma {:induction false} ChainGrows(w: World, states: seq<Progress>, n: nat)
    requires n < |states| && forall i: nat | i < n :: Grows(w, states[i], states[i + 1])
    ensures Grows(w, states[0], states[n])
  {
    if n == 0 {
      NoGrowth(w, states[0]);
    } else {
      ChainGrows(w, states, n - 1);
      GrowsTransitive(w, states[0], states[n - 1], states[n]);
    }
  }

  lemma FilesGrow(w: World, targets: seq<string>, depth: nat, p: Progress, states: seq<Progress>)
    requires depth <= MAX_INCLUDE_DEPTH && states == FileStates(w, targets, depth, p)
    ensures Grows(w, states[0], states[|targets|])
    decreases Rank(depth), 0, 1
  {
    forall i: nat | i < |targets| ensures Grows(w, states[i], states[i + 1]) {
      FileGrows(w, targets, i, depth, p, states[i], states[i + 1]);
    }
    ChainGrows(w, states, |targets|);
  }

  /**
    Over every include graph, cyclic or not: reading ends, no canonical path is read twice, no file is
    read below depth 16, and the stanzas found are exactly the stanzas of the files read, each file's own
    as if its `Include` lines were not there and in the order in which they stand in that file.
   */
  lemma IncludeGraph(w: World, path: string)
    ensures
      var p := ParseInto(w, path, 0, NOTHING);
      && Disciplined(w, p)
      && multiset(p.blocks) == OwnOf(w, p.filesRead, 0)
      && Ordered(w, p, 0)
  {
    ParseGrows(w, path, 0, NOTHING, ParseInto(w, path, 0, NOTHING));
  }
}
