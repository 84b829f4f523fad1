/**
  The preview of an ssh_config import (crates/core-store/src/ssh_config/mod.rs): one candidate for each alias
  the configuration names, and the parser's warnings. This is all the user sees, so here is what of the
  configuration reaches it, and what does not.
 */
module ConfigScan {
  import opened Options
  import opened Text
  import opened Lexer
  import opened SshConfig
  import opened SshConfigLaws
  import opened IncludeOrder
  import Glob

  datatype Auth = KeyFile | Agent

  /** What committing the candidate would do. */
  datatype Disposition = New | Update

  datatype Candidate = Candidate(
    alias: string, hostname: string, port: nat, username: string, auth: Auth, keyPath: Option<string>,
    proxyJump: Option<string>, keepalive: Option<nat>, connectTimeout: Option<nat>, disposition: Disposition)

  datatype Preview = Preview(source: string, candidates: seq<Candidate>, warnings: seq<Warning>)

  /** The store asked for an imported host by its alias: whether there is one, or nothing if the store failed. */
  type Lookup = string -> Option<bool>

  // ---------------------------------------------------------------- aliases

  /** A pattern that names one host. */
  predicate Concrete(pattern: string) {
    !Glob.Negated(pattern) && '*' !in pattern && '?' !in pattern
  }

  /** The patterns of the first `n` stanzas, as written. */
  function NamesUpTo(blocks: seq<Block>, n: nat): seq<string>
    requires n <= |blocks|
  {
    if n == 0 then [] else NamesUpTo(blocks, n - 1) + blocks[n - 1].patterns
  }

  function Names(blocks: seq<Block>): seq<string> {
    NamesUpTo(blocks, |blocks|)
  }

  /** The concrete ones among some patterns, each where it stands first. */
  function AliasesAmong(names: seq<string>): seq<string> {
    if names == [] then []
    else
      var before, last := AliasesAmong(names[..|names| - 1]), names[|names| - 1];
      if Concrete(last) && last !in before then before + [last] else before
  }

  function AliasesOf(blocks: seq<Block>): seq<string> {
    AliasesAmong(Names(blocks))
  }

  lemma AliasesSnoc(before: seq<string>, patterns: seq<string>, j: nat)
    requires j < |patterns|
    ensures
      var out := AliasesAmong(before + patterns[..j]);
      AliasesAmong(before + patterns[..j + 1])
        == if Concrete(patterns[j]) && patterns[j] !in out then out + [patterns[j]] else out
  {
    var names := before + patterns[..j + 1];
    assert names[..|names| - 1] == before + patterns[..j] && names[|names| - 1] == patterns[j];
  }

  method AliasesOfStanza(patterns: seq<string>, listed: seq<string>, known: set<string>, ghost before: seq<string>)
    returns (out: seq<string>, seen: set<string>)
    requires listed == AliasesAmong(before) && forall x :: x in known <==> x in listed
    ensures out == AliasesAmong(before + patterns) && forall x :: x in seen <==> x in out
  {
    out, seen := listed, known;
    assert before + patterns[..0] == before;
    for j := 0 to |patterns|
      invariant out == AliasesAmong(before + patterns[..j])
      invariant forall x :: x in seen <==> x in out
    {
      var pattern := patterns[j];
      AliasesSnoc(before, patterns, j);
      if (pattern != "" && pattern[0] == '!') || '*' in pattern || '?' in pattern {
        continue;
      }
      if pattern !in seen {
        seen := seen + {pattern};
        out := out + [pattern];
      }
    }
    assert patterns[..|patterns|] == patterns;
  }

  /** Every alias worth offering, the stanzas gone through in order and each pattern in its stanza. */
  method Aliases(blocks: seq<Block>) returns (out: seq<string>)
    ensures out == AliasesOf(blocks)
  {
    var seen: set<string> := {};
    out := [];
    for i := 0 to |blocks|
      invariant out == AliasesAmong(NamesUpTo(blocks, i))
      invariant forall x :: x in seen <==> x in out
    {
      ghost var before := NamesUpTo(blocks, i);
      out, seen := AliasesOfStanza(blocks[i].patterns, out, seen, before);
    }
  }

  lemma {:induction false} AliasesWithin(names: seq<string>)
    ensures forall a :: a in AliasesAmong(names) <==> a in names && Concrete(a)
    ensures forall i, j | 0 <= i < j < |AliasesAmong(names)| :: AliasesAmong(names)[i] != AliasesAmong(names)[j]
  {
    if names != [] {
      var before, last := names[..|names| - 1], names[|names| - 1];
      AliasesWithin(before);
      assert names == before + [last];
    }
  }

  lemma {:induction false} AliasesInOrder(names: seq<string>, k: nat)
    requires k <= |names|
    ensures AliasesAmong(names[..k]) <= AliasesAmong(names)
  {
    if k < |names| {
      AliasesInOrder(names[..|names| - 1], k);
      assert names[..|names| - 1][..k] == names[..k];
    } else {
      assert names[..k] == names;
    }
  }

  /** The aliases are the concrete patterns, none twice, in the order in which the file first has them. */
  lemma AliasesAreTheConcreteNames(blocks: seq<Block>, k: nat)
    requires k <= |Names(blocks)|
    ensures
      var all, early := AliasesOf(blocks), AliasesAmong(Names(blocks)[..k]);
      && early <= all
      && (forall a :: a in early <==> a in Names(blocks)[..k] && Concrete(a))
      && (forall i, j | 0 <= i < j < |all| :: all[i] != all[j])
  {
    AliasesWithin(Names(blocks));
    AliasesWithin(Names(blocks)[..k]);
    AliasesInOrder(Names(blocks), k);
  }

  // ---------------------------------------------------------------- candidates

  function CandidateOf(alias: string, s: Settings, stored: bool): Candidate {
    Candidate(alias, s.hostname.GetOr(alias), s.port.GetOr(22), s.user.GetOr(""),
              if s.identityFile.Some? then KeyFile else Agent, s.identityFile, s.proxyJump,
              s.serverAliveInterval, s.connectTimeout, if stored then Update else New)
  }

  /** The candidate of one alias, unless the store failed on it. */
  function CandidateFor(blocks: seq<Block>, alias: string, find: Lookup): Option<Candidate> {
    match find(alias)
    case None => None
    case Some(stored) => Some(CandidateOf(alias, Resolve(blocks, alias), stored))
  }

  /** The candidates of the first `n` aliases, unless the store failed on one of them. */
  function CandidatesUpTo(blocks: seq<Block>, aliases: seq<string>, n: nat, find: Lookup): Option<seq<Candidate>>
    requires n <= |aliases|
  {
    if n == 0 then Some([])
    else
      match CandidatesUpTo(blocks, aliases, n - 1, find)
      case None => None
      case Some(before) =>
        match CandidateFor(blocks, aliases[n - 1], find)
        case None => None
        case Some(last) => Some(before + [last])
  }

  function Candidates(blocks: seq<Block>, find: Lookup): Option<seq<Candidate>> {
    CandidatesUpTo(blocks, AliasesOf(blocks), |AliasesOf(blocks)|, find)
  }

  /** Reading a configuration for import; nothing when the store fails. */
  function Scanned(w: World, path: string, find: Lookup): Option<Preview> {
    var p := ParseInto(w, path, 0, NOTHING);
    match Candidates(p.blocks, find)
    case None => None
    case Some(candidates) => Some(Preview(path, candidates, p.warnings))
  }

  lemma {:induction false} FailureStays(blocks: seq<Block>, aliases: seq<string>, m: nat, n: nat, find: Lookup)
    requires m <= n <= |aliases| && CandidatesUpTo(blocks, aliases, m, find).None?
    ensures CandidatesUpTo(blocks, aliases, n, find).None?
  {
    if m < n {
      FailureStays(blocks, aliases, m, n - 1, find);
    }
  }

  method FindCandidate(parsed: ParsedConfig, alias: string, find: Lookup) returns (r: Option<Candidate>)
    ensures r == CandidateFor(parsed.stanzas, alias, find)
  {
    var resolved := parsed.ResolveAlias(alias);
    var existing := find(alias);
    if existing.None? {
      return None;
    }
    return Some(CandidateOf(alias, resolved, existing.value));
  }

  method FindCandidates(parsed: ParsedConfig, aliases: seq<string>, find: Lookup) returns (r: Option<seq<Candidate>>)
    ensures r == CandidatesUpTo(parsed.stanzas, aliases, |aliases|, find)
  {
    var candidates: seq<Candidate> := [];
    for i := 0 to |aliases|
      invariant CandidatesUpTo(parsed.stanzas, aliases, i, find) == Some(candidates)
    {
      var candidate := FindCandidate(parsed, aliases[i], find);
      if candidate.None? {
        FailureStays(parsed.stanzas, aliases, i + 1, |aliases|, find);
        return None;
      }
      candidates := candidates + [candidate.value];
    }
    return Some(candidates);
  }

  /** Reads and reports; the store's first failure ends it. */
  method Scan(w: World, path: string, find: Lookup) returns (r: Option<Preview>)
    ensures r == Scanned(w, path, find)
  {
    var parsed := ParseFile(w, path);
    var aliases := Aliases(parsed.stanzas);
    var candidates := FindCandidates(parsed, aliases, find);
    if candidates.None? {
      return None;
    }
    return Some(Preview(path, candidates.value, parsed.warnings));
  }

  // ---------------------------------------------------------------- what a candidate shows

  /** The part of a candidate that a keyword is about. */
  function Shown(c: Candidate, keyword: string): Option<Value> {
    match keyword
    case "hostname" => Some(TextValue(c.hostname))
    case "port" => Some(NumberValue(c.port))
    case "user" => Some(TextValue(c.username))
    case "identityfile" => OfText(c.keyPath)
    case "proxyjump" => OfText(c.proxyJump)
    case "serveraliveinterval" => OfNumber(c.keepalive)
    case "connecttimeout" => OfNumber(c.connectTimeout)
    case _ => None
  }

  /** What it shows when the configuration says nothing: the alias itself, port 22, no user name. */
  function Default(alias: string, keyword: string): Option<Value> {
    match keyword
    case "hostname" => Some(TextValue(alias))
    case "port" => Some(NumberValue(22))
    case "user" => Some(TextValue(""))
    case _ => None
  }

  const UNSEEN := "forwardagent"

  lemma ShownIsResolved(alias: string, s: Settings, stored: bool, keyword: string)
    requires keyword in UNDERSTOOD && keyword != UNSEEN
    ensures Shown(CandidateOf(alias, s, stored), keyword) == Get(s, keyword).OrElse(Default(alias, keyword))
  {
  }

  lemma {:induction false} CandidateAt(
      blocks: seq<Block>, aliases: seq<string>, n: nat, find: Lookup, all: seq<Candidate>)
    requires n <= |aliases| && CandidatesUpTo(blocks, aliases, n, find) == Some(all)
    ensures |all| == n
    ensures forall i | 0 <= i < n ::
              && find(aliases[i]).Some?
              && all[i] == CandidateOf(aliases[i], Resolve(blocks, aliases[i]), find(aliases[i]).value)
  {
    if n > 0 {
      CandidateAt(blocks, aliases, n - 1, find, CandidatesUpTo(blocks, aliases, n - 1, find).value);
    }
  }

  /**
    What the preview of any include graph says: one candidate for each alias in order, and for each keyword but
    the unseen one the value that one pass over the flat file hears first, or the default.
   */
  lemma PreviewIsHeard(w: World, path: string, find: Lookup, i: nat, keyword: string)
    requires Scanned(w, path, find).Some? && i < |Scanned(w, path, find).value.candidates|
    requires keyword in UNDERSTOOD && keyword != UNSEEN
    ensures
      var aliases := AliasesOf(StanzasOf(w, Flat(w, path)));
      var c := Scanned(w, path, find).value.candidates[i];
      && |Scanned(w, path, find).value.candidates| == |aliases| && c.alias == aliases[i]
      && Shown(c, keyword)
         == OnePass(w, Flat(w, path), |Flat(w, path)|, c.alias, keyword).heard.OrElse(Default(c.alias, keyword))
      && (c.auth == KeyFile <==> c.keyPath.Some?)
      && find(c.alias) == Some(c.disposition == Update)
  {
    var blocks := ParseInto(w, path, 0, NOTHING).blocks;
    var aliases := AliasesOf(blocks);
    GraphIsOneFile(w, path);
    CandidateAt(blocks, aliases, |aliases|, find, Scanned(w, path, find).value.candidates);
    ShownIsResolved(aliases[i], Resolve(blocks, aliases[i]), find(aliases[i]).value, keyword);
    ResolvedInOnePass(w, path, aliases[i], keyword);
  }

  // ---------------------------------------------------------------- which settings reach the preview

  /** The values a keyword can have. */
  predicate Fits(keyword: string, v: Value) {
    match keyword
    case "port" => v.NumberValue? && v.n <= U16_MAX
    case "serveraliveinterval" => v.NumberValue? && v.n <= U32_MAX
    case "connecttimeout" => v.NumberValue? && v.n <= U32_MAX
    case "forwardagent" => v.FlagValue?
    case _ => v.TextValue?
  }

  function Put(s: Settings, keyword: string, v: Value): Settings
    requires keyword in UNDERSTOOD && Fits(keyword, v)
  {
    match keyword
    case "hostname" => s.(hostname := Some(v.text))
    case "port" => s.(port := Some(v.n))
    case "user" => s.(user := Some(v.text))
    case "identityfile" => s.(identityFile := Some(v.text))
    case "proxyjump" => s.(proxyJump := Some(v.text))
    case "serveraliveinterval" => s.(serverAliveInterval := Some(v.n))
    case "connecttimeout" => s.(connectTimeout := Some(v.n))
    case _ => s.(forwardAgent := Some(v.on))
  }

  lemma PutIsGot(s: Settings, keyword: string, v: Value, asked: string)
    requires keyword in UNDERSTOOD && Fits(keyword, v)
    ensures Get(Put(s, keyword, v), asked) == if asked == keyword then Some(v) else Get(s, asked)
  {
  }

  /** The same stanzas, but for one value in the `i`-th. */
  function With(blocks: seq<Block>, i: nat, keyword: string, v: Value): seq<Block>
    requires i < |blocks| && keyword in UNDERSTOOD && Fits(keyword, v)
  {
    blocks[i := Block(blocks[i].patterns, Put(blocks[i].settings, keyword, v))]
  }

  /** It makes a difference to the candidates which value the `i`-th stanza gives the keyword. */
  ghost predicate Reaches(blocks: seq<Block>, i: nat, keyword: string, find: Lookup)
    requires i < |blocks| && keyword in UNDERSTOOD
  {
    exists v, u | Fits(keyword, v) && Fits(keyword, u) ::
      Candidates(With(blocks, i, keyword, v), find) != Candidates(With(blocks, i, keyword, u), find)
  }

  /** The stanza is the first of those that match the alias to say anything about the keyword. */
  predicate FirstToSay(blocks: seq<Block>, i: nat, alias: string, keyword: string)
    requires i < |blocks|
  {
    && Matches(blocks[i].patterns, alias)
    && forall j | 0 <= j < i && Matches(blocks[j].patterns, alias) :: Get(blocks[j].settings, keyword).None?
  }

  predicate Live(blocks: seq<Block>, i: nat, keyword: string)
    requires i < |blocks|
  {
    keyword != UNSEEN && exists a | a in AliasesOf(blocks) :: FirstToSay(blocks, i, a, keyword)
  }

  lemma {:induction false} NobodySaid(blocks: seq<Block>, n: nat, alias: string, keyword: string)
    requires n <= |blocks|
    ensures Get(ResolveUpTo(blocks, n, alias), keyword).None? <==>
              forall j | 0 <= j < n && Matches(blocks[j].patterns, alias) :: Get(blocks[j].settings, keyword).None?
  {
    if n > 0 {
      NobodySaid(blocks, n - 1, alias, keyword);
      InheritTakesFirst(ResolveUpTo(blocks, n - 1, alias), blocks[n - 1].settings, keyword);
    }
  }

  lemma {:induction false} SameUpTo(blocks: seq<Block>, i: nat, keyword: string, v: Value, n: nat, alias: string)
    requires n <= i < |blocks| && keyword in UNDERSTOOD && Fits(keyword, v)
    ensures ResolveUpTo(With(blocks, i, keyword, v), n, alias) == ResolveUpTo(blocks, n, alias)
  {
    if n > 0 {
      SameUpTo(blocks, i, keyword, v, n - 1, alias);
    }
  }

  /** What the first to say anything says is what is resolved. */
  lemma {:induction false} Heeded(blocks: seq<Block>, i: nat, keyword: string, v: Value, n: nat, alias: string)
    requires i < n <= |blocks| && keyword in UNDERSTOOD && Fits(keyword, v)
    requires FirstToSay(blocks, i, alias, keyword)
    ensures Get(ResolveUpTo(With(blocks, i, keyword, v), n, alias), keyword) == Some(v)
  {
    var changed := With(blocks, i, keyword, v);
    var before := ResolveUpTo(changed, n - 1, alias);
    InheritTakesFirst(before, changed[n - 1].settings, keyword);
    if n == i + 1 {
      SameUpTo(blocks, i, keyword, v, i, alias);
      NobodySaid(blocks, i, alias, keyword);
      PutIsGot(blocks[i].settings, keyword, v, keyword);
    } else {
      Heeded(blocks, i, keyword, v, n - 1, alias);
    }
  }

  /** Otherwise it makes no difference to what is resolved; nor does it ever to another keyword. */
  lemma {:induction false} Unheeded(
      blocks: seq<Block>, i: nat, keyword: string, v: Value, u: Value, n: nat, alias: string, asked: string)
    requires i < |blocks| && n <= |blocks| && keyword in UNDERSTOOD && Fits(keyword, v) && Fits(keyword, u)
    requires asked != keyword || !FirstToSay(blocks, i, alias, keyword)
    ensures Get(ResolveUpTo(With(blocks, i, keyword, v), n, alias), asked)
         == Get(ResolveUpTo(With(blocks, i, keyword, u), n, alias), asked)
  {
    if n > 0 {
      var a, b := With(blocks, i, keyword, v), With(blocks, i, keyword, u);
      Unheeded(blocks, i, keyword, v, u, n - 1, alias, asked);
      InheritTakesFirst(ResolveUpTo(a, n - 1, alias), a[n - 1].settings, asked);
      InheritTakesFirst(ResolveUpTo(b, n - 1, alias), b[n - 1].settings, asked);
      if n == i + 1 {
        PutIsGot(blocks[i].settings, keyword, v, asked);
        PutIsGot(blocks[i].settings, keyword, u, asked);
        SameUpTo(blocks, i, keyword, v, i, alias);
        NobodySaid(blocks, i, alias, keyword);
      }
    }
  }

  lemma {:induction false} NamesSame(a: seq<Block>, b: seq<Block>, n: nat)
    requires n <= |a| == |b| && forall j | 0 <= j < |a| :: a[j].patterns == b[j].patterns
    ensures NamesUpTo(a, n) == NamesUpTo(b, n)
  {
    if n > 0 {
      NamesSame(a, b, n - 1);
    }
  }

  lemma AliasesSame(blocks: seq<Block>, i: nat, keyword: string, v: Value)
    requires i < |blocks| && keyword in UNDERSTOOD && Fits(keyword, v)
    ensures AliasesOf(With(blocks, i, keyword, v)) == AliasesOf(blocks)
  {
    NamesSame(With(blocks, i, keyword, v), blocks, |blocks|);
  }

  lemma CandidateByFields(alias: string, s: Settings, t: Settings, stored: bool)
    requires Get(s, "hostname") == Get(t, "hostname") && Get(s, "port") == Get(t, "port")
    requires Get(s, "user") == Get(t, "user") && Get(s, "identityfile") == Get(t, "identityfile")
    requires Get(s, "proxyjump") == Get(t, "proxyjump")
    requires Get(s, "serveraliveinterval") == Get(t, "serveraliveinterval")
    requires Get(s, "connecttimeout") == Get(t, "connecttimeout")
    ensures CandidateOf(alias, s, stored) == CandidateOf(alias, t, stored)
  {
    SettingsByFields(s.(forwardAgent := None), t.(forwardAgent := None));
  }

  /** A candidate depends on its settings only in what it shows. */
  lemma CandidateByKeyword(alias: string, s: Settings, t: Settings, stored: bool)
    requires forall k | k in UNDERSTOOD && k != UNSEEN :: Get(s, k) == Get(t, k)
    ensures CandidateOf(alias, s, stored) == CandidateOf(alias, t, stored)
  {
    forall i | 0 <= i < 7 ensures Get(s, UNDERSTOOD[i]) == Get(t, UNDERSTOOD[i]) {
      assert UNDERSTOOD[i] in UNDERSTOOD && UNDERSTOOD[i] != UNSEEN;
    }
    CandidateByFields(alias, s, t, stored);
  }

  /** With settings that resolve alike the candidates are alike; a store that fails fails either way. */
  lemma {:induction false} CandidatesAlike(a: seq<Block>, b: seq<Block>, aliases: seq<string>, n: nat, find: Lookup)
    requires n <= |aliases|
    requires forall j, k | 0 <= j < n && k in UNDERSTOOD && k != UNSEEN ::
               Get(Resolve(a, aliases[j]), k) == Get(Resolve(b, aliases[j]), k)
    ensures CandidatesUpTo(a, aliases, n, find) == CandidatesUpTo(b, aliases, n, find)
  {
    if n > 0 {
      CandidatesAlike(a, b, aliases, n - 1, find);
      if find(aliases[n - 1]).Some? {
        CandidateByKeyword(aliases[n - 1], Resolve(a, aliases[n - 1]), Resolve(b, aliases[n - 1]),
                           find(aliases[n - 1]).value);
      }
    }
  }

  lemma {:induction false} FailsAlike(a: seq<Block>, b: seq<Block>, aliases: seq<string>, n: nat, find: Lookup)
    requires n <= |aliases|
    ensures CandidatesUpTo(a, aliases, n, find).None? <==> CandidatesUpTo(b, aliases, n, find).None?
  {
    if n > 0 {
      FailsAlike(a, b, aliases, n - 1, find);
    }
  }

  /** Two different values for a keyword. */
  function Sample(keyword: string, second: bool): (v: Value)
    ensures Fits(keyword, v)
  {
    match keyword
    case "port" => NumberValue(if second then 1 else 0)
    case "serveraliveinterval" => NumberValue(if second then 1 else 0)
    case "connecttimeout" => NumberValue(if second then 1 else 0)
    case "forwardagent" => FlagValue(second)
    case _ => TextValue(if second then "b" else "a")
  }

  lemma LiveShows(blocks: seq<Block>, i: nat, keyword: string, find: Lookup, v: Value, m: nat)
    requires i < |blocks| && keyword in UNDERSTOOD && keyword != UNSEEN && Fits(keyword, v)
    requires m < |AliasesOf(blocks)| && FirstToSay(blocks, i, AliasesOf(blocks)[m], keyword)
    requires Candidates(blocks, find).Some?
    ensures
      var all := Candidates(With(blocks, i, keyword, v), find);
      all.Some? && m < |all.value| && Shown(all.value[m], keyword) == Some(v)
  {
    var changed, aliases := With(blocks, i, keyword, v), AliasesOf(blocks);
    AliasesSame(blocks, i, keyword, v);
    FailsAlike(blocks, changed, aliases, |aliases|, find);
    CandidateAt(changed, aliases, |aliases|, find, Candidates(changed, find).value);
    Heeded(blocks, i, keyword, v, |blocks|, aliases[m]);
    ShownIsResolved(aliases[m], Resolve(changed, aliases[m]), find(aliases[m]).value, keyword);
  }

  lemma LiveReaches(blocks: seq<Block>, i: nat, keyword: string, find: Lookup, v: Value, u: Value)
    requires i < |blocks| && keyword in UNDERSTOOD && Fits(keyword, v) && Fits(keyword, u) && v != u
    requires Live(blocks, i, keyword) && Candidates(blocks, find).Some?
    ensures Candidates(With(blocks, i, keyword, v), find) != Candidates(With(blocks, i, keyword, u), find)
  {
    var aliases := AliasesOf(blocks);
    var a :| a in aliases && FirstToSay(blocks, i, a, keyword);
    var m :| 0 <= m < |aliases| && aliases[m] == a;
    LiveShows(blocks, i, keyword, find, v, m);
    LiveShows(blocks, i, keyword, find, u, m);
  }

  lemma DeadIsLost(blocks: seq<Block>, i: nat, keyword: string, find: Lookup, v: Value, u: Value)
    requires i < |blocks| && keyword in UNDERSTOOD && Fits(keyword, v) && Fits(keyword, u)
    requires !Live(blocks, i, keyword) || Candidates(blocks, find).None?
    ensures Candidates(With(blocks, i, keyword, v), find) == Candidates(With(blocks, i, keyword, u), find)
  {
    var a, b, aliases := With(blocks, i, keyword, v), With(blocks, i, keyword, u), AliasesOf(blocks);
    AliasesSame(blocks, i, keyword, v);
    AliasesSame(blocks, i, keyword, u);
    if Live(blocks, i, keyword) {
      FailsAlike(blocks, a, aliases, |aliases|, find);
      FailsAlike(blocks, b, aliases, |aliases|, find);
    } else {
      forall j, k | 0 <= j < |aliases| && k in UNDERSTOOD && k != UNSEEN
        ensures Get(Resolve(a, aliases[j]), k) == Get(Resolve(b, aliases[j]), k)
      {
        assert aliases[j] in aliases;
        Unheeded(blocks, i, keyword, v, u, |blocks|, aliases[j], k);
      }
      CandidatesAlike(a, b, aliases, |aliases|, find);
    }
  }

  /**
    A setting of a stanza reaches the preview exactly when the store answers, the keyword is one that a
    candidate shows, and for some alias the stanza is the first that matches it and says anything on it.
   */
  lemma ReachesExactly(blocks: seq<Block>, i: nat, keyword: string, find: Lookup)
    requires i < |blocks| && keyword in UNDERSTOOD
    ensures Reaches(blocks, i, keyword, find) <==> Candidates(blocks, find).Some? && Live(blocks, i, keyword)
  {
    if Candidates(blocks, find).Some? && Live(blocks, i, keyword) {
      LiveReaches(blocks, i, keyword, find, Sample(keyword, false), Sample(keyword, true));
    } else if Reaches(blocks, i, keyword, find) {
      var v, u :| Fits(keyword, v) && Fits(keyword, u)
        && Candidates(With(blocks, i, keyword, v), find) != Candidates(With(blocks, i, keyword, u), find);
      DeadIsLost(blocks, i, keyword, find, v, u);
    }
  }

  // ---------------------------------------------------------------- settings that are lost

  lemma NegatedMatchNothing(patterns: seq<string>, alias: string)
    requires forall p | p in patterns :: Glob.Negated(p)
    ensures !Matches(patterns, alias)
  {
  }

  /**
    Two losses in well-formed files, neither of them reported. `ForwardAgent` is read and never shown; and a
    stanza of negated patterns only matches nothing, so that its settings reach nobody and it names no alias.
   */
  lemma LostInThePreview(blocks: seq<Block>, i: nat, keyword: string, find: Lookup)
    requires i < |blocks| && keyword in UNDERSTOOD
    requires keyword == UNSEEN || forall p | p in blocks[i].patterns :: Glob.Negated(p)
    ensures !Reaches(blocks, i, keyword, find)
  {
    ReachesExactly(blocks, i, keyword, find);
    if keyword != UNSEEN {
      forall a ensures !FirstToSay(blocks, i, a, keyword) {
        NegatedMatchNothing(blocks[i].patterns, a);
      }
    }
  }

  lemma NegatedStanzaIsRead(w: World, path: string, text: string)
    requires w.text(path) == Some(text)
    requires Tokenize(text) == [Directive(1, "host", ["!a"]), Directive(2, "hostname", ["x"])]
    ensures
      var p := ParseInto(w, path, 0, NOTHING);
      p.blocks == [Block(["!a"], UNSET.(hostname := Some("x")))] && p.warnings == []
  {
    var ds := Tokenize(text);
    var start := Reading(Entered(w, path, 0, NOTHING), None, false);
    var block := Block(["!a"], UNSET.(hostname := Some("x")));
    assert AbsorbUpTo(w, ds, 0, path, 0, start) == start;
    assert AbsorbUpTo(w, ds, 1, path, 0, start) == start.(current := Some(Block(["!a"], UNSET)));
    assert AbsorbUpTo(w, ds, 2, path, 0, start) == start.(current := Some(block));
  }

  /** The file `Host !a`, `HostName x`: a stanza with a setting, and an empty preview without a warning. */
  lemma NegatedStanzaVanishes(w: World, path: string, text: string, find: Lookup)
    requires w.text(path) == Some(text)
    requires Tokenize(text) == [Directive(1, "host", ["!a"]), Directive(2, "hostname", ["x"])]
    ensures ParseInto(w, path, 0, NOTHING).blocks == [Block(["!a"], UNSET.(hostname := Some("x")))]
    ensures Scanned(w, path, find) == Some(Preview(path, [], []))
  {
    NegatedStanzaIsRead(w, path, text);
    var blocks := [Block(["!a"], UNSET.(hostname := Some("x")))];
    assert NamesUpTo(blocks, 0) == [] && NamesUpTo(blocks, 1) == ["!a"];
    assert ["!a"][..0] == [];
  }
}
