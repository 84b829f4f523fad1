/**
  What the words of an ssh_config stand for: numbers and flags as users write them, each of the eight keywords, and two
  files followed from their text to the preview.
 */
module ConfigExample {
  import opened Options
  import opened Text
  import opened Lexer
  import opened SshConfig
  import opened SshConfigLaws
  import opened ConfigScan
  import Glob

  // ---------------------------------------------------------------- numbers and flags

  /** A number in decimal, with or without a plus sign, is read as itself if it is not too large; if so, not at all. */
  lemma NumberAsWritten(n: nat, max: nat)
    ensures ParseUnsigned(Digits(n), max) == if n <= max then Some(n) else None
    ensures ParseUnsigned("+" + Digits(n), max) == if n <= max then Some(n) else None
  {
    DecimalRoundTrip(n);
    assert ("+" + Digits(n))[1..] == Digits(n);
    assert IsDigit(Digits(n)[0]);
  }

  /** Anything else is no number: no digit at all, or a character that is none, a leading plus sign apart. */
  lemma NoNumber(s: string, max: nat, i: nat)
    requires s == "" || s == "+" || (i < |s| && !IsDigit(s[i]) && (i == 0 ==> s[0] != '+'))
    ensures ParseUnsigned(s, max) == None
  {
    if i < |s| && i > 0 && s[0] == '+' {
      assert s[1..][i - 1] == s[i];
    }
  }

  /** On is `yes`, `true` or `on`, in any case; every other word is off. */
  lemma FlagMeans(s: string)
    ensures ParseFlag(s) <==> SameButCase(s, "yes") || SameButCase(s, "true") || SameButCase(s, "on")
  {
    assert Lower("yes") == "yes" && Lower("true") == "true" && Lower("on") == "on";
    LowerComparesCase(s, "yes");
    LowerComparesCase(s, "true");
    LowerComparesCase(s, "on");
  }

  // ---------------------------------------------------------------- the keywords

  /** Four keywords take text: as it stands, a path with its tilde expanded, a list of hops with commas. */
  lemma TextKeywordsMean(w: World, s: Settings, text: string, more: string)
    ensures s.hostname.None? ==> Applied(w, s, "hostname", [text, more]) == s.(hostname := Some(text))
    ensures s.user.None? ==> Applied(w, s, "user", [text, more]) == s.(user := Some(text))
    ensures s.identityFile.None? ==>
              Applied(w, s, "identityfile", [text, more]) == s.(identityFile := Some(w.expandTilde(text)))
    ensures s.proxyJump.None? ==>
              Applied(w, s, "proxyjump", [text, more]) == s.(proxyJump := Some(text + "," + more))
  {
    assert [text, more][1..] == [more];
    assert Join([more], ",") == more;
  }

  lemma NumberRead(n: nat, text: string)
    requires text == Digits(n)
    ensures ParseUnsigned(text, U16_MAX) == if n < 65536 then Some(n) else None
    ensures ParseUnsigned(text, U32_MAX) == if n < 4294967296 then Some(n) else None
  {
    NumberAsWritten(n, U16_MAX);
    NumberAsWritten(n, U32_MAX);
  }

  /** Three take a number: a port of 16 bits, two times of 32. */
  lemma NumberKeywordsMean(w: World, s: Settings, n: nat, text: string)
    requires text == Digits(n)
    ensures s.port.None? ==> Applied(w, s, "port", [text]) == s.(port := if n < 65536 then Some(n) else None)
    ensures s.serverAliveInterval.None? ==>
              Applied(w, s, "serveraliveinterval", [text])
                == s.(serverAliveInterval := if n < 4294967296 then Some(n) else None)
    ensures s.connectTimeout.None? ==>
              Applied(w, s, "connecttimeout", [text])
                == s.(connectTimeout := if n < 4294967296 then Some(n) else None)
  {
    NumberRead(n, text);
  }

  predicate SaysOn(s: string) {
    SameButCase(s, "yes") || SameButCase(s, "true") || SameButCase(s, "on")
  }

  /** And one takes a flag. */
  lemma FlagKeywordMeans(w: World, s: Settings, text: string)
    requires s.forwardAgent.None?
    ensures Applied(w, s, "forwardagent", [text]) == s.(forwardAgent := Some(SaysOn(text)))
  {
    FlagMeans(text);
  }

  // ---------------------------------------------------------------- a text, line by line

  /** Lines that are read one by one as given make a file that is read as all of them. */
  lemma {:induction false} LinesAreRead(lines: seq<string>, ds: seq<Directive>, n: nat)
    requires |lines| == |ds| && n <= |ds|
    requires forall i | 0 <= i < |ds| ::
               ds[i].line == i + 1 && TokenizeLine(lines[i]) == Some((ds[i].keyword, ds[i].args))
    ensures TokenizeFrom(lines, n) == ds[n..]
    decreases |ds| - n
  {
    if n < |ds| {
      LinesAreRead(lines, ds, n + 1);
      assert ds[n..] == [ds[n]] + ds[n + 1..];
    }
  }

  /** A keyword in any case, a blank and one word. */
  lemma OneWordLine(keyword: string, small: string, word: string)
    requires PlainKeyword(keyword) && InSmallLetters(keyword, small) && word != "" && Plain(word) && word[0] != '='
    ensures TokenizeLine(keyword + (" " + word)) == Some((small, [word]))
  {
    BareLine(keyword, small, [word]);
    assert [word][1..] == [] && BareArgs([]) == "";
    assert BareArgs([word]) == " " + word;
  }

  lemma TwoLinesRead(first: string, second: string, d: Directive, e: Directive)
    requires '\n' !in first && '\n' !in second && StripCr(first) == first && StripCr(second) == second
    requires d.line == 1 && TokenizeLine(first) == Some((d.keyword, d.args))
    requires e.line == 2 && TokenizeLine(second) == Some((e.keyword, e.args))
    ensures Tokenize(first + "\n" + (second + "\n")) == [d, e]
  {
    LinesCons(first, second + "\n");
    LinesOne(second);
    assert Lines(first + "\n" + (second + "\n")) == [first, second];
    LinesAreRead([first, second], [d, e], 0);
  }

  /** The text of a file: the line `Host a` and the line `HostName b.example`. */
  const TWO_LINES := "Host" + (" " + "a") + "\n" + ("HostName" + (" " + "b.example") + "\n")

  lemma TwoWordLinesRead(
      k1: string, small1: string, word1: string, k2: string, small2: string, word2: string, first: string,
      second: string)
    requires PlainKeyword(k1) && InSmallLetters(k1, small1) && word1 != "" && Plain(word1) && word1[0] != '='
    requires PlainKeyword(k2) && InSmallLetters(k2, small2) && word2 != "" && Plain(word2) && word2[0] != '='
    requires first == k1 + (" " + word1) && second == k2 + (" " + word2)
    requires '\n' !in first && '\n' !in second && StripCr(first) == first && StripCr(second) == second
    ensures Tokenize(first + "\n" + (second + "\n")) == [Directive(1, small1, [word1]), Directive(2, small2, [word2])]
  {
    OneWordLine(k1, small1, word1);
    OneWordLine(k2, small2, word2);
    TwoLinesRead(first, second, Directive(1, small1, [word1]), Directive(2, small2, [word2]));
  }

  lemma TwoLines()
    ensures Tokenize(TWO_LINES) == [Directive(1, "host", ["a"]), Directive(2, "hostname", ["b.example"])]
  {
    var first, second := "Host" + (" " + "a"), "HostName" + (" " + "b.example");
    assert first[|first| - 1] == 'a' && second[|second| - 1] == 'e';
    TwoWordLinesRead("Host", "host", "a", "HostName", "hostname", "b.example", first, second);
  }

  // ---------------------------------------------------------------- one stanza

  /** A file of one `Host` line and settings after it is the stanza with the settings applied in turn. */
  function AppliedUpTo(w: World, ds: seq<Directive>, n: nat): Settings
    requires n <= |ds|
  {
    if n == 0 then UNSET else Applied(w, AppliedUpTo(w, ds, n - 1), ds[n - 1].keyword, ds[n - 1].args)
  }

  lemma SettingRead(w: World, file: string, p: Progress, b: Block, d: Directive)
    requires d.keyword in UNDERSTOOD
    ensures d.keyword != "include"
    ensures Read(w, file, Reading(p, Some(b), false), d)
         == Reading(p, Some(b.(settings := Applied(w, b.settings, d.keyword, d.args))), false)
  {
  }

  lemma HostBegins(w: World, ds: seq<Directive>, name: string, path: string, p: Progress)
    requires ds != [] && ds[0] == Directive(1, "host", [name])
    ensures AbsorbUpTo(w, ds, 1, path, 0, Reading(p, None, false)) == Reading(p, Some(Block([name], UNSET)), false)
  {
    assert AbsorbUpTo(w, ds, 0, path, 0, Reading(p, None, false)) == Reading(p, None, false);
  }

  /** One setting more, read into the stanza that is open. */
  lemma SettingAbsorbed(
      w: World, ds: seq<Directive>, n: nat, path: string, p: Progress, start: Reading, b: Block, before: Reading)
    requires n < |ds| && ds[n].keyword in UNDERSTOOD
    requires before == AbsorbUpTo(w, ds, n, path, 0, start) == Reading(p, Some(b), false)
    ensures AbsorbUpTo(w, ds, n + 1, path, 0, start)
         == Reading(p, Some(b.(settings := Applied(w, b.settings, ds[n].keyword, ds[n].args))), false)
  {
    SettingRead(w, path, p, b, ds[n]);
  }

  lemma {:induction false} StanzaUpTo(
      w: World, ds: seq<Directive>, name: string, n: nat, path: string, p: Progress, s: Settings, r: Reading)
    requires n + 1 <= |ds| && ds[0] == Directive(1, "host", [name])
    requires forall i | 1 <= i < |ds| :: ds[i].keyword in UNDERSTOOD
    requires s == AppliedUpTo(w, ds[1..], n)
    requires r == AbsorbUpTo(w, ds, n + 1, path, 0, Reading(p, None, false))
    ensures r == Reading(p, Some(Block([name], s)), false)
  {
    if n == 0 {
      HostBegins(w, ds, name, path, p);
    } else {
      var start := Reading(p, None, false);
      var before := AbsorbUpTo(w, ds, n, path, 0, start);
      var t := AppliedUpTo(w, ds[1..], n - 1);
      StanzaUpTo(w, ds, name, n - 1, path, p, t, before);
      SettingAbsorbed(w, ds, n, path, p, start, Block([name], t), before);
      assert ds[1..][n - 1] == ds[n];
    }
  }

  /** The first file, read: what its directives leave, with the last stanza put away. */
  lemma FirstFile(w: World, path: string, ds: seq<Directive>, entered: Progress, r: Reading, p: Progress)
    requires w.text(path).Some? && Tokenize(w.text(path).value) == ds && entered == Entered(w, path, 0, NOTHING)
    requires r == AbsorbUpTo(w, ds, |ds|, path, 0, Reading(entered, None, false))
    requires p == ParseInto(w, path, 0, NOTHING)
    ensures p == r.p.(blocks := Flush(r.p.blocks, r.current))
  {
  }

  lemma OneStanzaIsRead(w: World, path: string, ds: seq<Directive>, name: string, s: Settings, p: Progress)
    requires w.text(path).Some? && Tokenize(w.text(path).value) == ds != [] && ds[0] == Directive(1, "host", [name])
    requires forall i | 1 <= i < |ds| :: ds[i].keyword in UNDERSTOOD
    requires s == AppliedUpTo(w, ds[1..], |ds| - 1) && p == ParseInto(w, path, 0, NOTHING)
    ensures p.blocks == [Block([name], s)] && p.warnings == []
  {
    var n, entered := |ds| - 1, Entered(w, path, 0, NOTHING);
    var r := AbsorbUpTo(w, ds, n + 1, path, 0, Reading(entered, None, false));
    StanzaUpTo(w, ds, name, n, path, entered, s, r);
    FirstFile(w, path, ds, entered, r, p);
  }

  lemma NameMatchesItself(name: string)
    requires Concrete(name)
    ensures Matches([name], name)
  {
    Glob.SelfMatch(name, 0);
    assert name in [name];
  }

  lemma OneBlockAlias(name: string, blocks: seq<Block>)
    requires Concrete(name) && |blocks| == 1 && blocks[0].patterns == [name]
    ensures AliasesOf(blocks) == [name]
  {
    assert NamesUpTo(blocks, 0) == [] && NamesUpTo(blocks, 1) == [name];
    assert [name][..0] == [] && AliasesAmong([]) == [];
    assert AliasesAmong([name]) == [name];
  }

  lemma OneBlockResolved(name: string, s: Settings, blocks: seq<Block>)
    requires Concrete(name) && blocks == [Block([name], s)]
    ensures Resolve(blocks, name) == s
  {
    NameMatchesItself(name);
    assert ResolveUpTo(blocks, 0, name) == UNSET;
    assert Inherited(UNSET, s) == s;
  }

  lemma OneAliasCandidates(blocks: seq<Block>, name: string, find: Lookup, c: Candidate)
    requires CandidateFor(blocks, name, find) == Some(c)
    ensures CandidatesUpTo(blocks, [name], 1, find) == Some([c])
  {
    assert CandidatesUpTo(blocks, [name], 0, find) == Some([]);
    assert [] + [c] == [c];
  }

  lemma OneBlockCandidates(name: string, s: Settings, find: Lookup, stored: bool)
    requires Concrete(name) && find(name) == Some(stored)
    ensures Candidates([Block([name], s)], find) == Some([CandidateOf(name, s, stored)])
  {
    var blocks := [Block([name], s)];
    OneBlockAlias(name, blocks);
    OneBlockResolved(name, s, blocks);
    var c := CandidateOf(name, s, stored);
    assert CandidateFor(blocks, name, find) == Some(c);
    OneAliasCandidates(blocks, name, find, c);
  }

  /** And its preview is one candidate, named after the stanza, and no warning. */
  lemma OneStanzaIsOffered(
      w: World, path: string, text: string, name: string, settings: seq<Directive>, find: Lookup, stored: bool)
    requires w.text(path) == Some(text) && Tokenize(text) == [Directive(1, "host", [name])] + settings
    requires forall i | 0 <= i < |settings| :: settings[i].keyword in UNDERSTOOD
    requires Concrete(name) && find(name) == Some(stored)
    ensures Scanned(w, path, find)
         == Some(Preview(path, [CandidateOf(name, AppliedUpTo(w, settings, |settings|), stored)], []))
  {
    var s := AppliedUpTo(w, settings, |settings|);
    assert Tokenize(text)[1..] == settings;
    OneStanzaIsRead(w, path, Tokenize(text), name, s, ParseInto(w, path, 0, NOTHING));
    OneBlockCandidates(name, s, find, stored);
  }

  // ---------------------------------------------------------------- from the text to the preview

  /** `Host a`, `HostName b.example`: the host `a` is offered, at `b.example` on port 22. */
  lemma OrdinaryFileIsOffered(w: World, path: string, find: Lookup, stored: bool)
    requires w.text(path) == Some(TWO_LINES) && find("a") == Some(stored)
    ensures Scanned(w, path, find)
         == Some(Preview(path,
                         [Candidate("a", "b.example", 22, "", Agent, None, None, None, None,
                                    if stored then Update else New)],
                         []))
  {
    TwoLines();
    var settings := [Directive(2, "hostname", ["b.example"])];
    assert [Directive(1, "host", ["a"])] + settings
        == [Directive(1, "host", ["a"]), Directive(2, "hostname", ["b.example"])];
    assert UNDERSTOOD[0] == "hostname";
    OneStanzaIsOffered(w, path, TWO_LINES, "a", settings, find, stored);
    assert AppliedUpTo(w, settings, 0) == UNSET;
    assert AppliedUpTo(w, settings, 1) == UNSET.(hostname := Some("b.example"));
  }

  function FullStanza(host: string, user: string, key: string, hop: string, port: nat, alive: nat, timeout: nat)
    : seq<Directive>
  {
    [Directive(2, "hostname", [host]), Directive(3, "port", [Digits(port)]), Directive(4, "user", [user]),
     Directive(5, "identityfile", [key]), Directive(6, "proxyjump", [hop]),
     Directive(7, "serveraliveinterval", [Digits(alive)]), Directive(8, "connecttimeout", [Digits(timeout)])]
  }

  lemma KeywordsInOrder(keywords: seq<string>)
    requires keywords == UNDERSTOOD[..7]
    ensures forall i | 0 <= i < 7 :: keywords[i] in UNDERSTOOD
  {
    forall i | 0 <= i < 7 ensures keywords[i] in UNDERSTOOD {
      assert keywords[i] == UNDERSTOOD[i];
    }
  }

  lemma FullIsUnderstood(host: string, user: string, key: string, hop: string, port: nat, alive: nat, timeout: nat)
    ensures forall d | d in FullStanza(host, user, key, hop, port, alive, timeout) :: d.keyword in UNDERSTOOD
  {
    KeywordsInOrder(["hostname", "port", "user", "identityfile", "proxyjump", "serveraliveinterval", "connecttimeout"]);
  }

  lemma FullSettings(
      w: World, host: string, user: string, key: string, hop: string, port: nat, alive: nat, timeout: nat)
    requires port < 65536 && alive < 4294967296 && timeout < 4294967296
    ensures AppliedUpTo(w, FullStanza(host, user, key, hop, port, alive, timeout), 7)
         == Settings(Some(host), Some(port), Some(user), Some(w.expandTilde(key)), Some(hop), Some(alive),
                     Some(timeout), None)
  {
    var ds := FullStanza(host, user, key, hop, port, alive, timeout);
    NumberAsWritten(port, U16_MAX);
    NumberAsWritten(alive, U32_MAX);
    NumberAsWritten(timeout, U32_MAX);
    assert Join([hop], ",") == hop;
    var s0 := UNSET;
    var s1 := s0.(hostname := Some(host));
    var s2 := s1.(port := Some(port));
    var s3 := s2.(user := Some(user));
    var s4 := s3.(identityFile := Some(w.expandTilde(key)));
    var s5 := s4.(proxyJump := Some(hop));
    var s6 := s5.(serverAliveInterval := Some(alive));
    assert AppliedUpTo(w, ds, 0) == s0 && AppliedUpTo(w, ds, 1) == s1 && AppliedUpTo(w, ds, 2) == s2;
    assert AppliedUpTo(w, ds, 3) == s3 && AppliedUpTo(w, ds, 4) == s4 && AppliedUpTo(w, ds, 5) == s5;
    assert AppliedUpTo(w, ds, 6) == s6;
  }

  /** Every keyword once: each value stands in its own place in the candidate. */
  lemma FullStanzaIsOffered(
      w: World, path: string, text: string, find: Lookup, stored: bool, host: string, user: string, key: string,
      hop: string, port: nat, alive: nat, timeout: nat)
    requires port < 65536 && alive < 4294967296 && timeout < 4294967296 && find("a") == Some(stored)
    requires w.text(path) == Some(text)
    requires Tokenize(text) == [Directive(1, "host", ["a"])] + FullStanza(host, user, key, hop, port, alive, timeout)
    ensures Scanned(w, path, find)
         == Some(Preview(path,
                         [Candidate("a", host, port, user, KeyFile, Some(w.expandTilde(key)), Some(hop), Some(alive),
                                    Some(timeout), if stored then Update else New)],
                         []))
  {
    var ds := FullStanza(host, user, key, hop, port, alive, timeout);
    FullIsUnderstood(host, user, key, hop, port, alive, timeout);
    OneStanzaIsOffered(w, path, text, "a", ds, find, stored);
    FullSettings(w, host, user, key, hop, port, alive, timeout);
  }
}
