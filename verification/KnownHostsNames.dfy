/**
  What is written for a site and which sites a line speaks for: names in both forms, the text `learn` appends,
  and the verdict a single line leads to, down to the fingerprints the user is shown.
 */
module KnownHostsNames {
  import opened Options
  import opened Text
  import opened KnownHosts
  import opened KnownHostsLaws
  import opened ImportLaws
  import Glob

  // ---------------------------------------------------------------- names

  /** A host name without wildcards, brackets or a first character the entry format gives a meaning. */
  predicate OrdinaryName(host: string) {
    && PlainPattern(host) && !Glob.Negated(host)
    && '*' !in host && '?' !in host && '[' !in host && ']' !in host
  }

  lemma OrdinaryTarget(site: Site)
    requires OrdinaryName(site.host)
    ensures PlainPattern(Target(site)) && !Glob.Negated(Target(site))
    ensures '*' !in Target(site) && '?' !in Target(site)
    ensures '[' in Target(site) <==> site.port != 22
  {
    PlainHost(site);
    var d := Digits(site.port);
    if site.port != 22 {
      assert Target(site)[0] == '[';
    }
  }

  lemma {:induction false} BracketsApart(a: string, b: string, d: string, e: string)
    requires ']' !in a && ']' !in b && "[" + a + "]:" + d == "[" + b + "]:" + e
    ensures a == b && d == e
  {
    var s := a + ("]:" + d);
    assert "[" + s == "[" + a + "]:" + d && "[" + (b + ("]:" + e)) == "[" + b + "]:" + e;
    assert s == ("[" + s)[1..] && b + ("]:" + e) == ("[" + (b + ("]:" + e)))[1..];
    assert s[..|a|] == a && s[|a|] == ']';
    FindUnique(s, ']', |a|);
    assert (b + ("]:" + e))[..|b|] == b && s[|b|] == ']';
    FindUnique(s, ']', |b|);
    assert d == s[|a| + 2..] && e == s[|b| + 2..];
  }

  /** Different sites have different names: neither host nor port is left out of one. */
  lemma NamesApart(a: Site, b: Site)
    requires OrdinaryName(a.host) && OrdinaryName(b.host)
    ensures Target(a) == Target(b) <==> a == b
  {
    OrdinaryTarget(a);
    OrdinaryTarget(b);
    if Target(a) == Target(b) && a.port != 22 {
      BracketsApart(a.host, b.host, Digits(a.port), Digits(b.port));
      DecimalRoundTrip(a.port);
      DecimalRoundTrip(b.port);
    }
  }

  lemma PortDigits()
    ensures Digits(2222) == "2222" && Digits(2200) == "2200"
  {
    assert Digits(2) == "2" && Digits(22) == "22" && Digits(222) == "222" && Digits(220) == "220";
  }

  // ---------------------------------------------------------------- the sites a learned line speaks for

  /**
    The other sites for which a line learned for site `a` speaks: none if it is hashed or names a port, every port
    of the host if it is the bare name.
   */
  predicate SpeaksFor(a: Site, hashed: bool, b: Site) {
    a.host == b.host && (a.port == b.port || (!hashed && a.port == 22))
  }

  /** Different names have different digests under the salt. */
  ghost predicate TellsApart(lib: Library, salt: Digest) {
    forall x, y | lib.hmacSha1(salt, x) == lib.hmacSha1(salt, y) :: x == y
  }

  lemma PlainSpeaksFor(a: Site, b: Site)
    requires OrdinaryName(a.host) && OrdinaryName(b.host)
    ensures ListMatches([Target(a)], b) <==> SpeaksFor(a, false, b)
  {
    OrdinaryTarget(a);
    NamesApart(a, b);
    Glob.LiteralPattern(Target(a), Target(b));
    Glob.LiteralPattern(Target(a), b.host);
    assert Target(a) in [Target(a)];
  }

  lemma StarTakesAll(v: string)
    requires '*' !in v
    ensures Glob.Accepts("*", v)
  {
    assert Glob.AcceptsFrom("*", 1, v, |v|);
    assert Glob.AcceptsSome("*", 1, v, 0);
  }

  lemma AllBut(name: string, b: Site, list: seq<string>)
    requires list == ["*", "!" + name] || list == ["!" + name, "*"]
    requires '*' !in b.host
    ensures ListMatches(list, b) <==> !Names(name, b)
  {
    StarTakesAll(b.host);
    assert Names("*", b) && !Glob.Negated("*");
    var veto := "!" + name;
    assert veto[1..] == name && Glob.Negated(veto);
    assert list[0] in list && list[1] in list;
  }

  /** All but one name: a bare name takes out every port of the host, one with a port that port alone. */
  lemma AllButOne(a: Site, b: Site, list: seq<string>)
    requires OrdinaryName(a.host) && OrdinaryName(b.host)
    requires list == ["*", "!" + Target(a)] || list == ["!" + Target(a), "*"]
    ensures ListMatches(list, b) <==> !SpeaksFor(a, false, b)
  {
    AllBut(Target(a), b, list);
    OrdinaryTarget(a);
    PlainSpeaksFor(a, b);
    assert Target(a) in [Target(a)];
  }

  /** The entry `learn` writes, and the sites it is for. */
  lemma LearnedSpeaksFor(lib: Library, a: Site, key: PublicKey, salt: Option<Digest>, b: Site) returns (e: Entry)
    requires Lawful(lib) && KeyPart(lib, key).Some? && OrdinaryName(a.host) && OrdinaryName(b.host)
    requires salt.Some? ==> TellsApart(lib, salt.value)
    ensures
      var line := WrittenLine(LearnedPattern(lib, a, salt), KeyPart(lib, key).value);
      Entries(lib, line + "\n") == [Some(e)]
    ensures e.marker == None && e.key.data == key.data
    ensures PatternsMatch(lib, e.patterns, b) <==> SpeaksFor(a, salt.Some?, b)
  {
    OrdinaryTarget(a);
    LearnedEntry(lib, a, key, salt);
    match salt {
      case None =>
        PlainSpeaksFor(a, b);
        e := Entry(None, Patterns([Target(a)]), PublicKey(key.data, ""));
      case Some(s) =>
        NamesApart(a, b);
        e := Entry(None, HashedName(s, lib.hmacSha1(s, Target(a))), PublicKey(key.data, ""));
    }
  }

  lemma {:induction false} ConflictOfPrefix(a: seq<Standing>, b: seq<Standing>, i: nat)
    requires i <= |a|
    ensures ConflictFrom(a + b, i)
         == if ConflictFrom(a, i) < |a| then ConflictFrom(a, i) else |a| + FirstConflict(b)
    decreases |a| - i
  {
    if i == |a| {
      ConflictShifts(a, b, 0);
    } else if !a[i].Conflicts? {
      ConflictOfPrefix(a, b, i + 1);
    }
  }

  lemma ConflictOfConcat(a: seq<Standing>, b: seq<Standing>)
    ensures FirstConflict(a + b) == if FirstConflict(a) < |a| then FirstConflict(a) else |a| + FirstConflict(b)
  {
    ConflictOfPrefix(a, b, 0);
  }

  lemma SilentSnoc(lib: Library, ss: seq<Standing>)
    ensures VerdictOf(lib, ss + [Silent]) == VerdictOf(lib, ss)
  {
    DecisionOfConcat(ss, [Silent]);
    ConflictOfConcat(ss, [Silent]);
  }

  /** What one more line makes of the verdict: nothing when it is silent, trust when it vouches and nothing decided. */
  lemma OneMoreLine(lib: Library, contents: string, line: string, e: Entry, site: Site, key: KeyData)
    requires Entries(lib, line + "\n") == [Some(e)] && e.marker == None
    ensures
      var before := VerdictIn(lib, contents, site, key);
      var after := VerdictIn(lib, Close(contents) + (line + "\n"), site, key);
      && (!PatternsMatch(lib, e.patterns, site) ==> after == before)
      && (PatternsMatch(lib, e.patterns, site) && e.key.data == key ==>
            after == if before.Revoked? then before else Trusted)
  {
    var ss := Standings(lib, Entries(lib, contents), site, key);
    var s := StandingOf(lib, Some(e), site, key);
    AppendedStandings(lib, contents, line + "\n", site, key);
    assert Standings(lib, Entries(lib, line + "\n"), site, key) == [s];
    VerdictOfSnoc(lib, ss, s);
    SnocVerdict(lib, ss, s);
    if s == Silent {
      SilentSnoc(lib, ss);
    }
  }

  /**
    Learning for one site leaves the others alone. A line learned for `a` changes no verdict of a site it does not
    speak for; and to a site it speaks for it makes the key trusted, unless the site has it revoked.
   */
  lemma LearnSparesOthers(
      lib: Library, contents: string, a: Site, key: PublicKey, salt: Option<Digest>, b: Site, asked: KeyData)
    requires Lawful(lib) && KeyPart(lib, key).Some? && OrdinaryName(a.host) && OrdinaryName(b.host)
    requires salt.Some? ==> TellsApart(lib, salt.value)
    ensures
      var after := Learned(lib, contents, a, KeyPart(lib, key).value, salt);
      && (!SpeaksFor(a, salt.Some?, b) ==> VerdictIn(lib, after, b, asked) == VerdictIn(lib, contents, b, asked))
      && (SpeaksFor(a, salt.Some?, b) && !VerdictIn(lib, contents, b, key.data).Revoked? ==>
            VerdictIn(lib, after, b, key.data) == Trusted)
  {
    var e := LearnedSpeaksFor(lib, a, key, salt, b);
    var line := WrittenLine(LearnedPattern(lib, a, salt), KeyPart(lib, key).value);
    assert Learned(lib, contents, a, KeyPart(lib, key).value, salt) == Close(contents) + (line + "\n");
    OneMoreLine(lib, contents, line, e, b, asked);
    OneMoreLine(lib, contents, line, e, b, key.data);
  }

  /** The same line in the file of another port: a key learned at port 22 by its bare name is trusted at any port. */
  lemma BareNameIsForEveryPort(lib: Library, host: string, key: PublicKey, port: Port)
    requires Lawful(lib) && KeyPart(lib, key).Some? && OrdinaryName(host)
    ensures VerdictIn(lib, Learned(lib, "", Site(host, 22), KeyPart(lib, key).value, None), Site(host, port), key.data)
         == Trusted
  {
    assert Entries(lib, "") == [];
    LearnSparesOthers(lib, "", Site(host, 22), key, None, Site(host, port), key.data);
  }

  // ---------------------------------------------------------------- a line with a port

  /** Removal from a file of one entry. */
  lemma OneEntryRemoved(lib: Library, line: string, e: Entry, site: Site)
    requires OneLine(line) && lib.parse(line) == Some(e)
    ensures Removed(lib, line, site) == if PatternsMatch(lib, e.patterns, site) then "" else line
  {
    OneLineFile(lib, line);
    var lines := [line];
    assert lines[1..] == [] && ParseEntry(lib, line) == Some(e);
    assert HitCount(lib, lines, site) == if PatternsMatch(lib, e.patterns, site) then 1 else 0;
    if PatternsMatch(lib, e.patterns, site) {
      assert KeptLines(lib, lines, site) == KeptLines(lib, lines[1..], site) == [];
    }
  }

  /** A file of one entry: every way in which it can speak about a key, and what the verdict is then. */
  lemma OneEntryVerdict(lib: Library, line: string, e: Entry, site: Site, key: KeyData)
    requires OneLine(line) && lib.parse(line) == Some(e)
    ensures
      var v := VerdictIn(lib, line, site, key);
      var for_ := PatternsMatch(lib, e.patterns, site);
      && (v == Trusted <==> for_ && e.marker == None && e.key.data == key)
      && (v.Revoked? <==> for_ && e.marker == Some(RevokedMarker))
      && (v.Changed? <==> for_ && e.marker == None && e.key.data != key && e.key.data.algorithm == key.algorithm)
      && (v.Changed? ==> v == Changed(1, e.key.data.algorithm, lib.fingerprint(e.key.data)))
      && (v.Revoked? ==> v == Revoked(1))
  {
    OneLineFile(lib, line);
    var ss := Standings(lib, Entries(lib, line), site, key);
    assert ss == [StandingOf(lib, Some(e), site, key)];
    DecisionIsFirst(ss, 0);
    ConflictIsFirst(ss, 0);
  }

  lemma BracketedVerdict(lib: Library, line: string, key: PublicKey, port: Port)
    requires OneLine(line) && lib.parse(line) == Some(Entry(None, Patterns(["[h]:2222"]), key))
    ensures VerdictIn(lib, line, Site("h", port), key.data) == if port == 2222 then Trusted else Unknown
    ensures Removed(lib, line, Site("h", port)) == if port == 2222 then "" else line
  {
    var e, site := Entry(None, Patterns(["[h]:2222"]), key), Site("h", port);
    PortDigits();
    assert Target(Site("h", 2222)) == "[h]:2222";
    PlainSpeaksFor(Site("h", 2222), site);
    OneEntryVerdict(lib, line, e, site, key.data);
    OneEntryRemoved(lib, line, e, site);
  }

  /**
    A file whose one entry lists `[h]:2222`: the key is trusted there, and unknown at another port and at the default
    one; removing another port leaves the file alone, removing this one empties it.
   */
  lemma PortIsPartOfTheName(lib: Library, line: string, key: PublicKey)
    requires OneLine(line) && lib.parse(line) == Some(Entry(None, Patterns(["[h]:2222"]), key))
    ensures VerdictIn(lib, line, Site("h", 2222), key.data) == Trusted
    ensures VerdictIn(lib, line, Site("h", 2200), key.data) == Unknown
    ensures VerdictIn(lib, line, Site("h", 22), key.data) == Unknown
    ensures Removed(lib, line, Site("h", 2200)) == line && Removed(lib, line, Site("h", 2222)) == ""
  {
    BracketedVerdict(lib, line, key, 2222);
    BracketedVerdict(lib, line, key, 2200);
    BracketedVerdict(lib, line, key, 22);
  }

  /** What `learn` writes into an empty file for `h` at port 2222, plain and hashed. */
  lemma LearnedText(lib: Library, keyPart: string, salt: Digest)
    ensures Learned(lib, "", Site("h", 22), keyPart, None) == "h " + keyPart + "\n"
    ensures Learned(lib, "", Site("h", 2222), keyPart, None) == "[h]:2222 " + keyPart + "\n"
    ensures Learned(lib, "", Site("h", 2222), keyPart, Some(salt))
         == "|1|" + lib.base64(salt) + "|" + lib.base64(lib.hmacSha1(salt, "[h]:2222")) + " " + keyPart + "\n"
  {
    PortDigits();
    assert Target(Site("h", 2222)) == "[h]:2222" && Target(Site("h", 22)) == "h";
    assert "" + ("[h]:2222" + " " + keyPart) == "[h]:2222 " + keyPart;
    assert "" + ("h" + " " + keyPart) == "h " + keyPart;
    var p := "|1|" + lib.base64(salt) + "|" + lib.base64(lib.hmacSha1(salt, "[h]:2222"));
    assert HashedPattern(lib, salt, lib.hmacSha1(salt, "[h]:2222")) == p;
    assert "" + (p + " " + keyPart) == p + " " + keyPart;
  }

  // ---------------------------------------------------------------- the two words of a key

  lemma {:induction false} TrimStartOfBlank(s: string)
    requires s == "" || !IsWhitespace(s[0])
    ensures TrimStart(" " + s) == s && TrimStart(s) == s
  {
    assert (" " + s)[1..] == s;
  }

  lemma {:induction false} WordUpToBlank(w: string, rest: string)
    requires NoWhitespace(w) && (rest == "" || IsWhitespace(rest[0]))
    ensures Word(w + rest) == w
  {
    if w != "" {
      assert (w + rest)[1..] == w[1..] + rest;
      WordUpToBlank(w[1..], rest);
    } else {
      assert w + rest == rest;
    }
  }

  lemma FieldsOfWord(w: string, rest: string)
    requires w != "" && NoWhitespace(w) && (rest == "" || IsWhitespace(rest[0]))
    ensures Fields(w + rest) == [w] + Fields(rest)
  {
    var s := w + rest;
    WordUpToBlank(w, rest);
    assert s[0] == w[0] && TrimStart(s) == s;
    assert s[|w|..] == rest;
  }

  lemma TwoFields(first: string, second: string, rest: string)
    requires first != "" && NoWhitespace(first) && second != "" && NoWhitespace(second)
    requires rest == "" || IsWhitespace(rest[0])
    ensures Fields(first + (" " + (second + rest))) == [first] + ([second] + Fields(rest))
  {
    var tail := second + rest;
    FieldsOfWord(first, " " + tail);
    TrimStartOfBlank(tail);
    FieldsOfWord(second, rest);
    assert Fields(" " + tail) == Fields(tail);
  }

  /** The first two words of the printed key, in order; what follows them, a comment, is left out. */
  lemma KeyPartIsTwoWords(lib: Library, key: PublicKey, algorithm: string, data: string, rest: string)
    requires algorithm != "" && NoWhitespace(algorithm) && data != "" && NoWhitespace(data)
    requires rest == "" || IsWhitespace(rest[0])
    requires lib.openssh(key) == Some(algorithm + " " + data + rest)
    ensures KeyPart(lib, key) == Some(algorithm + " " + data)
  {
    assert algorithm + " " + data + rest == algorithm + (" " + (data + rest));
    TwoFields(algorithm, data, rest);
  }

  // ---------------------------------------------------------------- the verdict of one entry

  /**
    What a changed key is reported with: the line of an entry for the site, unmarked, with another key of the same
    algorithm, and that key's algorithm and fingerprint. No earlier line has such a key, and no line decides.
   */
  lemma ChangedNamesTheEntry(lib: Library, contents: string, site: Site, key: KeyData) returns (e: Entry)
    requires VerdictIn(lib, contents, site, key).Changed?
    ensures
      var v := VerdictIn(lib, contents, site, key);
      && 1 <= v.line <= |Lines(contents)| && ParseEntry(lib, Lines(contents)[v.line - 1]) == Some(e)
      && PatternsMatch(lib, e.patterns, site) && e.marker == None
      && e.key.data != key && e.key.data.algorithm == key.algorithm == v.algorithm
      && v.fingerprint == lib.fingerprint(e.key.data)
  {
    var ss := Standings(lib, Entries(lib, contents), site, key);
    var c := FirstConflict(ss);
    ConflictIsFirst(ss, 0);
    DecisionIsFirst(ss, 0);
    StandingOfLine(lib, contents, site, key, c);
    e := ParseEntry(lib, Lines(contents)[c]).value;
  }

  /** What a revocation is reported with: the line of an entry for the site that revokes, whatever its key. */
  lemma RevokedNamesTheEntry(lib: Library, contents: string, site: Site, key: KeyData) returns (e: Entry)
    requires VerdictIn(lib, contents, site, key).Revoked?
    ensures
      var v := VerdictIn(lib, contents, site, key);
      && 1 <= v.line <= |Lines(contents)| && ParseEntry(lib, Lines(contents)[v.line - 1]) == Some(e)
      && PatternsMatch(lib, e.patterns, site) && e.marker == Some(RevokedMarker)
  {
    var ss := Standings(lib, Entries(lib, contents), site, key);
    var d := FirstDecision(ss);
    DecisionIsFirst(ss, 0);
    StandingOfLine(lib, contents, site, key, d);
    e := ParseEntry(lib, Lines(contents)[d]).value;
  }

  // ---------------------------------------------------------------- identities

  /** With the same key, identities tell patterns apart; with the same patterns, algorithm and fingerprint together. */
  lemma IdentityTells(lib: Library, d: Entry, e: Entry)
    ensures d.key.data == e.key.data ==>
              (Identity(lib, d) == Identity(lib, e) <==> lib.showPatterns(d.patterns) == lib.showPatterns(e.patterns))
    ensures d.patterns == e.patterns && d.key.data.algorithm == e.key.data.algorithm ==>
              (Identity(lib, d) == Identity(lib, e) <==>
                 lib.fingerprint(d.key.data) == lib.fingerprint(e.key.data))
  {
    if d.key.data == e.key.data && Identity(lib, d) == Identity(lib, e) {
      var tail := "|" + d.key.data.algorithm + "|" + lib.fingerprint(d.key.data);
      var p, q := lib.showPatterns(d.patterns), lib.showPatterns(e.patterns);
      assert Identity(lib, d) == p + tail && Identity(lib, e) == q + tail;
      assert |p| == |q| && p == (p + tail)[..|p|] && q == (q + tail)[..|q|];
    }
    if
      && d.patterns == e.patterns && d.key.data.algorithm == e.key.data.algorithm
      && Identity(lib, d) == Identity(lib, e) {
      var head := lib.showPatterns(d.patterns) + "|" + d.key.data.algorithm + "|";
      var p, q := lib.fingerprint(d.key.data), lib.fingerprint(e.key.data);
      assert Identity(lib, d) == head + p && Identity(lib, e) == head + q;
      assert p == (head + p)[|head|..] && q == (head + q)[|head|..];
    }
  }

  /** Two hosts that share a key: two lines with different patterns both arrive on an empty file. */
  lemma SharedKeyArrivesTwice(lib: Library, first: string, second: string, d: Entry, e: Entry)
    requires OneLine(first) && OneLine(second) && lib.parse(first) == Some(d) && lib.parse(second) == Some(e)
    requires d.marker == None && e.marker == None && d.key.data == e.key.data
    requires lib.showPatterns(d.patterns) != lib.showPatterns(e.patterns)
    ensures Entries(lib, Imported(lib, "", first + "\n" + second)) == [Some(d), Some(e)]
    ensures ImportInto(lib, "", first + "\n" + second).report == ImportReport(2, 2, 0, 0, 0)
  {
    var source := first + "\n" + second;
    LinesCons(first, second);
    OneLineFile(lib, second);
    TwoLineFile(lib, first, second);
    TrimStripCr(first);
    var lines := [StripCr(first), second];
    assert Lines(source) == lines;
    IdentityTells(lib, d, e);
    assert Entries(lib, "") == [];
    var start := Begin([]);
    assert ImportUpTo(lib, start, lines, 0) == start;
    var one := Import([Identity(lib, d)], [first], ImportReport(1, 1, 0, 0, 0));
    assert ImportLine(lib, start, lines[0]) == one;
    assert ImportUpTo(lib, start, lines, 1) == one;
    assert ImportUpTo(lib, start, lines, 2) == ImportLine(lib, one, second);
    assert ImportInto(lib, "", source).appended == [first, second];
    ImportedEntries(lib, "", [first, second]);
    assert TrimAll([first, second]) == [first, second];
    assert Slots(lib, [first, second]) == [Some(d), Some(e)];
  }
}
