/**
  What the trust file promises: a verdict is decided by the first decisive line, appending never takes
  trust or revocation away, `learn` is read back, `remove` forgets a site and nothing else, and an
  import adds each new identity once.
 */
module KnownHostsLaws {
  import opened Options
  import opened Text
  import opened KnownHosts
  import Glob

  // ---------------------------------------------------------------- verdicts

  /** The line numbers of a verdict forgotten. */
  function Unnumbered(v: Verdict): Verdict {
    match v
    case Changed(_, a, f) => Changed(0, a, f)
    case Revoked(_) => Revoked(0)
    case _ => v
  }

  /** A verdict that speaks for the key or against it, whatever comes later. */
  predicate Settled(v: Verdict) {
    v.Trusted? || v.Revoked?
  }

  /** Trusted: the first decisive line vouches for the key. */
  lemma TrustedMeans(lib: Library, ss: seq<Standing>)
    ensures VerdictOf(lib, ss) == Trusted <==>
              exists i | 0 <= i < |ss| :: ss[i].Vouches? && forall j | 0 <= j < i :: !ss[j].Decides()
  {
    DecisionIsFirst(ss, 0);
    var d := FirstDecision(ss);
    assert forall i | 0 <= i < |ss| :: ss[i].Decides() ==> d <= i;
  }

  /** Revoked at line n: the first decisive line is line n, and it is a revocation. */
  lemma RevokedMeans(lib: Library, ss: seq<Standing>, n: nat)
    ensures VerdictOf(lib, ss) == Revoked(n) <==>
              1 <= n <= |ss| && ss[n - 1].Revokes? && forall j | 0 <= j < n - 1 :: !ss[j].Decides()
  {
    DecisionIsFirst(ss, 0);
    var d := FirstDecision(ss);
    assert forall i | 0 <= i < |ss| :: ss[i].Decides() ==> d <= i;
  }

  /** Changed at line n: no line is decisive, and line n is the first with another key of the algorithm. */
  lemma ChangedMeans(lib: Library, ss: seq<Standing>, n: nat)
    ensures (VerdictOf(lib, ss).Changed? && VerdictOf(lib, ss).line == n) <==>
              && (forall i | 0 <= i < |ss| :: !ss[i].Decides())
              && 1 <= n <= |ss| && ss[n - 1].Conflicts?
              && forall j | 0 <= j < n - 1 :: !ss[j].Conflicts?
  {
    DecisionIsFirst(ss, 0);
    ConflictIsFirst(ss, 0);
    var c := FirstConflict(ss);
    assert forall i | 0 <= i < |ss| :: ss[i].Conflicts? ==> c <= i;
  }

  lemma {:induction false} DecisionShifts(a: seq<Standing>, b: seq<Standing>, i: nat)
    requires i <= |b|
    ensures DecisionFrom(a + b, |a| + i) == |a| + DecisionFrom(b, i)
    decreases |b| - i
  {
    if i < |b| && !b[i].Decides() {
      DecisionShifts(a, b, i + 1);
    }
  }

  lemma {:induction false} ConflictShifts(a: seq<Standing>, b: seq<Standing>, i: nat)
    requires i <= |b|
    ensures ConflictFrom(a + b, |a| + i) == |a| + ConflictFrom(b, i)
    decreases |b| - i
  {
    if i < |b| && !b[i].Conflicts? {
      ConflictShifts(a, b, i + 1);
    }
  }

  lemma {:induction false} DecisionOfPrefix(a: seq<Standing>, b: seq<Standing>, i: nat)
    requires i <= |a|
    ensures DecisionFrom(a + b, i)
         == if DecisionFrom(a, i) < |a| then DecisionFrom(a, i) else |a| + FirstDecision(b)
    decreases |a| - i
  {
    if i == |a| {
      DecisionShifts(a, b, 0);
    } else if !a[i].Decides() {
      DecisionOfPrefix(a, b, i + 1);
    }
  }

  lemma DecisionOfConcat(a: seq<Standing>, b: seq<Standing>)
    ensures FirstDecision(a + b)
         == if FirstDecision(a) < |a| then FirstDecision(a) else |a| + FirstDecision(b)
  {
    DecisionOfPrefix(a, b, 0);
  }

  lemma EntriesConcat(lib: Library, s: string, t: string)
    requires Closed(s)
    ensures Entries(lib, s + t) == Entries(lib, s) + Entries(lib, t)
  {
    TrimmedLinesConcat(s, t);
  }

  lemma ClosingKeepsEntries(lib: Library, s: string)
    ensures Entries(lib, Close(s)) == Entries(lib, s) && Closed(Close(s))
  {
    if !Closed(s) {
      ClosingKeepsTrimmedLines(s);
    }
  }

  lemma AppendedEntries(lib: Library, s: string, t: string)
    ensures Entries(lib, Close(s) + t) == Entries(lib, s) + Entries(lib, t)
  {
    ClosingKeepsEntries(lib, s);
    EntriesConcat(lib, Close(s), t);
  }

  lemma AppendedStandings(lib: Library, s: string, t: string, site: Site, key: KeyData)
    ensures Standings(lib, Entries(lib, Close(s) + t), site, key)
         == Standings(lib, Entries(lib, s), site, key) + Standings(lib, Entries(lib, t), site, key)
  {
    AppendedEntries(lib, s, t);
  }

  /** Appending lines never changes a Trusted or Revoked verdict, line number included. */
  lemma AppendKeepsSettled(lib: Library, s: string, t: string, site: Site, key: KeyData)
    requires Settled(VerdictIn(lib, s, site, key))
    ensures VerdictIn(lib, Close(s) + t, site, key) == VerdictIn(lib, s, site, key)
  {
    AppendedStandings(lib, s, t, site, key);
    DecisionOfConcat(Standings(lib, Entries(lib, s), site, key), Standings(lib, Entries(lib, t), site, key));
  }

  // ---------------------------------------------------------------- learn

  lemma {:induction false} NoWhitespaceTrim(s: string)
    requires s != "" && !IsWhitespace(s[0]) && !IsWhitespace(s[|s| - 1])
    ensures Trim(s) == s
  {
  }

  lemma {:induction false} NoWhitespaceNoNewline(s: string)
    requires NoWhitespace(s)
    ensures '\n' !in s
  {
  }

  /** A host of plain characters; off port 22 the brackets take care of how it begins. */
  predicate OrdinaryHost(site: Site) {
    && NoWhitespace(site.host) && ',' !in site.host
    && (site.port == 22 ==> PlainPattern(site.host) && !Glob.Negated(site.host))
  }

  lemma PlainHost(site: Site)
    requires NoWhitespace(site.host) && ',' !in site.host
    requires site.port == 22 ==> PlainPattern(site.host)
    ensures PlainPattern(Target(site))
    ensures site.port != 22 ==> !Glob.Negated(Target(site))
  {
    DigitsArePlain(site.port);
  }

  lemma WordsMakeALine(a: string, b: string, c: string)
    requires NoWhitespace(a) && NoWhitespace(b) && NoWhitespace(c) && a != "" && c != ""
    ensures var line := WrittenLine(a, b + " " + c); '\n' !in line && Trim(line) == line
  {
    var line := WrittenLine(a, b + " " + c);
    assert line[0] == a[0] && line[|line| - 1] == c[|c| - 1];
    NoWhitespaceTrim(line);
    NoWhitespaceNoNewline(a);
    NoWhitespaceNoNewline(b);
    NoWhitespaceNoNewline(c);
  }

  /** The written line is one line, and trimming leaves it alone. */
  lemma LearnedLine(lib: Library, site: Site, key: PublicKey, salt: Option<Digest>)
    requires Lawful(lib) && KeyPart(lib, key).Some?
    requires salt.None? ==> PlainPattern(Target(site))
    ensures
      var line := WrittenLine(LearnedPattern(lib, site, salt), KeyPart(lib, key).value);
      '\n' !in line && Trim(line) == line
  {
    var pattern := LearnedPattern(lib, site, salt);
    var fields := Fields(lib.openssh(key).value);
    if salt.Some? {
      assert NoWhitespace(lib.base64(salt.value));
      assert NoWhitespace(lib.base64(lib.hmacSha1(salt.value, Target(site))));
    }
    assert NoWhitespace(pattern) && pattern != "";
    assert KeyPart(lib, key).value == fields[0] + " " + fields[1];
    WordsMakeALine(pattern, fields[0], fields[1]);
  }

  /** The single line `learn` adds parses back to one entry for exactly that key. */
  lemma LearnedEntry(lib: Library, site: Site, key: PublicKey, salt: Option<Digest>)
    requires Lawful(lib) && KeyPart(lib, key).Some?
    requires salt.None? ==> PlainPattern(Target(site))
    ensures
      var line := WrittenLine(LearnedPattern(lib, site, salt), KeyPart(lib, key).value);
      && Entries(lib, line + "\n") ==
           [Some(Entry(None,
                       match salt { case None => Patterns([Target(site)])
                                    case Some(s) => HashedName(s, lib.hmacSha1(s, Target(site))) },
                       PublicKey(key.data, "")))]
  {
    var line := WrittenLine(LearnedPattern(lib, site, salt), KeyPart(lib, key).value);
    LearnedLine(lib, site, key, salt);
    LinesOne(line);
    TrimStripCr(line);
    assert TrimmedLines(line + "\n") == [line];
  }

  lemma SiteMatchesItsOwnTarget(site: Site)
    ensures ListMatches([Target(site)], site) <==> !Glob.Negated(Target(site))
  {
    var t := Target(site);
    Glob.SelfMatch(t, 0);
    assert t in [t];
  }

  lemma VerdictOfSnoc(lib: Library, ss: seq<Standing>, s: Standing)
    ensures Settled(VerdictOf(lib, ss)) ==> VerdictOf(lib, ss + [s]) == VerdictOf(lib, ss)
    ensures !Settled(VerdictOf(lib, ss)) ==> (VerdictOf(lib, ss + [s]) == Trusted <==> s.Vouches?)
  {
    DecisionOfConcat(ss, [s]);
  }

  lemma LearnedStanding(lib: Library, site: Site, key: PublicKey, salt: Option<Digest>)
    requires Lawful(lib) && KeyPart(lib, key).Some?
    requires salt.None? ==> PlainPattern(Target(site))
    ensures
      var line := WrittenLine(LearnedPattern(lib, site, salt), KeyPart(lib, key).value);
      Standings(lib, Entries(lib, line + "\n"), site, key.data)
        == [if salt.Some? || !Glob.Negated(Target(site)) then Vouches else Silent]
  {
    LearnedEntry(lib, site, key, salt);
    SiteMatchesItsOwnTarget(site);
  }

  /**
    `learn` then `verify`. On every file, closed or not, hashed or not: a settled verdict stays as it
    was, and any other becomes Trusted. The one exception is a plain entry whose name begins with `!`,
    which reads back as a negation.
   */
  lemma LearnIsReadBack(lib: Library, contents: string, site: Site, key: PublicKey, salt: Option<Digest>)
    requires Lawful(lib) && KeyPart(lib, key).Some?
    requires salt.None? ==> PlainPattern(Target(site))
    ensures
      var before := VerdictIn(lib, contents, site, key.data);
      var after := VerdictIn(lib, Learned(lib, contents, site, KeyPart(lib, key).value, salt), site, key.data);
      && (Settled(before) ==> after == before)
      && (!Settled(before) ==> (after == Trusted <==> salt.Some? || !Glob.Negated(Target(site))))
  {
    var line := WrittenLine(LearnedPattern(lib, site, salt), KeyPart(lib, key).value) + "\n";
    assert Learned(lib, contents, site, KeyPart(lib, key).value, salt) == Close(contents) + line;
    AppendedStandings(lib, contents, line, site, key.data);
    LearnedStanding(lib, site, key, salt);
    VerdictOfSnoc(lib, Standings(lib, Entries(lib, contents), site, key.data),
                  if salt.Some? || !Glob.Negated(Target(site)) then Vouches else Silent);
  }

  // ---------------------------------------------------------------- remove

  /** The lines with something to say. */
  function Voices(ss: seq<Standing>): seq<Standing> {
    if ss == [] then [] else (if ss[0].Silent? then [] else [ss[0]]) + Voices(ss[1..])
  }

  /** What one more line in front makes of a verdict. */
  function Preceded(lib: Library, s: Standing, v: Verdict): Verdict {
    match s
    case Silent => v
    case Revokes => Revoked(0)
    case Vouches => Trusted
    case Conflicts(data) => if Settled(v) then v else Changed(0, data.algorithm, lib.fingerprint(data))
  }

  lemma VerdictOfCons(lib: Library, s: Standing, rest: seq<Standing>)
    ensures Unnumbered(VerdictOf(lib, [s] + rest)) == Preceded(lib, s, Unnumbered(VerdictOf(lib, rest)))
  {
    DecisionShifts([s], rest, 0);
    ConflictShifts([s], rest, 0);
  }

  /** Silent lines bear on nothing but line numbers. */
  lemma {:induction false} SilenceCountsForNothing(lib: Library, ss: seq<Standing>)
    ensures Unnumbered(VerdictOf(lib, ss)) == Unnumbered(VerdictOf(lib, Voices(ss)))
  {
    if ss != [] {
      SilenceCountsForNothing(lib, ss[1..]);
      assert ss == [ss[0]] + ss[1..];
      VerdictOfCons(lib, ss[0], ss[1..]);
      VerdictOfCons(lib, ss[0], Voices(ss[1..]));
      assert Voices(ss) == if ss[0].Silent? then Voices(ss[1..]) else [ss[0]] + Voices(ss[1..]);
    }
  }

  /** No kept line holds an entry for the removed site. */
  lemma {:induction false} KeptLinesMissTheSite(lib: Library, lines: seq<string>, site: Site)
    ensures HitCount(lib, KeptLines(lib, lines, site), site) == 0
  {
    if lines != [] {
      KeptLinesMissTheSite(lib, lines[1..], site);
      if !Hits(lib, ParseEntry(lib, lines[0]), site) {
        assert KeptLines(lib, lines, site)[1..] == KeptLines(lib, lines[1..], site);
      }
    }
  }

  lemma {:induction false} KeptLinesAreLines(lib: Library, lines: seq<string>, site: Site)
    ensures forall i | 0 <= i < |KeptLines(lib, lines, site)| :: KeptLines(lib, lines, site)[i] in lines
    ensures |KeptLines(lib, lines, site)| + HitCount(lib, lines, site) == |lines|
  {
    if lines != [] {
      KeptLinesAreLines(lib, lines[1..], site);
    }
  }

  lemma KeptLinesCons(lib: Library, line: string, rest: seq<string>, site: Site, hits: bool)
    requires hits == Hits(lib, ParseEntry(lib, line), site)
    ensures KeptLines(lib, [line] + rest, site) == (if hits then [] else [line]) + KeptLines(lib, rest, site)
  {
    assert ([line] + rest)[1..] == rest;
  }

  lemma {:induction false} KeptLinesConcat(lib: Library, a: seq<string>, b: seq<string>, site: Site)
    ensures KeptLines(lib, a + b, site) == KeptLines(lib, a, site) + KeptLines(lib, b, site)
  {
    if a == [] {
      assert a + b == b;
    } else {
      var line, rest := a[0], a[1..];
      var hits := Hits(lib, ParseEntry(lib, line), site);
      KeptLinesConcat(lib, rest, b, site);
      KeptLinesCons(lib, line, rest, site, hits);
      KeptLinesCons(lib, line, rest + b, site, hits);
      Assoc([line], rest, b);
      Assoc(if hits then [] else [line], KeptLines(lib, rest, site), KeptLines(lib, b, site));
      assert a == [line] + rest;
    }
  }

  lemma {:induction false} HitCountConcat(lib: Library, a: seq<string>, b: seq<string>, site: Site)
    ensures HitCount(lib, a + b, site) == HitCount(lib, a, site) + HitCount(lib, b, site)
  {
    if a == [] {
      assert a + b == b;
    } else {
      HitCountConcat(lib, a[1..], b, site);
      assert (a + b)[1..] == a[1..] + b && (a + b)[0] == a[0];
    }
  }

  lemma {:induction false} NoHitsKeepAll(lib: Library, lines: seq<string>, site: Site)
    requires HitCount(lib, lines, site) == 0
    ensures KeptLines(lib, lines, site) == lines
  {
    if lines != [] {
      NoHitsKeepAll(lib, lines[1..], site);
    }
  }

  /** A line as `lines()` gives it: no newline in it, no carriage return at its end. */
  predicate AsRead(line: string) {
    '\n' !in line && StripCr(line) == line
  }

  lemma {:induction false} LinesOfUnlines(lines: seq<string>)
    requires forall line | line in lines :: AsRead(line)
    ensures Lines(Unlines(lines)) == lines
  {
    if lines != [] {
      LinesOfUnlines(lines[1..]);
      assert AsRead(lines[0]);
      assert Unlines(lines) == lines[0] + "\n" + Unlines(lines[1..]);
      LinesCons(lines[0], Unlines(lines[1..]));
    }
  }

  lemma RemovedText(lib: Library, lines: seq<string>, site: Site)
    requires forall line | line in lines :: AsRead(line)
    ensures Removed(lib, Unlines(lines), site) == Unlines(KeptLines(lib, lines, site))
  {
    LinesOfUnlines(lines);
    if HitCount(lib, lines, site) == 0 {
      NoHitsKeepAll(lib, lines, site);
    }
  }

  /**
    A line leaves the file, and is counted, exactly when it holds an entry for the site; comments, blank lines, lines
    that do not parse and entries of other sites stay as they are, each in its place.
   */
  lemma RemoveTakesTheLine(
      lib: Library, before: seq<string>, line: string, after: seq<string>, site: Site, e: Option<Entry>)
    requires forall l | l in before + [line] + after :: AsRead(l)
    requires ParseEntry(lib, line) == e
    ensures
      var goes := e.Some? && PatternsMatch(lib, e.value.patterns, site);
      && Removed(lib, Unlines(before + [line] + after), site)
           == Removed(lib, Unlines(before), site) + (if goes then "" else line + "\n")
              + Removed(lib, Unlines(after), site)
      && HitCount(lib, before + [line] + after, site)
           == HitCount(lib, before, site) + (if goes then 1 else 0) + HitCount(lib, after, site)
  {
    RemovedText(lib, before + [line] + after, site);
    RemovedText(lib, before, site);
    RemovedText(lib, after, site);
    KeptLinesConcat(lib, before + [line], after, site);
    KeptLinesConcat(lib, before, [line], site);
    HitCountConcat(lib, before + [line], after, site);
    HitCountConcat(lib, before, [line], site);
    var kept := KeptLines(lib, [line], site);
    assert [line][1..] == [];
    UnlinesConcat(KeptLines(lib, before, site) + kept, KeptLines(lib, after, site));
    UnlinesConcat(KeptLines(lib, before, site), kept);
    assert Unlines([line]) == line + "\n";
  }

  /** Slots of a list of lines. */
  function Slots(lib: Library, lines: seq<string>): seq<Option<Entry>> {
    EntriesOn(lib, TrimAll(lines))
  }

  lemma SlotsCons(lib: Library, line: string, rest: seq<string>)
    ensures Slots(lib, [line] + rest) == [ParseEntry(lib, line)] + Slots(lib, rest)
  {
  }

  lemma StandingsCons(lib: Library, slot: Option<Entry>, rest: seq<Option<Entry>>, site: Site, key: KeyData)
    ensures Standings(lib, [slot] + rest, site, key)
         == [StandingOf(lib, slot, site, key)] + Standings(lib, rest, site, key)
  {
  }

  lemma VoicesCons(lib: Library, line: string, rest: seq<string>, site: Site, key: KeyData)
    ensures
      var first := StandingOf(lib, ParseEntry(lib, line), site, key);
      Voices(Standings(lib, Slots(lib, [line] + rest), site, key))
        == (if first.Silent? then [] else [first]) + Voices(Standings(lib, Slots(lib, rest), site, key))
  {
    SlotsCons(lib, line, rest);
    StandingsCons(lib, ParseEntry(lib, line), Slots(lib, rest), site, key);
    var first, others := StandingOf(lib, ParseEntry(lib, line), site, key), Standings(lib, Slots(lib, rest), site, key);
    assert ([first] + others)[1..] == others;
  }

  lemma {:induction false} NoHitsNoVoices(lib: Library, lines: seq<string>, site: Site, key: KeyData)
    requires HitCount(lib, lines, site) == 0
    ensures Voices(Standings(lib, Slots(lib, lines), site, key)) == []
  {
    if lines != [] {
      NoHitsNoVoices(lib, lines[1..], site, key);
      assert Standings(lib, Slots(lib, lines), site, key)[1..] == Standings(lib, Slots(lib, lines[1..]), site, key);
    }
  }

  lemma SlotsOfContents(lib: Library, contents: string)
    ensures Entries(lib, contents) == Slots(lib, Lines(contents))
  {
  }

  lemma KeptEntries(lib: Library, contents: string, site: Site)
    ensures
      var kept := KeptLines(lib, Lines(contents), site);
      Entries(lib, Unlines(kept)) == Slots(lib, kept)
  {
    var kept := KeptLines(lib, Lines(contents), site);
    KeptLinesAreLines(lib, Lines(contents), site);
    LinesHoldNoNewline(contents);
    TrimmedLinesOfUnlines(kept);
  }

  /** After a removal the site is unknown under every key. */
  lemma RemoveForgets(lib: Library, contents: string, site: Site, key: KeyData)
    ensures VerdictIn(lib, Removed(lib, contents, site), site, key) == Unknown
  {
    var after := Removed(lib, contents, site);
    var lines := Lines(contents);
    if HitCount(lib, lines, site) == 0 {
      NoHitsNoVoices(lib, lines, site, key);
      SlotsOfContents(lib, contents);
    } else {
      KeptLinesMissTheSite(lib, lines, site);
      NoHitsNoVoices(lib, KeptLines(lib, lines, site), site, key);
      KeptEntries(lib, contents, site);
    }
    SilenceCountsForNothing(lib, Standings(lib, Entries(lib, after), site, key));
  }

  /** No line of the file holds an entry for both sites. */
  predicate Disjoint(lib: Library, contents: string, a: Site, b: Site) {
    forall i | 0 <= i < |Lines(contents)| ::
      !(Hits(lib, ParseEntry(lib, Lines(contents)[i]), a) && Hits(lib, ParseEntry(lib, Lines(contents)[i]), b))
  }

  lemma {:induction false} OtherVoicesSurvive(lib: Library, lines: seq<string>, gone: Site, site: Site, key: KeyData)
    requires forall i | 0 <= i < |lines| ::
               !(Hits(lib, ParseEntry(lib, lines[i]), gone) && Hits(lib, ParseEntry(lib, lines[i]), site))
    ensures Voices(Standings(lib, Slots(lib, KeptLines(lib, lines, gone)), site, key))
         == Voices(Standings(lib, Slots(lib, lines), site, key))
  {
    if lines != [] {
      OtherVoicesSurvive(lib, lines[1..], gone, site, key);
      assert lines == [lines[0]] + lines[1..];
      VoicesCons(lib, lines[0], lines[1..], site, key);
      if !Hits(lib, ParseEntry(lib, lines[0]), gone) {
        VoicesCons(lib, lines[0], KeptLines(lib, lines[1..], gone), site, key);
      }
    }
  }

  /** A site that shares no line with the removed one keeps its verdict, up to line numbers. */
  lemma RemoveSparesOthers(lib: Library, contents: string, gone: Site, site: Site, key: KeyData)
    requires Disjoint(lib, contents, gone, site)
    ensures Unnumbered(VerdictIn(lib, Removed(lib, contents, gone), site, key))
         == Unnumbered(VerdictIn(lib, contents, site, key))
  {
    var after := Removed(lib, contents, gone);
    OtherVoicesSurvive(lib, Lines(contents), gone, site, key);
    KeptEntries(lib, contents, gone);
    SlotsOfContents(lib, contents);
    SilenceCountsForNothing(lib, Standings(lib, Entries(lib, after), site, key));
    SilenceCountsForNothing(lib, Standings(lib, Entries(lib, contents), site, key));
  }

  // ---------------------------------------------------------------- import

  /** How many of the first `n` lines are usable entries. */
  function GoodCount(lib: Library, lines: seq<string>, n: nat): nat
    requires n <= |lines|
  {
    if n == 0 then 0
    else GoodCount(lib, lines, n - 1) + (if KindOf(lib, lines[n - 1]).Good? then 1 else 0)
  }

  predicate Balanced(r: ImportReport) {
    r.total == r.imported + r.duplicates + r.certAuthorities + r.malformed
  }

  /** A line an import may append: trimmed, one line long, an entry, no certificate authority. */
  predicate Importable(lib: Library, line: string) {
    && Trim(line) == line && '\n' !in line
    && EntryOn(lib, line).Some? && EntryOn(lib, line).value.marker != Some(CertAuthorityMarker)
  }

  predicate AllImportable(lib: Library, lines: seq<string>) {
    forall i | 0 <= i < |lines| :: Importable(lib, lines[i])
  }

  /** From index `n` on, no element repeats an earlier one. */
  predicate NewFrom(s: seq<string>, n: nat) {
    forall i, j | n <= i < |s| && 0 <= j < i :: s[j] != s[i]
  }

  /** `st` is what an import that began knowing `known` may look like midway. */
  ghost predicate Midway(lib: Library, known: seq<string>, st: Import) {
    && Balanced(st.report)
    && |st.appended| == st.report.imported
    && AllImportable(lib, st.appended)
    && st.known == known + Identities(lib, Slots(lib, st.appended))
    && |st.known| == |known| + |st.appended|
    && NewFrom(st.known, |known|)
  }

  /** Every usable line among the first `n` has its identity on record. */
  predicate AllKnown(lib: Library, lines: seq<string>, n: nat, known: seq<string>)
    requires n <= |lines|
  {
    forall i | 0 <= i < n :: KindOf(lib, lines[i]).Good? ==> KindOf(lib, lines[i]).identity in known
  }

  lemma {:induction false} IdentitiesConcat(lib: Library, a: seq<Option<Entry>>, b: seq<Option<Entry>>)
    ensures Identities(lib, a + b) == Identities(lib, a) + Identities(lib, b)
  {
    if a == [] {
      assert a + b == b;
    } else {
      assert (a + b)[1..] == a[1..] + b;
      IdentitiesConcat(lib, a[1..], b);
    }
  }

  /** A line with a new identity is added. */
  lemma MidwayNew(lib: Library, known: seq<string>, st: Import, line: string, id: string)
    requires Midway(lib, known, st) && '\n' !in line && KindOf(lib, line) == Good(id) && id !in st.known
    ensures Midway(lib, known, ImportLine(lib, st, line))
  {
    TrimIdempotent(line);
    TrimHoldsSubset(line, '\n');
    assert Importable(lib, Trim(line));
    assert Slots(lib, st.appended + [Trim(line)]) == Slots(lib, st.appended) + Slots(lib, [Trim(line)]);
    IdentitiesConcat(lib, Slots(lib, st.appended), Slots(lib, [Trim(line)]));
    assert Identities(lib, Slots(lib, [Trim(line)])) == [id];
  }

  lemma MidwayStep(lib: Library, known: seq<string>, st: Import, line: string)
    requires Midway(lib, known, st) && '\n' !in line
    ensures Midway(lib, known, ImportLine(lib, st, line))
    ensures st.known <= ImportLine(lib, st, line).known
    ensures KindOf(lib, line).Good? ==> KindOf(lib, line).identity in ImportLine(lib, st, line).known
  {
    match KindOf(lib, line)
    case Good(id) =>
      if id !in st.known {
        MidwayNew(lib, known, st, line, id);
      }
    case _ =>
  }

  /** Usable lines met, whether they turned out new or not. */
  function Usable(r: ImportReport): nat {
    r.imported + r.duplicates
  }

  lemma AllKnownStep(lib: Library, lines: seq<string>, n: nat, known: seq<string>, more: seq<string>)
    requires n < |lines| && AllKnown(lib, lines, n, known) && known <= more
    requires KindOf(lib, lines[n]).Good? ==> KindOf(lib, lines[n]).identity in more
    ensures AllKnown(lib, lines, n + 1, more)
  {
    forall i | 0 <= i < n + 1 && KindOf(lib, lines[i]).Good?
      ensures KindOf(lib, lines[i]).identity in more
    {
      if i < n {
        assert KindOf(lib, lines[i]).identity in known;
      }
    }
  }

  lemma BeginIsMidway(lib: Library, known: seq<string>)
    ensures Midway(lib, known, Begin(known))
  {
    var st := Begin(known);
    assert Slots(lib, st.appended) == [];
    assert st.known == known + Identities(lib, Slots(lib, st.appended));
  }

  /** The import's invariant after `n` lines of its source. */
  ghost predicate Sound(lib: Library, known: seq<string>, lines: seq<string>, st: Import, n: nat) {
    n <= |lines| && Midway(lib, known, st) && AllKnown(lib, lines, n, st.known)
  }

  lemma LineKeepsSound(lib: Library, known: seq<string>, lines: seq<string>, st: Import, n: nat)
    requires n < |lines| && '\n' !in lines[n] && Sound(lib, known, lines, st, n)
    ensures Sound(lib, known, lines, ImportLine(lib, st, lines[n]), n + 1)
  {
    var next := ImportLine(lib, st, lines[n]);
    MidwayStep(lib, known, st, lines[n]);
    AllKnownStep(lib, lines, n, st.known, next.known);
  }

  lemma {:induction false} ImportIsMidway(lib: Library, known: seq<string>, lines: seq<string>, n: nat, st: Import)
    requires n <= |lines| && st == ImportUpTo(lib, Begin(known), lines, n)
    requires forall i | 0 <= i < |lines| :: '\n' !in lines[i]
    ensures Sound(lib, known, lines, st, n)
  {
    if n == 0 {
      BeginIsMidway(lib, known);
    } else {
      var before := ImportUpTo(lib, Begin(known), lines, n - 1);
      ImportIsMidway(lib, known, lines, n - 1, before);
      LineKeepsSound(lib, known, lines, before, n - 1);
    }
  }

  lemma {:induction false} UsableLinesAreCounted(
      lib: Library, known: seq<string>, lines: seq<string>, n: nat, st: Import)
    requires n <= |lines| && st == ImportUpTo(lib, Begin(known), lines, n)
    ensures Usable(st.report) == GoodCount(lib, lines, n)
  {
    if n > 0 {
      var before := ImportUpTo(lib, Begin(known), lines, n - 1);
      UsableLinesAreCounted(lib, known, lines, n - 1, before);
      assert st == ImportLine(lib, before, lines[n - 1]);
    }
  }

  /** Slots whose lines were just written: the identities of the old file, then those of the new lines. */
  lemma AppendedIdentities(lib: Library, filed: seq<Option<Entry>>, st: Import)
    requires Midway(lib, Identities(lib, filed), st)
    ensures Identities(lib, filed + Slots(lib, st.appended)) == st.known
  {
    IdentitiesConcat(lib, filed, Slots(lib, st.appended));
  }

  lemma ImportedEntries(lib: Library, contents: string, appended: seq<string>)
    requires forall i | 0 <= i < |appended| :: '\n' !in appended[i]
    ensures Entries(lib, if appended == [] then contents else Close(contents) + Unlines(appended))
         == Entries(lib, contents) + Slots(lib, appended)
  {
    if appended == [] {
      assert Slots(lib, appended) == [];
    } else {
      TrimmedLinesOfUnlines(appended);
      AppendedEntries(lib, contents, Unlines(appended));
    }
  }

  /** Everything an import establishes, in terms of the fold over the source's lines. */
  lemma ImportOutcome(lib: Library, contents: string, source: string, im: Import)
    requires im == ImportInto(lib, contents, source)
    ensures Midway(lib, Identities(lib, Entries(lib, contents)), im)
    ensures AllKnown(lib, Lines(source), |Lines(source)|, im.known)
    ensures Usable(im.report) == GoodCount(lib, Lines(source), |Lines(source)|)
    ensures Entries(lib, Imported(lib, contents, source)) == Entries(lib, contents) + Slots(lib, im.appended)
    ensures Identities(lib, Entries(lib, Imported(lib, contents, source))) == im.known
  {
    LinesHoldNoNewline(source);
    ImportIsMidway(lib, Identities(lib, Entries(lib, contents)), Lines(source), |Lines(source)|, im);
    UsableLinesAreCounted(lib, Identities(lib, Entries(lib, contents)), Lines(source), |Lines(source)|, im);
    ImportedEntries(lib, contents, im.appended);
    AppendedIdentities(lib, Entries(lib, contents), im);
  }

  /**
    An import keeps every old entry in place, adds one usable entry per imported line, and the
    identities it adds differ from each other and from all that were there. Every usable line of the
    source has its identity on file afterwards, though not always its entry, and the report adds up.
   */
  lemma ImportAddsNewIdentities(lib: Library, contents: string, source: string)
    ensures
      var report := ImportInto(lib, contents, source).report;
      var before, after := Entries(lib, contents), Entries(lib, Imported(lib, contents, source));
      && before <= after && |after| == |before| + report.imported
      && Balanced(report)
      && forall i | |before| <= i < |after| :: after[i].Some? && after[i].value.marker != Some(CertAuthorityMarker)
    ensures
      var report := ImportInto(lib, contents, source).report;
      var known := Identities(lib, Entries(lib, contents));
      var final := Identities(lib, Entries(lib, Imported(lib, contents, source)));
      && known <= final && |final| == |known| + report.imported
      && NewFrom(final, |known|)
      && AllKnown(lib, Lines(source), |Lines(source)|, final)
  {
    var im := ImportInto(lib, contents, source);
    ImportOutcome(lib, contents, source, im);
    assert TrimAll(im.appended) == im.appended;
  }

  lemma {:induction false} NothingNew(lib: Library, known: seq<string>, lines: seq<string>, n: nat)
    requires n <= |lines| && AllKnown(lib, lines, n, known)
    ensures
      var st := ImportUpTo(lib, Begin(known), lines, n);
      && st.known == known && st.appended == []
      && st.report.imported == 0 && st.report.duplicates == GoodCount(lib, lines, n)
  {
    if n > 0 {
      NothingNew(lib, known, lines, n - 1);
    }
  }

  /** Importing the same source again writes nothing and reports every usable line as a duplicate. */
  lemma SecondImportIsIdle(lib: Library, contents: string, source: string)
    ensures
      var first := ImportInto(lib, contents, source).report;
      var file := Imported(lib, contents, source);
      var second := ImportInto(lib, file, source).report;
      && Imported(lib, file, source) == file
      && second.imported == 0
      && second.duplicates == first.imported + first.duplicates
  {
    var im := ImportInto(lib, contents, source);
    var file := Imported(lib, contents, source);
    ImportOutcome(lib, contents, source, im);
    NothingNew(lib, Identities(lib, Entries(lib, file)), Lines(source), |Lines(source)|);
  }

  /** An import, being an append, takes back no trust and no revocation. */
  lemma ImportKeepsSettled(lib: Library, contents: string, source: string, site: Site, key: KeyData)
    requires Settled(VerdictIn(lib, contents, site, key))
    ensures VerdictIn(lib, Imported(lib, contents, source), site, key) == VerdictIn(lib, contents, site, key)
  {
    var appended := ImportInto(lib, contents, source).appended;
    AppendKeepsSettled(lib, contents, Unlines(appended), site, key);
  }
}
