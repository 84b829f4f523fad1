/**
  Which lines of another file an import brings in, and which it loses. Lines are told apart by an identity
  that leaves the marker out, so of two lines that differ in nothing but `@revoked` the import takes one.
 */
module ImportLaws {
  import opened Options
  import opened Text
  import opened KnownHosts
  import opened KnownHostsLaws

  /** The entry is on file. */
  predicate OnFile(lib: Library, contents: string, e: Entry) {
    Some(e) in Entries(lib, contents)
  }

  /** Line `j` is usable and has this identity. */
  predicate Bears(lib: Library, lines: seq<string>, j: nat, id: string)
    requires j < |lines|
  {
    KindOf(lib, lines[j]) == Good(id)
  }

  /** Line `j` is usable and its identity neither known at the start nor that of an earlier line. */
  predicate Fresh(lib: Library, known: seq<string>, lines: seq<string>, j: nat)
    requires j < |lines|
  {
    && KindOf(lib, lines[j]).Good?
    && KindOf(lib, lines[j]).identity !in known
    && forall k | 0 <= k < j :: !Bears(lib, lines, k, KindOf(lib, lines[j]).identity)
  }

  // ---------------------------------------------------------------- what is appended

  predicate Met(lib: Library, lines: seq<string>, n: nat, id: string)
    requires n <= |lines|
  {
    exists k | 0 <= k < n :: Bears(lib, lines, k, id)
  }

  lemma MetOneMore(lib: Library, lines: seq<string>, n: nat, id: string)
    requires n < |lines|
    ensures Met(lib, lines, n + 1, id) <==> Met(lib, lines, n, id) || Bears(lib, lines, n, id)
  {
  }

  /** An import knows an identity when the file or an earlier line had it. */
  lemma {:induction false} KnownMeans(
      lib: Library, known: seq<string>, lines: seq<string>, n: nat, id: string, st: Import)
    requires n <= |lines| && st == ImportUpTo(lib, Begin(known), lines, n)
    ensures id in st.known <==> id in known || Met(lib, lines, n, id)
  {
    if n > 0 {
      KnownMeans(lib, known, lines, n - 1, id, ImportUpTo(lib, Begin(known), lines, n - 1));
      MetOneMore(lib, lines, n - 1, id);
    }
  }

  /** One line more appends itself if it is fresh, and nothing otherwise. */
  lemma AppendedNext(lib: Library, known: seq<string>, lines: seq<string>, n: nat, st: Import)
    requires n < |lines| && st == ImportUpTo(lib, Begin(known), lines, n)
    ensures ImportLine(lib, st, lines[n]).appended
         == st.appended + (if Fresh(lib, known, lines, n) then [Trim(lines[n])] else [])
  {
    if KindOf(lib, lines[n]).Good? {
      KnownMeans(lib, known, lines, n, KindOf(lib, lines[n]).identity, st);
    }
    assert st.appended + [] == st.appended;
  }

  // ---------------------------------------------------------------- which entries arrive

  /** Some fresh line among the first `n` holds the entry. */
  predicate Brought(lib: Library, known: seq<string>, lines: seq<string>, n: nat, e: Entry)
    requires n <= |lines|
  {
    exists j | 0 <= j < n :: Fresh(lib, known, lines, j) && ParseEntry(lib, lines[j]) == Some(e)
  }

  lemma BroughtOneMore(lib: Library, known: seq<string>, lines: seq<string>, n: nat, e: Entry)
    requires n < |lines|
    ensures Brought(lib, known, lines, n + 1, e) <==>
              Brought(lib, known, lines, n, e) || (Fresh(lib, known, lines, n) && ParseEntry(lib, lines[n]) == Some(e))
  {
  }

  lemma SlotsSnoc(lib: Library, lines: seq<string>, line: string)
    ensures Slots(lib, lines + [Trim(line)]) == Slots(lib, lines) + [ParseEntry(lib, line)]
  {
    TrimIdempotent(line);
  }

  lemma {:induction false} AppendedAreBrought(
      lib: Library, known: seq<string>, lines: seq<string>, n: nat, e: Entry, st: Import)
    requires n <= |lines| && st == ImportUpTo(lib, Begin(known), lines, n)
    ensures Some(e) in Slots(lib, st.appended) <==> Brought(lib, known, lines, n, e)
  {
    if n > 0 {
      var before := ImportUpTo(lib, Begin(known), lines, n - 1);
      AppendedAreBrought(lib, known, lines, n - 1, e, before);
      BroughtOneMore(lib, known, lines, n - 1, e);
      AppendedNext(lib, known, lines, n - 1, before);
      SlotsSnoc(lib, before.appended, lines[n - 1]);
    }
  }

  /**
    An entry is on file after an import exactly when it was there before or the first usable line of the
    source with its identity holds it and that identity is new to the file.
   */
  lemma OnFileAfterImport(lib: Library, contents: string, source: string, e: Entry)
    ensures
      var known, lines := Identities(lib, Entries(lib, contents)), Lines(source);
      OnFile(lib, Imported(lib, contents, source), e) <==>
        OnFile(lib, contents, e) || Brought(lib, known, lines, |lines|, e)
  {
    var im := ImportInto(lib, contents, source);
    ImportOutcome(lib, contents, source, im);
    AppendedAreBrought(lib, Identities(lib, Entries(lib, contents)), Lines(source), |Lines(source)|, e, im);
  }

  lemma KindOfEntry(lib: Library, line: string, e: Entry)
    requires ParseEntry(lib, line) == Some(e) && e.marker != Some(CertAuthorityMarker)
    ensures KindOf(lib, line) == Good(Identity(lib, e))
  {
  }

  /**
    For a usable line of the source, revoked or not: its entry is on file afterwards exactly when it was
    there before, or its identity was not known when the line was reached, or an earlier line held the same
    entry and was itself new.
   */
  lemma LineOnFileAfterImport(lib: Library, contents: string, source: string, i: nat, e: Entry)
    requires i < |Lines(source)| && ParseEntry(lib, Lines(source)[i]) == Some(e)
    requires e.marker != Some(CertAuthorityMarker)
    ensures
      var known, lines := Identities(lib, Entries(lib, contents)), Lines(source);
      OnFile(lib, Imported(lib, contents, source), e) <==>
        || OnFile(lib, contents, e)
        || Fresh(lib, known, lines, i)
        || Brought(lib, known, lines, i, e)
  {
    var known, lines := Identities(lib, Entries(lib, contents)), Lines(source);
    OnFileAfterImport(lib, contents, source, e);
    KindOfEntry(lib, lines[i], e);
    if j: nat :| j < |lines| && Fresh(lib, known, lines, j) && ParseEntry(lib, lines[j]) == Some(e) {
      KindOfEntry(lib, lines[j], e);
      assert i < j ==> Bears(lib, lines, i, Identity(lib, e));
      assert j < i || j == i;
    }
  }

  // ---------------------------------------------------------------- which revocations count

  /** A fresh line that decides for the key at the site. */
  predicate FreshDecides(lib: Library, known: seq<string>, lines: seq<string>, j: nat, site: Site, key: KeyData)
    requires j < |lines|
  {
    Fresh(lib, known, lines, j) && StandingOf(lib, ParseEntry(lib, lines[j]), site, key).Decides()
  }

  /** Among the first `n` lines a fresh one decides. */
  predicate SomeDecides(lib: Library, known: seq<string>, lines: seq<string>, n: nat, site: Site, key: KeyData)
    requires n <= |lines|
  {
    exists j | 0 <= j < n :: FreshDecides(lib, known, lines, j, site, key)
  }

  /** Among the first `n` lines a fresh one revokes, and no fresh one before it decides. */
  predicate FirstRevokes(lib: Library, known: seq<string>, lines: seq<string>, n: nat, site: Site, key: KeyData)
    requires n <= |lines|
  {
    exists j | 0 <= j < n ::
      && FreshDecides(lib, known, lines, j, site, key)
      && StandingOf(lib, ParseEntry(lib, lines[j]), site, key) == Revokes
      && !SomeDecides(lib, known, lines, j, site, key)
  }

  lemma FirstRevokesOneMore(lib: Library, known: seq<string>, lines: seq<string>, n: nat, site: Site, key: KeyData)
    requires n < |lines|
    ensures SomeDecides(lib, known, lines, n + 1, site, key) <==>
              SomeDecides(lib, known, lines, n, site, key) || FreshDecides(lib, known, lines, n, site, key)
    ensures FirstRevokes(lib, known, lines, n + 1, site, key) <==>
              || FirstRevokes(lib, known, lines, n, site, key)
              || (FreshDecides(lib, known, lines, n, site, key) && !SomeDecides(lib, known, lines, n, site, key)
                  && StandingOf(lib, ParseEntry(lib, lines[n]), site, key) == Revokes)
  {
  }

  lemma SnocVerdict(lib: Library, ss: seq<Standing>, s: Standing)
    ensures Settled(VerdictOf(lib, ss + [s])) <==> Settled(VerdictOf(lib, ss)) || s.Decides()
    ensures VerdictOf(lib, ss + [s]).Revoked? <==>
              VerdictOf(lib, ss).Revoked? || (!Settled(VerdictOf(lib, ss)) && s.Revokes?)
  {
    DecisionOfConcat(ss, [s]);
  }

  ghost predicate VerdictSoFar(
      lib: Library, known: seq<string>, lines: seq<string>, n: nat, site: Site, key: KeyData, appended: seq<string>)
    requires n <= |lines|
  {
    var v := VerdictOf(lib, Standings(lib, Slots(lib, appended), site, key));
    && (Settled(v) <==> SomeDecides(lib, known, lines, n, site, key))
    && (v.Revoked? <==> FirstRevokes(lib, known, lines, n, site, key))
  }

  lemma VerdictNext(lib: Library, known: seq<string>, lines: seq<string>, n: nat, site: Site, key: KeyData, st: Import)
    requires n < |lines| && st == ImportUpTo(lib, Begin(known), lines, n)
    requires VerdictSoFar(lib, known, lines, n, site, key, st.appended)
    ensures VerdictSoFar(lib, known, lines, n + 1, site, key, ImportLine(lib, st, lines[n]).appended)
  {
    AppendedNext(lib, known, lines, n, st);
    FirstRevokesOneMore(lib, known, lines, n, site, key);
    if Fresh(lib, known, lines, n) {
      var ss := Standings(lib, Slots(lib, st.appended), site, key);
      var s := StandingOf(lib, ParseEntry(lib, lines[n]), site, key);
      SlotsSnoc(lib, st.appended, lines[n]);
      assert Standings(lib, Slots(lib, st.appended + [Trim(lines[n])]), site, key) == ss + [s];
      SnocVerdict(lib, ss, s);
    }
  }

  lemma {:induction false} VerdictOfAppended(
      lib: Library, known: seq<string>, lines: seq<string>, n: nat, site: Site, key: KeyData, st: Import)
    requires n <= |lines| && st == ImportUpTo(lib, Begin(known), lines, n)
    ensures VerdictSoFar(lib, known, lines, n, site, key, st.appended)
  {
    if n == 0 {
      assert Standings(lib, Slots(lib, st.appended), site, key) == [];
    } else {
      var before := ImportUpTo(lib, Begin(known), lines, n - 1);
      VerdictOfAppended(lib, known, lines, n - 1, site, key, before);
      VerdictNext(lib, known, lines, n - 1, site, key, before);
    }
  }

  lemma ConcatVerdict(lib: Library, a: seq<Standing>, b: seq<Standing>)
    ensures VerdictOf(lib, a + b).Revoked? <==>
              VerdictOf(lib, a).Revoked? || (!Settled(VerdictOf(lib, a)) && VerdictOf(lib, b).Revoked?)
  {
    DecisionOfConcat(a, b);
  }

  lemma AppendedVerdict(lib: Library, filed: seq<Option<Entry>>, more: seq<Option<Entry>>, site: Site, key: KeyData)
    ensures
      var before := VerdictOf(lib, Standings(lib, filed, site, key));
      VerdictOf(lib, Standings(lib, filed + more, site, key)).Revoked? <==>
        before.Revoked? || (!Settled(before) && VerdictOf(lib, Standings(lib, more, site, key)).Revoked?)
  {
    assert Standings(lib, filed + more, site, key)
        == Standings(lib, filed, site, key) + Standings(lib, more, site, key);
    ConcatVerdict(lib, Standings(lib, filed, site, key), Standings(lib, more, site, key));
  }

  /**
    A key is Revoked after an import exactly when it was before, or the file did not decide about it and of
    the fresh lines of the source the first that decides is a revocation.
   */
  lemma RevokedAfterImport(lib: Library, contents: string, source: string, site: Site, key: KeyData, im: Import)
    requires im == ImportInto(lib, contents, source)
    ensures
      var known, lines := Identities(lib, Entries(lib, contents)), Lines(source);
      var before := VerdictIn(lib, contents, site, key);
      VerdictIn(lib, Imported(lib, contents, source), site, key).Revoked? <==>
        || before.Revoked?
        || (!Settled(before) && FirstRevokes(lib, known, lines, |lines|, site, key))
  {
    var known, lines := Identities(lib, Entries(lib, contents)), Lines(source);
    ImportOutcome(lib, contents, source, im);
    VerdictOfAppended(lib, known, lines, |lines|, site, key, im);
    AppendedVerdict(lib, Entries(lib, contents), Slots(lib, im.appended), site, key);
  }

  // ---------------------------------------------------------------- the report

  /** How many of the first `n` lines are of a kind. */
  function CountLines(lines: seq<string>, n: nat, kind: string -> bool): nat
    requires n <= |lines|
  {
    if n == 0 then 0 else CountLines(lines, n - 1, kind) + (if kind(lines[n - 1]) then 1 else 0)
  }

  /** Neither blank nor a comment. */
  predicate Holds(line: string) {
    Trim(line) != "" && Trim(line)[0] != '#'
  }

  function HoldsSomething(): string -> bool {
    line => Holds(line)
  }

  function HoldsNoEntry(lib: Library): string -> bool {
    line => Holds(line) && lib.parse(Trim(line)).None?
  }

  function HoldsAuthority(lib: Library): string -> bool {
    line => Holds(line) && lib.parse(Trim(line)).Some?
            && lib.parse(Trim(line)).value.marker == Some(CertAuthorityMarker)
  }

  lemma ReportLine(lib: Library, st: Import, line: string)
    ensures
      var r, before := ImportLine(lib, st, line).report, st.report;
      && r.total == before.total + (if HoldsSomething()(line) then 1 else 0)
      && r.malformed == before.malformed + (if HoldsNoEntry(lib)(line) then 1 else 0)
      && r.certAuthorities == before.certAuthorities + (if HoldsAuthority(lib)(line) then 1 else 0)
  {
  }

  lemma {:induction false} ReportUpTo(lib: Library, known: seq<string>, lines: seq<string>, n: nat)
    requires n <= |lines|
    ensures
      var r := ImportUpTo(lib, Begin(known), lines, n).report;
      && r.total == CountLines(lines, n, HoldsSomething())
      && r.malformed == CountLines(lines, n, HoldsNoEntry(lib))
      && r.certAuthorities == CountLines(lines, n, HoldsAuthority(lib))
  {
    if n > 0 {
      ReportUpTo(lib, known, lines, n - 1);
      ReportLine(lib, ImportUpTo(lib, Begin(known), lines, n - 1), lines[n - 1]);
    }
  }

  /**
    What the numbers of a report count: the lines of the source that hold something, those of them that are no
    entry, those that are for an authority; of the rest, the new ones were written and the others were not.
   */
  lemma ReportCounts(lib: Library, contents: string, source: string)
    ensures
      var r, lines := ImportInto(lib, contents, source).report, Lines(source);
      && r.total == CountLines(lines, |lines|, HoldsSomething())
      && r.malformed == CountLines(lines, |lines|, HoldsNoEntry(lib))
      && r.certAuthorities == CountLines(lines, |lines|, HoldsAuthority(lib))
      && r.imported == |Entries(lib, Imported(lib, contents, source))| - |Entries(lib, contents)|
      && r.duplicates == r.total - r.malformed - r.certAuthorities - r.imported
  {
    ReportUpTo(lib, Identities(lib, Entries(lib, contents)), Lines(source), |Lines(source)|);
    ImportAddsNewIdentities(lib, contents, source);
  }

  // ---------------------------------------------------------------- a revocation that is lost

  /** A text of one line that is neither blank nor a comment. */
  predicate OneLine(line: string) {
    line != "" && '\n' !in line && Trim(line) == line && line[0] != '#'
  }

  lemma OneLineFile(lib: Library, line: string)
    requires OneLine(line)
    ensures Lines(line) == [line] && Entries(lib, line) == [lib.parse(line)]
  {
    LinesOne(line);
  }

  lemma ImportOfOneLine(lib: Library, contents: string, line: string, e: Entry)
    requires OneLine(line) && lib.parse(line) == Some(e) && e.marker != Some(CertAuthorityMarker)
    requires Identity(lib, e) in Identities(lib, Entries(lib, contents))
    ensures ImportInto(lib, contents, line).report == ImportReport(1, 0, 1, 0, 0)
    ensures Imported(lib, contents, line) == contents
  {
    OneLineFile(lib, line);
    var start := Begin(Identities(lib, Entries(lib, contents)));
    var lines := Lines(line);
    assert ImportUpTo(lib, start, lines, 0) == start;
    assert ImportUpTo(lib, start, lines, 1) == ImportLine(lib, start, line);
  }

  /**
    The loss itself. The file trusts a key; the source revokes that very key for the same pattern. The
    import reports a duplicate, leaves the file as it is, and the key stays trusted.
   */
  lemma RevocationLost(lib: Library, plain: string, revoked: string, e: Entry, site: Site)
    requires OneLine(plain) && OneLine(revoked) && e.marker == None && PatternsMatch(lib, e.patterns, site)
    requires lib.parse(plain) == Some(e) && lib.parse(revoked) == Some(e.(marker := Some(RevokedMarker)))
    ensures ImportInto(lib, plain, revoked).report == ImportReport(1, 0, 1, 0, 0)
    ensures Imported(lib, plain, revoked) == plain
    ensures !OnFile(lib, Imported(lib, plain, revoked), e.(marker := Some(RevokedMarker)))
    ensures VerdictIn(lib, Imported(lib, plain, revoked), site, e.key.data) == Trusted
  {
    OneLineFile(lib, plain);
    var slots := Entries(lib, plain);
    assert slots[1..] == [] && Identities(lib, slots) == [Identity(lib, e)];
    ImportOfOneLine(lib, plain, revoked, e.(marker := Some(RevokedMarker)));
    assert Standings(lib, slots, site, e.key.data) == [Vouches];
  }

  lemma TwoLineFile(lib: Library, first: string, second: string)
    requires OneLine(first) && OneLine(second)
    ensures Entries(lib, first + "\n" + second) == [lib.parse(first), lib.parse(second)]
  {
    var text := first + "\n" + second;
    LinesCons(first, second);
    OneLineFile(lib, second);
    TrimStripCr(first);
    assert Lines(text) == [StripCr(first), second];
    assert TrimmedLines(text) == [first, second];
  }

  /** The first decisive line speaks: above its revocation a trusted line wins, below it the revocation does. */
  lemma OrderDecides(lib: Library, plain: string, revoked: string, e: Entry, site: Site)
    requires OneLine(plain) && OneLine(revoked) && e.marker == None && PatternsMatch(lib, e.patterns, site)
    requires lib.parse(plain) == Some(e) && lib.parse(revoked) == Some(e.(marker := Some(RevokedMarker)))
    ensures VerdictIn(lib, plain + "\n" + revoked, site, e.key.data) == Trusted
    ensures VerdictIn(lib, revoked + "\n" + plain, site, e.key.data) == Revoked(1)
  {
    TwoLineFile(lib, plain, revoked);
    TwoLineFile(lib, revoked, plain);
    assert Standings(lib, Entries(lib, plain + "\n" + revoked), site, e.key.data) == [Vouches, Revokes];
    assert Standings(lib, Entries(lib, revoked + "\n" + plain), site, e.key.data) == [Revokes, Vouches];
  }

  lemma ExampleLines()
    ensures OneLine("h k") && OneLine("@revoked h k")
  {
    assert TrimEnd("h k") == "h k" && TrimStart("h k") == "h k";
    assert TrimEnd("@revoked h k") == "@revoked h k" && TrimStart("@revoked h k") == "@revoked h k";
  }

  /** The loss on two texts: a file `h k`, and a source that revokes it. */
  lemma RevocationLostExample(lib: Library, e: Entry, site: Site)
    requires e.marker == None && PatternsMatch(lib, e.patterns, site)
    requires lib.parse("h k") == Some(e) && lib.parse("@revoked h k") == Some(e.(marker := Some(RevokedMarker)))
    ensures ImportInto(lib, "h k", "@revoked h k").report == ImportReport(1, 0, 1, 0, 0)
    ensures VerdictIn(lib, Imported(lib, "h k", "@revoked h k"), site, e.key.data) == Trusted
  {
    ExampleLines();
    RevocationLost(lib, "h k", "@revoked h k", e, site);
  }
}
