/**
  Tern's own trust file (crates/core-ssh/src/known_hosts.rs): a text of lines, a verdict over its
  entries, and the three operations that rewrite it.

  Parsing a trimmed line into an entry, hashing, encoding and fingerprints come from other libraries;
  they are the fields of `Library`, and `Lawful` is the only thing assumed of them.
 */
module KnownHosts {
  import opened Options
  import opened Text
  import Glob

  type Port = n: nat | n < 0x1_0000

  /** Twenty bytes: the size of an HMAC-SHA1 digest, and of the salts `learn` draws. */
  type Digest = b: Bytes | |b| == 20 witness seq(20, _ => 0 as byte)

  datatype Marker = RevokedMarker | CertAuthorityMarker

  datatype HostPatterns = Patterns(list: seq<string>) | HashedName(salt: Bytes, hash: Digest)

  /** What two keys are compared by; the comment of a public key is not part of it. */
  datatype KeyData = KeyData(algorithm: string, bytes: Bytes)
  datatype PublicKey = PublicKey(data: KeyData, comment: string)

  datatype Entry = Entry(marker: Option<Marker>, patterns: HostPatterns, key: PublicKey)

  /** Where a connection goes. */
  datatype Site = Site(host: string, port: Port)

  datatype Verdict =
    | Trusted
    | Unknown
    | Changed(line: nat, algorithm: string, fingerprint: string)
    | Revoked(line: nat)

  datatype ImportReport = ImportReport(total: nat, imported: nat, duplicates: nat, certAuthorities: nat, malformed: nat)

  /** The code Tern calls but does not own. */
  datatype Library = Library(
    parse: string -> Option<Entry>,
    hmacSha1: (Bytes, string) -> Digest,
    base64: Bytes -> string,
    openssh: PublicKey -> Option<string>,
    fingerprint: KeyData -> string,
    showPatterns: HostPatterns -> string)

  // ---------------------------------------------------------------- names and patterns

  /** The name an entry is filed under: the bare host on port 22, `[host]:port` elsewhere. */
  function Target(site: Site): string {
    if site.port == 22 then site.host else "[" + site.host + "]:" + Digits(site.port)
  }

  /** A pattern is tried against the target and against the bare host. */
  predicate Names(pattern: string, site: Site) {
    Glob.Accepts(pattern, Target(site)) || Glob.Accepts(pattern, site.host)
  }

  /** Some pattern names the site and no negated pattern does. */
  predicate ListMatches(list: seq<string>, site: Site) {
    && (exists p | p in list :: !Glob.Negated(p) && Names(p, site))
    && (forall p | p in list :: Glob.Negated(p) ==> !Names(p[1..], site))
  }

  predicate PatternsMatch(lib: Library, patterns: HostPatterns, site: Site) {
    match patterns
    case HashedName(salt, hash) => lib.hmacSha1(salt, Target(site)) == hash
    case Patterns(list) => ListMatches(list, site)
  }

  method MatchList(list: seq<string>, site: Site) returns (matched: bool)
    ensures matched == ListMatches(list, site)
  {
    var target := Target(site);
    matched := false;
    for i := 0 to |list|
      invariant forall j | 0 <= j < i :: Glob.Negated(list[j]) ==> !Names(list[j][1..], site)
      invariant matched <==> exists j | 0 <= j < i :: !Glob.Negated(list[j]) && Names(list[j], site)
    {
      var pattern := list[i];
      if pattern != "" && pattern[0] == '!' {
        var onTarget, _ := Glob.GlobMatch(pattern[1..], target);
        var onHost, _ := Glob.GlobMatch(pattern[1..], site.host);
        if onTarget || onHost {
          assert pattern in list;
          return false;
        }
      } else {
        var onTarget, _ := Glob.GlobMatch(pattern, target);
        var onHost, _ := Glob.GlobMatch(pattern, site.host);
        if onTarget || onHost {
          matched := true;
        }
      }
    }
  }

  // ---------------------------------------------------------------- entries

  /** The entry on a trimmed line, if it is neither blank, a comment, nor malformed. */
  function EntryOn(lib: Library, trimmed: string): Option<Entry> {
    if trimmed == "" || trimmed[0] == '#' then None else lib.parse(trimmed)
  }

  function ParseEntry(lib: Library, line: string): Option<Entry> {
    EntryOn(lib, Trim(line))
  }

  function EntriesOn(lib: Library, trimmed: seq<string>): (r: seq<Option<Entry>>)
    ensures |r| == |trimmed|
    ensures forall i | 0 <= i < |r| :: r[i] == EntryOn(lib, trimmed[i])
  {
    seq(|trimmed|, i requires 0 <= i < |trimmed| => EntryOn(lib, trimmed[i]))
  }

  /** One slot per line of the file; the slot of line n is at index n - 1. */
  function Entries(lib: Library, contents: string): seq<Option<Entry>> {
    EntriesOn(lib, TrimmedLines(contents))
  }

  predicate Hits(lib: Library, slot: Option<Entry>, site: Site) {
    slot.Some? && PatternsMatch(lib, slot.value.patterns, site)
  }

  /** What one line has to say about a key offered by a site. */
  datatype Standing =
    | Silent                     // no entry, another site, a certificate authority, another algorithm
    | Revokes                    // a revoked entry for the site, whatever its key
    | Vouches                    // the very key offered
    | Conflicts(data: KeyData)   // another key of the same algorithm
  {
    predicate Decides() {
      Revokes? || Vouches?
    }
  }

  function StandingOf(lib: Library, slot: Option<Entry>, site: Site, key: KeyData): Standing {
    if !Hits(lib, slot, site) then Silent
    else
      var recorded := slot.value.key.data;
      match slot.value.marker
      case Some(RevokedMarker) => Revokes
      case Some(CertAuthorityMarker) => Silent
      case None =>
        if recorded == key then Vouches
        else if recorded.algorithm == key.algorithm then Conflicts(recorded)
        else Silent
  }

  function Standings(lib: Library, slots: seq<Option<Entry>>, site: Site, key: KeyData): (r: seq<Standing>)
    ensures |r| == |slots|
    ensures forall i | 0 <= i < |r| :: r[i] == StandingOf(lib, slots[i], site, key)
  {
    seq(|slots|, i requires 0 <= i < |slots| => StandingOf(lib, slots[i], site, key))
  }

  /** The first line from index `i` on that decides, or the number of lines. */
  function DecisionFrom(ss: seq<Standing>, i: nat): (n: nat)
    requires i <= |ss|
    ensures i <= n <= |ss|
    decreases |ss| - i
  {
    if i == |ss| || ss[i].Decides() then i else DecisionFrom(ss, i + 1)
  }

  function ConflictFrom(ss: seq<Standing>, i: nat): (n: nat)
    requires i <= |ss|
    ensures i <= n <= |ss|
    decreases |ss| - i
  {
    if i == |ss| || ss[i].Conflicts? then i else ConflictFrom(ss, i + 1)
  }

  function FirstDecision(ss: seq<Standing>): (n: nat)
    ensures n <= |ss|
  {
    DecisionFrom(ss, 0)
  }

  function FirstConflict(ss: seq<Standing>): (n: nat)
    ensures n <= |ss|
  {
    ConflictFrom(ss, 0)
  }

  lemma {:induction false} DecisionIsFirst(ss: seq<Standing>, i: nat)
    requires i <= |ss|
    ensures
      var n := DecisionFrom(ss, i);
      && (forall j | i <= j < n :: !ss[j].Decides())
      && (n < |ss| ==> ss[n].Decides())
    decreases |ss| - i
  {
    if i < |ss| && !ss[i].Decides() {
      DecisionIsFirst(ss, i + 1);
    }
  }

  lemma {:induction false} ConflictIsFirst(ss: seq<Standing>, i: nat)
    requires i <= |ss|
    ensures
      var n := ConflictFrom(ss, i);
      && (forall j | i <= j < n :: !ss[j].Conflicts?)
      && (n < |ss| ==> ss[n].Conflicts?)
    decreases |ss| - i
  {
    if i < |ss| && !ss[i].Conflicts? {
      ConflictIsFirst(ss, i + 1);
    }
  }

  /** The first decisive line speaks; without one, the first conflicting line raises the alarm. */
  function VerdictOf(lib: Library, ss: seq<Standing>): Verdict {
    DecisionIsFirst(ss, 0);
    ConflictIsFirst(ss, 0);
    var d := FirstDecision(ss);
    if d < |ss| then
      if ss[d].Vouches? then Trusted else Revoked(d + 1)
    else
      var c := FirstConflict(ss);
      if c < |ss| then Changed(c + 1, ss[c].data.algorithm, lib.fingerprint(ss[c].data)) else Unknown
  }

  function VerdictIn(lib: Library, contents: string, site: Site, key: KeyData): Verdict {
    VerdictOf(lib, Standings(lib, Entries(lib, contents), site, key))
  }

  // ---------------------------------------------------------------- what is written

  /** `alg base64key`: the first two fields of the encoded key. */
  function KeyPart(lib: Library, key: PublicKey): Option<string> {
    match lib.openssh(key)
    case None => None
    case Some(text) =>
      var fields := Fields(text);
      if |fields| < 2 then None else Some(fields[0] + " " + fields[1])
  }

  function HashedPattern(lib: Library, salt: Digest, hash: Digest): string {
    "|1|" + lib.base64(salt) + "|" + lib.base64(hash)
  }

  /**
    The pattern `learn` files a site under. A salt stands for a hashed entry; without one (hashing not
    asked for, or no randomness to be had) the name is written plainly.
   */
  function LearnedPattern(lib: Library, site: Site, salt: Option<Digest>): string {
    match salt
    case None => Target(site)
    case Some(s) => HashedPattern(lib, s, lib.hmacSha1(s, Target(site)))
  }

  function WrittenLine(pattern: string, keyPart: string): string {
    pattern + " " + keyPart
  }

  /** The text that a final line can be appended to. */
  function Close(contents: string): string {
    if Closed(contents) then contents else contents + "\n"
  }

  function Learned(lib: Library, contents: string, site: Site, keyPart: string, salt: Option<Digest>): string {
    Close(contents) + WrittenLine(LearnedPattern(lib, site, salt), keyPart) + "\n"
  }

  /** A pattern the entry format can carry: one word, no list separator, no leading syntax. */
  predicate PlainPattern(p: string) {
    p != "" && NoWhitespace(p) && ',' !in p && p[0] != '@' && p[0] != '#' && p[0] != '|'
  }

  /** What is assumed of the entry parser: it reads back the two forms `learn` writes. */
  ghost predicate Lawful(lib: Library) {
    && (forall bytes: Digest :: NoWhitespace(lib.base64(bytes)))
    && (forall pattern, key: PublicKey |
          PlainPattern(pattern) && KeyPart(lib, key).Some? ::
          lib.parse(WrittenLine(pattern, KeyPart(lib, key).value))
            == Some(Entry(None, Patterns([pattern]), PublicKey(key.data, ""))))
    && (forall salt: Digest, name, key: PublicKey |
          KeyPart(lib, key).Some? ::
          lib.parse(WrittenLine(HashedPattern(lib, salt, lib.hmacSha1(salt, name)), KeyPart(lib, key).value))
            == Some(Entry(None, HashedName(salt, lib.hmacSha1(salt, name)), PublicKey(key.data, ""))))
  }

  // ---------------------------------------------------------------- removal and import, as functions

  /** The lines that hold no entry for the site. */
  function KeptLines(lib: Library, lines: seq<string>, site: Site): seq<string> {
    if lines == [] then []
    else if Hits(lib, ParseEntry(lib, lines[0]), site) then KeptLines(lib, lines[1..], site)
    else [lines[0]] + KeptLines(lib, lines[1..], site)
  }

  function HitCount(lib: Library, lines: seq<string>, site: Site): nat {
    if lines == [] then 0
    else (if Hits(lib, ParseEntry(lib, lines[0]), site) then 1 else 0) + HitCount(lib, lines[1..], site)
  }

  function Removed(lib: Library, contents: string, site: Site): string {
    if HitCount(lib, Lines(contents), site) == 0 then contents
    else Unlines(KeptLines(lib, Lines(contents), site))
  }

  /** Patterns, algorithm and fingerprint; neither the comment nor the marker takes part. */
  function Identity(lib: Library, e: Entry): string {
    lib.showPatterns(e.patterns) + "|" + e.key.data.algorithm + "|" + lib.fingerprint(e.key.data)
  }

  function Identities(lib: Library, slots: seq<Option<Entry>>): seq<string>
  {
    if slots == [] then []
    else (if slots[0].Some? then [Identity(lib, slots[0].value)] else []) + Identities(lib, slots[1..])
  }

  /** What one import has done so far. */
  datatype Import = Import(known: seq<string>, appended: seq<string>, report: ImportReport)

  datatype LineKind = Skipped | Malformed | Authority | Good(identity: string)

  /** What a line of the source is to an import. */
  function KindOf(lib: Library, line: string): LineKind {
    var trimmed := Trim(line);
    if trimmed == "" || trimmed[0] == '#' then Skipped
    else
      match ParseEntry(lib, line)
      case None => Malformed
      case Some(e) =>
        if e.marker == Some(CertAuthorityMarker) then Authority else Good(Identity(lib, e))
  }

  function ImportLine(lib: Library, st: Import, line: string): Import {
    var r := st.report.(total := st.report.total + 1);
    match KindOf(lib, line)
    case Skipped => st
    case Malformed => st.(report := r.(malformed := r.malformed + 1))
    case Authority => st.(report := r.(certAuthorities := r.certAuthorities + 1))
    case Good(id) =>
      if id in st.known then st.(report := r.(duplicates := r.duplicates + 1))
      else Import(st.known + [id], st.appended + [Trim(line)], r.(imported := r.imported + 1))
  }

  /** The state of an import after the first `n` lines of its source. */
  function ImportUpTo(lib: Library, st: Import, lines: seq<string>, n: nat): Import
    requires n <= |lines|
  {
    if n == 0 then st else ImportLine(lib, ImportUpTo(lib, st, lines, n - 1), lines[n - 1])
  }

  const NO_REPORT := ImportReport(0, 0, 0, 0, 0)

  /** An import about to begin, with the identities already on file. */
  function Begin(known: seq<string>): Import {
    Import(known, [], NO_REPORT)
  }

  function ImportInto(lib: Library, contents: string, source: string): Import {
    ImportUpTo(lib, Begin(Identities(lib, Entries(lib, contents))), Lines(source), |Lines(source)|)
  }

  function Imported(lib: Library, contents: string, source: string): string {
    var appended := ImportInto(lib, contents, source).appended;
    if appended == [] then contents else Close(contents) + Unlines(appended)
  }

  lemma LineAppended(contents: string, head: string, pattern: string, keyPart: string)
    requires head == if Closed(contents) then "" else "\n"
    ensures contents + (head + pattern + " " + keyPart + "\n") == Close(contents) + WrittenLine(pattern, keyPart) + "\n"
  {
    assert Close(contents) == contents + head;
  }

  lemma WriteLine(kept: string, line: string, rest: seq<string>)
    ensures kept + Unlines([line] + rest) == kept + line + "\n" + Unlines(rest)
  {
    assert ([line] + rest)[1..] == rest;
  }

  lemma AppendLine(done: seq<string>, line: string)
    ensures Unlines(done + [line]) == Unlines(done) + line + "\n"
  {
    UnlinesConcat(done, [line]);
    assert Unlines([line]) == line + "\n";
  }

  lemma StandingOfLine(lib: Library, contents: string, site: Site, key: KeyData, i: nat)
    requires i < |Lines(contents)|
    ensures |Standings(lib, Entries(lib, contents), site, key)| == |Lines(contents)|
    ensures Standings(lib, Entries(lib, contents), site, key)[i]
         == StandingOf(lib, ParseEntry(lib, Lines(contents)[i]), site, key)
  {
  }

  /** Nothing decisive before line `i`, and line `i` decides. */
  lemma VerdictAt(lib: Library, ss: seq<Standing>, i: nat)
    requires i < |ss| && ss[i].Decides() && DecisionFrom(ss, 0) == DecisionFrom(ss, i)
    ensures VerdictOf(lib, ss) == if ss[i].Vouches? then Trusted else Revoked(i + 1)
  {
  }

  /** The alarm raised by the first conflicting line among the first `n`. */
  ghost function Alarm(lib: Library, ss: seq<Standing>, n: nat): Option<Verdict>
    requires n <= |ss|
  {
    if n == 0 then None
    else if Alarm(lib, ss, n - 1).Some? || !ss[n - 1].Conflicts? then Alarm(lib, ss, n - 1)
    else Some(Changed(n, ss[n - 1].data.algorithm, lib.fingerprint(ss[n - 1].data)))
  }

  lemma {:induction false} AlarmIsFirstConflict(lib: Library, ss: seq<Standing>, n: nat)
    requires n <= |ss|
    ensures
      var c := FirstConflict(ss);
      if c < n then
        && ss[c].Conflicts?
        && Alarm(lib, ss, n) == Some(Changed(c + 1, ss[c].data.algorithm, lib.fingerprint(ss[c].data)))
      else Alarm(lib, ss, n) == None
  {
    ConflictIsFirst(ss, 0);
    if n > 0 {
      AlarmIsFirstConflict(lib, ss, n - 1);
    }
  }

  lemma VerdictAtEnd(lib: Library, ss: seq<Standing>)
    requires FirstDecision(ss) == |ss|
    ensures VerdictOf(lib, ss) == Alarm(lib, ss, |ss|).GetOr(Unknown)
  {
    AlarmIsFirstConflict(lib, ss, |ss|);
  }

  // ---------------------------------------------------------------- the file

  datatype LearnResult = Recorded | EncodeFailed | WriteFailed

  /** The file an import reads. */
  datatype Source = Missing | Unreadable | Contents(text: string)

  /** The file on disk; a missing file reads as the empty text. */
  class KnownHostsFile {
    const lib: Library
    var contents: string

    constructor (lib: Library, contents: string)
      ensures this.lib == lib && this.contents == contents
    {
      this.lib := lib;
      this.contents := contents;
    }

    method EntryMatches(entry: Entry, site: Site) returns (matched: bool)
      ensures matched == PatternsMatch(lib, entry.patterns, site)
    {
      match entry.patterns {
        case HashedName(salt, hash) => matched := lib.hmacSha1(salt, Target(site)) == hash;
        case Patterns(list) => matched := MatchList(list, site);
      }
    }

    /** The body of the loop of `verify`: what one line says, in the source's order of tests. */
    method Weigh(slot: Option<Entry>, site: Site, key: KeyData) returns (standing: Standing)
      ensures standing == StandingOf(lib, slot, site, key)
    {
      if slot.None? {
        return Silent;
      }
      var entry := slot.value;
      var matched := EntryMatches(entry, site);
      if !matched {
        return Silent;
      }
      match entry.marker {
        case Some(RevokedMarker) =>
          return Revokes;
        case Some(CertAuthorityMarker) =>
          return Silent;
        case None =>
      }
      if entry.key.data == key {
        return Vouches;
      }
      standing := if entry.key.data.algorithm == key.algorithm then Conflicts(entry.key.data) else Silent;
    }

    /** The pass over the lines, each with what it has to say. */
    method VerifyLines(lines: seq<string>, site: Site, key: KeyData, ghost ss: seq<Standing>)
      returns (verdict: Verdict)
      requires |ss| == |lines|
      requires forall i | 0 <= i < |lines| :: ss[i] == StandingOf(lib, ParseEntry(lib, lines[i]), site, key)
      ensures verdict == VerdictOf(lib, ss)
    {
      var changed: Option<Verdict> := None;
      for i := 0 to |lines|
        invariant DecisionFrom(ss, 0) == DecisionFrom(ss, i)
        invariant changed == Alarm(lib, ss, i)
      {
        var standing := Weigh(ParseEntry(lib, lines[i]), site, key);
        assert standing == ss[i];
        match standing {
          case Revokes =>
            VerdictAt(lib, ss, i);
            return Revoked(i + 1);
          case Vouches =>
            VerdictAt(lib, ss, i);
            return Trusted;
          case Conflicts(recorded) =>
            if changed.None? {
              changed := Some(Changed(i + 1, recorded.algorithm, lib.fingerprint(recorded)));
            }
          case Silent =>
        }
      }
      VerdictAtEnd(lib, ss);
      return changed.GetOr(Unknown);
    }

    /** Is `key` the key on file for `site`? No answer when the file is there and cannot be read. */
    method Verify(site: Site, key: PublicKey, readable: bool) returns (verdict: Option<Verdict>)
      ensures verdict == if readable then Some(VerdictIn(lib, contents, site, key.data)) else None
    {
      if !readable {
        return None;
      }
      var lines := Lines(contents);
      ghost var ss := Standings(lib, Entries(lib, contents), site, key.data);
      assert |ss| == |lines|;
      forall i | 0 <= i < |lines| ensures ss[i] == StandingOf(lib, ParseEntry(lib, lines[i]), site, key.data) {
        StandingOfLine(lib, contents, site, key.data, i);
      }
      var found := VerifyLines(lines, site, key.data, ss);
      return Some(found);
    }

    /** A key the user accepted goes to the end. `writable` is whether the file system takes the write. */
    method Learn(site: Site, key: PublicKey, salt: Option<Digest>, writable: bool) returns (r: LearnResult)
      modifies this
      ensures r == if KeyPart(lib, key).None? then EncodeFailed else if writable then Recorded else WriteFailed
      ensures contents == if r == Recorded then Learned(lib, old(contents), site, KeyPart(lib, key).value, salt)
                          else old(contents)
    {
      var pattern := LearnedPattern(lib, site, salt);
      var keyPart := KeyPart(lib, key);
      if keyPart.None? {
        return EncodeFailed;
      }
      var needsNewline := contents != "" && contents[|contents| - 1] != '\n';
      if !writable {
        return WriteFailed;
      }
      var line := "";
      if needsNewline {
        line := line + "\n";
      }
      ghost var head := line;
      line := line + pattern;
      line := line + " ";
      line := line + keyPart.value;
      line := line + "\n";
      LineAppended(contents, head, pattern, keyPart.value);
      contents := contents + line;
      return Recorded;
    }

    method KeepOthers(lines: seq<string>, site: Site) returns (kept: string, hits: nat)
      ensures hits == HitCount(lib, lines, site)
      ensures kept == Unlines(KeptLines(lib, lines, site))
    {
      kept, hits := "", 0;
      for i := 0 to |lines|
        invariant hits + HitCount(lib, lines[i..], site) == HitCount(lib, lines, site)
        invariant kept + Unlines(KeptLines(lib, lines[i..], site)) == Unlines(KeptLines(lib, lines, site))
      {
        var line := lines[i];
        assert lines[i..][1..] == lines[i + 1..] && lines[i..][0] == line;
        var slot := ParseEntry(lib, line);
        var matched := false;
        if slot.Some? {
          matched := EntryMatches(slot.value, site);
        }
        if matched {
          hits := hits + 1;
        } else {
          ghost var rest := KeptLines(lib, lines[i + 1..], site);
          assert KeptLines(lib, lines[i..], site) == [line] + rest;
          WriteLine(kept, line, rest);
          kept := kept + line;
          kept := kept + "\n";
        }
      }
      assert lines[|lines|..] == [];
      assert kept + "" == kept;
    }

    /** Take out every entry for the site and count them; an I/O error leaves the file as it was. */
    method Remove(site: Site, readable: bool, writable: bool) returns (removed: Option<nat>)
      modifies this
      ensures
        var hits := HitCount(lib, Lines(old(contents)), site);
        removed == if readable && (hits == 0 || writable) then Some(hits) else None
      ensures contents == if removed.Some? then Removed(lib, old(contents), site) else old(contents)
    {
      if !readable {
        return None;
      }
      var lines := Lines(contents);
      var kept, hits := KeepOthers(lines, site);
      if hits > 0 {
        if !writable {
          return None;
        }
        contents := kept;
      }
      return Some(hits);
    }

    /** The lines with a new identity, and the counts of all lines. */
    method CopyNew(lines: seq<string>, onFile: seq<string>) returns (appended: string, report: ImportReport)
      ensures
        var im := ImportUpTo(lib, Begin(onFile), lines, |lines|);
        report == im.report && appended == Unlines(im.appended) && (appended == "" <==> im.appended == [])
    {
      var known := onFile;
      var total, imported, duplicates, authorities, malformed := 0, 0, 0, 0, 0;
      appended := "";
      ghost var done: seq<string> := [];
      for i := 0 to |lines|
        invariant appended == Unlines(done)
        invariant Import(known, done, ImportReport(total, imported, duplicates, authorities, malformed))
               == ImportUpTo(lib, Begin(onFile), lines, i)
      {
        var line := lines[i];
        var trimmed := Trim(line);
        if trimmed == "" || trimmed[0] == '#' {
          continue;
        }
        total := total + 1;
        var slot := ParseEntry(lib, line);
        if slot.None? {
          malformed := malformed + 1;
          continue;
        }
        if slot.value.marker == Some(CertAuthorityMarker) {
          authorities := authorities + 1;
          continue;
        }
        var identity := Identity(lib, slot.value);
        if identity in known {
          duplicates := duplicates + 1;
          continue;
        }
        known := known + [identity];
        AppendLine(done, trimmed);
        appended := appended + trimmed;
        appended := appended + "\n";
        done := done + [trimmed];
        imported := imported + 1;
      }
      report := ImportReport(total, imported, duplicates, authorities, malformed);
    }

    method KnownIdentities() returns (known: seq<string>)
      ensures known == Identities(lib, Entries(lib, contents))
    {
      var lines := Lines(contents);
      ghost var slots := Entries(lib, contents);
      known := [];
      for i := 0 to |lines|
        invariant known + Identities(lib, slots[i..]) == Identities(lib, slots)
      {
        var slot := ParseEntry(lib, lines[i]);
        assert slot == slots[i] && slots[i..][0] == slot && slots[i..][1..] == slots[i + 1..];
        if slot.Some? {
          known := known + [Identity(lib, slot.value)];
        }
      }
      assert slots[|lines|..] == [];
    }

    /**
      The usable lines of another file with a new identity are added at the end. A source that is not there is an
      empty report; any other I/O error, at the source, at the file or at the write that is only made for
      something new, leaves the file as it was.
     */
    method ImportFrom(source: Source, readable: bool, writable: bool) returns (report: Option<ImportReport>)
      modifies this
      ensures source.Missing? ==> report == Some(NO_REPORT)
      ensures source.Unreadable? ==> report == None
      ensures source.Contents? ==>
                var im := ImportInto(lib, old(contents), source.text);
                report == if readable && (im.appended == [] || writable) then Some(im.report) else None
      ensures contents == if source.Contents? && report.Some? then Imported(lib, old(contents), source.text)
                          else old(contents)
    {
      match source {
        case Missing => return Some(NO_REPORT);
        case Unreadable => return None;
        case Contents(text) =>
          if !readable {
            return None;
          }
          var known := KnownIdentities();
          var appended, counts := CopyNew(Lines(text), known);
          if appended != "" {
            if !writable {
              return None;
            }
            var out := contents;
            if contents != "" && contents[|contents| - 1] != '\n' {
              out := out + "\n";
            }
            contents := out + appended;
          }
          return Some(counts);
      }
    }
  }
}
