/**
  The trust decision of a connect (`host_key_prompt` in apps/desktop/src/commands.rs) and what it
  guarantees over every run of connects, answers, removals and imports against one trust file.

  The callback looks the key up, and for an unknown key waits for the user before it records anything. The
  two halves are two steps here, `Ask` and `Answer`, with anything at all between them.
 */
module HostKeyGate {
  import opened Options
  import opened Text
  import opened KnownHosts
  import opened KnownHostsLaws
  import opened ImportLaws
  import opened KnownHostsNames
  import Glob

  type SessionId = string

  datatype Event =
    | HostKeyPrompt(id: SessionId, site: Site, algorithm: string, fingerprint: string)
    | HostKeyChanged(site: Site, algorithm: string, recorded: string, presented: string, line: nat)
    | HostKeyRevoked(site: Site, line: nat)
    | ReadFailed
    | RecordFailed

  /** A callback that waits for the user: where the connection goes, and the key it was shown. */
  datatype Request = Request(site: Site, key: PublicKey)

  datatype Gate = Gate(contents: string, pending: map<SessionId, Request>)

  /**
    One step against the trust file. What is not Tern's to choose is a field: whether the file can be read
    (`readable`) and written (`writable`), the user's answer, whether the callback still waits for it
    (`waiting`), and the salt, absent for a plain entry.
   */
  datatype Op =
    | Ask(id: SessionId, site: Site, key: PublicKey, readable: bool)
    | Answer(id: SessionId, yes: bool, waiting: bool, salt: Option<Digest>, writable: bool)
    | Forget(site: Site)
    | Absorb(source: string)

  /** What the callback says to the handshake, if it says something in this step, and what the user sees. */
  datatype Reply = Reply(accepted: Option<bool>, events: seq<Event>)

  const NO_REPLY := Reply(None, [])

  function AskReply(lib: Library, contents: string, id: SessionId, site: Site, key: PublicKey): Reply {
    match VerdictIn(lib, contents, site, key.data)
    case Trusted => Reply(Some(true), [])
    case Revoked(line) => Reply(Some(false), [HostKeyRevoked(site, line)])
    case Changed(line, algorithm, recorded) =>
      Reply(Some(false), [HostKeyChanged(site, algorithm, recorded, lib.fingerprint(key.data), line)])
    case Unknown => Reply(None, [HostKeyPrompt(id, site, key.data.algorithm, lib.fingerprint(key.data))])
  }

  /** An answer nobody asked for, or one that comes when the callback is gone, does nothing to the file. */
  predicate Accepts(g: Gate, op: Op) {
    op.Answer? && op.id in g.pending && op.waiting && op.yes
  }

  /** The step writes the key the user accepted. */
  predicate Records(lib: Library, g: Gate, op: Op) {
    Accepts(g, op) && KeyPart(lib, g.pending[op.id].key).Some? && op.writable
  }

  function LearnedAt(lib: Library, g: Gate, op: Op): string
    requires Records(lib, g, op)
  {
    var r := g.pending[op.id];
    Learned(lib, g.contents, r.site, KeyPart(lib, r.key).value, op.salt)
  }

  function Step(lib: Library, g: Gate, op: Op): (Gate, Reply) {
    match op
    case Ask(id, site, key, readable) =>
      if !readable then (g, Reply(Some(false), [ReadFailed]))
      else
        var reply := AskReply(lib, g.contents, id, site, key);
        (if reply.accepted.None? then g.(pending := g.pending[id := Request(site, key)]) else g, reply)
    case Answer(id, yes, waiting, _, _) =>
      if id !in g.pending then (g, NO_REPLY)
      else
        var rest := g.(pending := g.pending - {id});
        if !waiting then (rest, NO_REPLY)
        else if !yes then (rest, Reply(Some(false), []))
        else if Records(lib, g, op) then (rest.(contents := LearnedAt(lib, g, op)), Reply(Some(true), []))
        else (rest, Reply(Some(true), [RecordFailed]))
    case Forget(site) => (g.(contents := Removed(lib, g.contents, site)), NO_REPLY)
    case Absorb(source) => (g.(contents := Imported(lib, g.contents, source)), NO_REPLY)
  }

  function After(lib: Library, g: Gate, op: Op): Gate {
    Step(lib, g, op).0
  }

  function Fold<S, O>(step: (S, O) -> S, s: S, ops: seq<O>, n: nat): S
    requires n <= |ops|
  {
    if n == 0 then s else step(Fold(step, s, ops, n - 1), ops[n - 1])
  }

  function Stepper(lib: Library): (Gate, Op) -> Gate {
    (g, op) => After(lib, g, op)
  }

  /** The state after the first `n` steps of a run. */
  function Run(lib: Library, g: Gate, ops: seq<Op>, n: nat): Gate
    requires n <= |ops|
  {
    Fold(Stepper(lib), g, ops, n)
  }

  // ---------------------------------------------------------------- the callback

  /** The trust file and the prompts that wait for an answer. */
  class HostKeyCallback {
    const file: KnownHostsFile
    var pending: map<SessionId, Request>

    ghost function View(): Gate
      reads this, file
    {
      Gate(file.contents, pending)
    }

    constructor (file: KnownHostsFile)
      ensures this.file == file && pending == map[]
    {
      this.file, pending := file, map[];
    }

    /** The callback up to its answer or to the point where it waits. */
    method AskHostKey(id: SessionId, site: Site, key: PublicKey, readable: bool) returns (reply: Reply)
      modifies this
      ensures (View(), reply) == Step(file.lib, old(View()), Ask(id, site, key, readable))
    {
      var verdict := file.Verify(site, key, readable);
      if verdict.None? {
        return Reply(Some(false), [ReadFailed]);
      }
      match verdict.value {
        case Trusted =>
          return Reply(Some(true), []);
        case Revoked(line) =>
          return Reply(Some(false), [HostKeyRevoked(site, line)]);
        case Changed(line, algorithm, recorded) =>
          return Reply(Some(false), [HostKeyChanged(site, algorithm, recorded, file.lib.fingerprint(key.data), line)]);
        case Unknown =>
          pending := pending[id := Request(site, key)];
          return Reply(None, [HostKeyPrompt(id, site, key.data.algorithm, file.lib.fingerprint(key.data))]);
      }
    }

    /** The user's decision delivered, and the rest of the callback. */
    method AnswerHostKey(id: SessionId, yes: bool, waiting: bool, salt: Option<Digest>, writable: bool)
      returns (reply: Reply)
      modifies this, file
      ensures (View(), reply) == Step(file.lib, old(View()), Answer(id, yes, waiting, salt, writable))
    {
      if id !in pending {
        return NO_REPLY;
      }
      var r := pending[id];
      pending := pending - {id};
      if !waiting {
        return NO_REPLY;
      }
      var events: seq<Event> := [];
      if yes {
        var recorded := file.Learn(r.site, r.key, salt, writable);
        if recorded != Recorded {
          events := [RecordFailed];
        }
      }
      return Reply(Some(yes), events);
    }
  }

  // ---------------------------------------------------------------- one step

  /**
    When a connect may proceed: at once if the key was trusted; else only by an accepted answer to a prompt.
    A changed or revoked key is refused, only an unknown key raises a prompt, and asking never writes.
   */
  lemma AskDecides(lib: Library, g: Gate, op: Op)
    requires op.Ask?
    ensures
      var v := VerdictIn(lib, g.contents, op.site, op.key.data);
      var (after, reply) := Step(lib, g, op);
      && (reply.accepted == Some(true) <==> op.readable && v == Trusted)
      && (reply.accepted == None <==> op.readable && v == Unknown)
      && ((exists e | e in reply.events :: e.HostKeyPrompt?) <==> op.readable && v == Unknown)
      && (reply.accepted == None ==> op.id in after.pending && after.pending[op.id] == Request(op.site, op.key))
      && after.contents == g.contents
  {
    var reply := Step(lib, g, op).1;
    if op.readable && VerdictIn(lib, g.contents, op.site, op.key.data) == Unknown {
      assert reply.events[0].HostKeyPrompt?;
    }
  }

  /**
    What the user is shown. A changed key is reported with the algorithm, line and fingerprint of the entry on file
    and the fingerprint of the key offered; a revoked one with the line of an entry that revokes; an unknown one
    with its own algorithm and fingerprint.
   */
  lemma AskShows(lib: Library, g: Gate, op: Op) returns (e: Option<Entry>)
    requires op.Ask? && op.readable
    ensures
      var v, reply, offered := VerdictIn(lib, g.contents, op.site, op.key.data), Step(lib, g, op).1, op.key.data;
      && (v.Changed? || v.Revoked? ==>
            && e.Some? && 1 <= v.line <= |Lines(g.contents)| && ParseEntry(lib, Lines(g.contents)[v.line - 1]) == e
            && PatternsMatch(lib, e.value.patterns, op.site))
      && (v.Changed? ==>
            && e.value.marker == None && e.value.key.data != offered
            && reply.events == [HostKeyChanged(op.site, e.value.key.data.algorithm, lib.fingerprint(e.value.key.data),
                                               lib.fingerprint(offered), v.line)])
      && (v.Revoked? ==> e.value.marker == Some(RevokedMarker) && reply.events == [HostKeyRevoked(op.site, v.line)])
      && (v == Unknown ==>
            reply.events == [HostKeyPrompt(op.id, op.site, offered.algorithm, lib.fingerprint(offered))])
  {
    var v := VerdictIn(lib, g.contents, op.site, op.key.data);
    if v.Changed? {
      var entry := ChangedNamesTheEntry(lib, g.contents, op.site, op.key.data);
      e := Some(entry);
    } else if v.Revoked? {
      var entry := RevokedNamesTheEntry(lib, g.contents, op.site, op.key.data);
      e := Some(entry);
    } else {
      e := None;
    }
  }

  /**
    An answer is taken once, from a prompt that waits, while the callback is there: then the connect goes as the
    user said, even if the key cannot be recorded, which is reported. A no writes nothing.
   */
  lemma AnswerDecides(lib: Library, g: Gate, op: Op)
    requires op.Answer?
    ensures
      var (after, reply) := Step(lib, g, op);
      var heard := op.id in g.pending && op.waiting;
      && reply.accepted == (if heard then Some(op.yes) else None)
      && op.id !in after.pending && (forall id | id in g.pending && id != op.id :: id in after.pending)
      && (forall id | id in after.pending :: id in g.pending && after.pending[id] == g.pending[id])
      && (!heard || !op.yes || !op.writable ==> after.contents == g.contents)
      && (RecordFailed in reply.events <==> heard && op.yes && !Records(lib, g, op))
      && Step(lib, after, op) == (after, NO_REPLY)
  {
  }

  /** What a step can make of the file: nothing, a line learned, an import, or a removal. */
  lemma FileAfter(lib: Library, g: Gate, op: Op)
    ensures
      After(lib, g, op).contents ==
        match op
        case Ask(_, _, _, _) => g.contents
        case Answer(_, _, _, _, _) => if Records(lib, g, op) then LearnedAt(lib, g, op) else g.contents
        case Forget(site) => Removed(lib, g.contents, site)
        case Absorb(source) => Imported(lib, g.contents, source)
  {
  }

  /** The verdict about the key a waiting prompt is for, on the file as it is now. */
  function VerdictAtAnswer(lib: Library, g: Gate, op: Op): Verdict
    requires op.Answer? && op.id in g.pending
  {
    VerdictIn(lib, g.contents, g.pending[op.id].site, g.pending[op.id].key.data)
  }

  /** The name the entry is written under is one its format can carry. */
  predicate Writable(g: Gate, op: Op)
    requires op.Answer? && op.id in g.pending
  {
    op.salt.None? ==> PlainPattern(Target(g.pending[op.id].site))
  }

  /** A plain entry under a name that begins with `!` reads back as a negation. */
  predicate ReadsBack(g: Gate, op: Op)
    requires op.Answer? && op.id in g.pending
  {
    op.salt.Some? || !Glob.Negated(Target(g.pending[op.id].site))
  }

  lemma LearnedStandingVerdict(lib: Library, contents: string, site: Site, key: PublicKey, salt: Option<Digest>)
    requires Lawful(lib) && KeyPart(lib, key).Some? && (salt.None? ==> PlainPattern(Target(site)))
    ensures VerdictIn(lib, Learned(lib, contents, site, KeyPart(lib, key).value, salt), site, key.data).Revoked?
        <==> VerdictIn(lib, contents, site, key.data).Revoked?
  {
    var line := WrittenLine(LearnedPattern(lib, site, salt), KeyPart(lib, key).value) + "\n";
    assert Learned(lib, contents, site, KeyPart(lib, key).value, salt) == Close(contents) + line;
    AppendedStandings(lib, contents, line, site, key.data);
    LearnedStanding(lib, site, key, salt);
    ConcatVerdict(lib, Standings(lib, Entries(lib, contents), site, key.data),
                  Standings(lib, Entries(lib, line), site, key.data));
  }

  /**
    A key accepted at the prompt and recorded is Trusted exactly when it was not Revoked at the moment of
    the answer, whatever the file said when the prompt went up, and the entry is one that reads back.
   */
  lemma AcceptedIsTrusted(lib: Library, g: Gate, op: Op)
    requires Lawful(lib) && Records(lib, g, op) && Writable(g, op)
    ensures
      var r := g.pending[op.id];
      var before, after := VerdictAtAnswer(lib, g, op), VerdictIn(lib, After(lib, g, op).contents, r.site, r.key.data);
      && (after == Trusted <==> before == Trusted || (!before.Revoked? && ReadsBack(g, op)))
      && (after.Revoked? <==> before.Revoked?)
  {
    var r := g.pending[op.id];
    LearnIsReadBack(lib, g.contents, r.site, r.key, op.salt);
    LearnedStandingVerdict(lib, g.contents, r.site, r.key, op.salt);
  }

  // ---------------------------------------------------------------- trust endures

  /** The entry on the first decisive line. */
  function Decider(lib: Library, slots: seq<Option<Entry>>, site: Site, key: KeyData): Option<Entry> {
    var d := FirstDecision(Standings(lib, slots, site, key));
    if d < |slots| then slots[d] else None
  }

  /** The entry that vouches for the key, if the file decides so. */
  function Voucher(lib: Library, contents: string, site: Site, key: KeyData): Option<Entry> {
    var d := Decider(lib, Entries(lib, contents), site, key);
    if d.Some? && StandingOf(lib, d, site, key) == Vouches then d else None
  }

  predicate TrustedBy(lib: Library, contents: string, site: Site, key: KeyData, e: Entry) {
    Voucher(lib, contents, site, key) == Some(e)
  }

  lemma TrustHasAnEntry(lib: Library, contents: string, site: Site, key: KeyData)
    ensures VerdictIn(lib, contents, site, key) == Trusted <==> exists e :: TrustedBy(lib, contents, site, key, e)
  {
    var slots := Entries(lib, contents);
    var d := FirstDecision(Standings(lib, slots, site, key));
    if d < |slots| && slots[d].Some? && StandingOf(lib, slots[d], site, key) == Vouches {
      assert TrustedBy(lib, contents, site, key, slots[d].value);
    }
  }

  lemma AppendKeepsDecider(lib: Library, contents: string, t: string, site: Site, key: KeyData, e: Entry)
    requires TrustedBy(lib, contents, site, key, e)
    ensures TrustedBy(lib, Close(contents) + t, site, key, e)
  {
    AppendedEntries(lib, contents, t);
    AppendedStandings(lib, contents, t, site, key);
    DecisionOfConcat(Standings(lib, Entries(lib, contents), site, key), Standings(lib, Entries(lib, t), site, key));
  }

  lemma FirstDecisionOfCons(first: Standing, rest: seq<Standing>)
    ensures FirstDecision([first] + rest) == if first.Decides() then 0 else 1 + FirstDecision(rest)
  {
    DecisionShifts([first], rest, 0);
  }

  lemma DeciderOfCons(lib: Library, slot: Option<Entry>, rest: seq<Option<Entry>>, site: Site, key: KeyData)
    ensures Decider(lib, [slot] + rest, site, key)
         == if StandingOf(lib, slot, site, key).Decides() then slot else Decider(lib, rest, site, key)
  {
    StandingsCons(lib, slot, rest, site, key);
    FirstDecisionOfCons(StandingOf(lib, slot, site, key), Standings(lib, rest, site, key));
  }

  /** Removing other lines, before or after it, leaves the deciding entry the deciding one. */
  lemma {:induction false} RemovalKeepsDecider(
      lib: Library, lines: seq<string>, gone: Site, site: Site, key: KeyData, e: Entry)
    requires Decider(lib, Slots(lib, lines), site, key) == Some(e)
    requires !PatternsMatch(lib, e.patterns, gone)
    ensures Decider(lib, Slots(lib, KeptLines(lib, lines, gone)), site, key) == Some(e)
  {
    if lines != [] {
      var slot := ParseEntry(lib, lines[0]);
      var kept := KeptLines(lib, lines[1..], gone);
      assert lines == [lines[0]] + lines[1..];
      SlotsCons(lib, lines[0], lines[1..]);
      SlotsCons(lib, lines[0], kept);
      DeciderOfCons(lib, slot, Slots(lib, lines[1..]), site, key);
      DeciderOfCons(lib, slot, Slots(lib, kept), site, key);
      if !StandingOf(lib, slot, site, key).Decides() {
        RemovalKeepsDecider(lib, lines[1..], gone, site, key, e);
      }
    }
  }

  /** The step does not remove lines that match like this entry's. */
  predicate Spares(lib: Library, op: Op, e: Entry) {
    op.Forget? ==> !PatternsMatch(lib, e.patterns, op.site)
  }

  predicate AllSpare(lib: Library, ops: seq<Op>, e: Entry) {
    forall i | 0 <= i < |ops| :: Spares(lib, ops[i], e)
  }

  /** The connect passes at once, without an event, and nothing changes. */
  predicate Silent(lib: Library, g: Gate, op: Op)
    requires op.Ask?
  {
    Step(lib, g, op) == (g, Reply(Some(true), []))
  }

  lemma LearnedKeepsTrust(lib: Library, g: Gate, op: Op, site: Site, key: KeyData, e: Entry)
    requires Records(lib, g, op) && TrustedBy(lib, g.contents, site, key, e)
    ensures TrustedBy(lib, LearnedAt(lib, g, op), site, key, e)
  {
    var r := g.pending[op.id];
    var line := WrittenLine(LearnedPattern(lib, r.site, op.salt), KeyPart(lib, r.key).value) + "\n";
    assert LearnedAt(lib, g, op) == Close(g.contents) + line;
    AppendKeepsDecider(lib, g.contents, line, site, key, e);
  }

  lemma RemovalKeepsTrust(lib: Library, contents: string, gone: Site, site: Site, key: KeyData, e: Entry)
    requires TrustedBy(lib, contents, site, key, e) && !PatternsMatch(lib, e.patterns, gone)
    ensures TrustedBy(lib, Removed(lib, contents, gone), site, key, e)
  {
    if HitCount(lib, Lines(contents), gone) > 0 {
      SlotsOfContents(lib, contents);
      RemovalKeepsDecider(lib, Lines(contents), gone, site, key, e);
      KeptEntries(lib, contents, gone);
    }
  }

  /** One step: unless it removes the very entry, the entry goes on deciding. */
  lemma StepKeepsTrust(lib: Library, g: Gate, op: Op, site: Site, key: KeyData, e: Entry)
    requires TrustedBy(lib, g.contents, site, key, e) && Spares(lib, op, e)
    ensures TrustedBy(lib, After(lib, g, op).contents, site, key, e)
  {
    FileAfter(lib, g, op);
    match op
    case Ask(_, _, _, _) =>
    case Answer(_, _, _, _, _) =>
      if Records(lib, g, op) {
        LearnedKeepsTrust(lib, g, op, site, key, e);
      }
    case Absorb(source) =>
      AppendKeepsDecider(lib, g.contents, Unlines(ImportInto(lib, g.contents, source).appended), site, key, e);
    case Forget(gone) =>
      RemovalKeepsTrust(lib, g.contents, gone, site, key, e);
  }

  /** What every step of a run keeps, the run keeps. */
  lemma {:induction false} RunKeeps<S(!new), O>(step: (S, O) -> S, s: S, ops: seq<O>, n: nat, good: S -> bool)
    requires n <= |ops| && good(s)
    requires forall c, i | 0 <= i < n && good(c) :: good(step(c, ops[i]))
    ensures good(Fold(step, s, ops, n))
  {
    if n > 0 {
      RunKeeps(step, s, ops, n - 1, good);
    }
  }

  /** What holds after a run held at its start, or some step of the run brought it. */
  lemma {:induction false} RunBrings<S(!new), O(!new)>(
      step: (S, O) -> S, s: S, ops: seq<O>, n: nat, holds: S -> bool, brings: (S, O) -> bool)
    requires n <= |ops|
    requires forall c, op | holds(step(c, op)) :: holds(c) || brings(c, op)
    ensures holds(Fold(step, s, ops, n)) ==>
              holds(s) || exists i | 0 <= i < n :: brings(Fold(step, s, ops, i), ops[i])
  {
    if n > 0 {
      RunBrings(step, s, ops, n - 1, holds, brings);
    }
  }

  /**
    Once an entry vouches for a key it does so after every run in which no removal matches that entry: each
    later connect with the key passes in silence and writes nothing.
   */
  lemma TrustEndures(lib: Library, g: Gate, ops: seq<Op>, site: Site, key: KeyData, e: Entry)
    requires TrustedBy(lib, g.contents, site, key, e) && AllSpare(lib, ops, e)
    ensures TrustedBy(lib, Run(lib, g, ops, |ops|).contents, site, key, e)
  {
    forall c: Gate, i | 0 <= i < |ops| && TrustedBy(lib, c.contents, site, key, e)
      ensures TrustedBy(lib, After(lib, c, ops[i]).contents, site, key, e)
    {
      assert Spares(lib, ops[i], e);
      StepKeepsTrust(lib, c, ops[i], site, key, e);
    }
    RunKeeps(Stepper(lib), g, ops, |ops|, (c: Gate) => TrustedBy(lib, c.contents, site, key, e));
  }

  lemma SilentAfter(lib: Library, g: Gate, ops: seq<Op>, next: Op, e: Entry)
    requires next.Ask? && next.readable && TrustedBy(lib, g.contents, next.site, next.key.data, e)
    requires AllSpare(lib, ops, e)
    ensures Silent(lib, Run(lib, g, ops, |ops|), next)
  {
    TrustEndures(lib, g, ops, next.site, next.key.data, e);
    TrustHasAnEntry(lib, Run(lib, g, ops, |ops|).contents, next.site, next.key.data);
  }

  lemma AcceptedHasAnEntry(lib: Library, g: Gate, op: Op) returns (e: Entry)
    requires Lawful(lib) && Records(lib, g, op) && Writable(g, op) && ReadsBack(g, op)
    requires !VerdictAtAnswer(lib, g, op).Revoked?
    ensures TrustedBy(lib, After(lib, g, op).contents, g.pending[op.id].site, g.pending[op.id].key.data, e)
  {
    var r, after := g.pending[op.id], After(lib, g, op).contents;
    AcceptedIsTrusted(lib, g, op);
    TrustHasAnEntry(lib, after, r.site, r.key.data);
    e :| TrustedBy(lib, after, r.site, r.key.data, e);
  }

  /**
    From an accepted answer on: when the key is recorded and was not revoked meanwhile, a later connect to
    the site with that key passes without an event and without touching the file, whatever was done in
    between, unless a removal matched the entry.
   */
  lemma AcceptedOnceThenSilent(lib: Library, g: Gate, op: Op, between: seq<Op>, next: Op) returns (e: Entry)
    requires Lawful(lib) && Records(lib, g, op) && Writable(g, op) && ReadsBack(g, op)
    requires !VerdictAtAnswer(lib, g, op).Revoked?
    requires next.Ask? && next.readable
    requires next.site == g.pending[op.id].site && next.key.data == g.pending[op.id].key.data
    ensures TrustedBy(lib, After(lib, g, op).contents, next.site, next.key.data, e)
    ensures AllSpare(lib, between, e) ==> Silent(lib, Run(lib, After(lib, g, op), between, |between|), next)
  {
    e := AcceptedHasAnEntry(lib, g, op);
    if AllSpare(lib, between, e) {
      SilentAfter(lib, After(lib, g, op), between, next, e);
    }
  }

  lemma AnswerRecovers(lib: Library, later: Gate, answer: Op)
    requires Lawful(lib) && Records(lib, later, answer) && Writable(later, answer) && ReadsBack(later, answer)
    requires VerdictAtAnswer(lib, later, answer) != Trusted
    ensures Step(lib, later, answer).1.accepted == Some(true)
    ensures
      var r := later.pending[answer.id];
      VerdictIn(lib, After(lib, later, answer).contents, r.site, r.key.data) == Trusted <==>
        !VerdictAtAnswer(lib, later, answer).Revoked?
  {
    AcceptedIsTrusted(lib, later, answer);
  }

  // ---------------------------------------------------------------- what may come during the prompt

  lemma OneLineAppended(lib: Library, line: string, e: Entry)
    requires OneLine(line) && lib.parse(line) == Some(e) && e.marker != Some(CertAuthorityMarker)
    ensures Entries(lib, "") == [] && ImportInto(lib, "", line).appended == [line]
  {
    OneLineFile(lib, line);
    var start, lines := Begin([]), Lines(line);
    assert Entries(lib, "") == [];
    assert ImportUpTo(lib, start, lines, 0) == start;
    KindOfEntry(lib, line, e);
    assert ImportLine(lib, start, line).appended == [line];
    assert ImportUpTo(lib, start, lines, 1) == ImportLine(lib, start, line);
  }

  lemma ImportOfNewLine(lib: Library, line: string, e: Entry)
    requires OneLine(line) && lib.parse(line) == Some(e) && e.marker != Some(CertAuthorityMarker)
    ensures Entries(lib, Imported(lib, "", line)) == [Some(e)]
  {
    OneLineAppended(lib, line, e);
    ImportedEntries(lib, "", [line]);
    assert TrimAll([line]) == [line] && Slots(lib, [line]) == [Some(e)];
  }

  lemma EmptyIsUnknown(lib: Library, site: Site, key: KeyData)
    ensures VerdictIn(lib, "", site, key) == Unknown
  {
    assert Entries(lib, "") == [] && Standings(lib, Entries(lib, ""), site, key) == [];
  }

  lemma RevocationArrives(lib: Library, revoked: string, e: Entry, site: Site, key: KeyData)
    requires OneLine(revoked) && lib.parse(revoked) == Some(e)
    requires e.marker == Some(RevokedMarker) && PatternsMatch(lib, e.patterns, site)
    ensures VerdictIn(lib, Imported(lib, "", revoked), site, key) == Revoked(1)
  {
    ImportOfNewLine(lib, revoked, e);
    assert Standings(lib, [Some(e)], site, key) == [Revokes];
  }

  lemma EmptyPrompts(lib: Library, id: SessionId, site: Site, key: PublicKey)
    ensures After(lib, Gate("", map[]), Ask(id, site, key, true)) == Gate("", map[id := Request(site, key)])
  {
    EmptyIsUnknown(lib, site, key.data);
  }

  /** With an empty file a prompt goes up, and while it waits a file is imported. */
  lemma ImportDuringPrompt(lib: Library, source: string, id: SessionId, site: Site, key: PublicKey)
    returns (g: Gate)
    ensures g == After(lib, After(lib, Gate("", map[]), Ask(id, site, key, true)), Absorb(source))
    ensures g == Gate(Imported(lib, "", source), map[id := Request(site, key)])
  {
    EmptyPrompts(lib, id, site, key);
    g := Gate(Imported(lib, "", source), map[id := Request(site, key)]);
  }

  function LearnedLineOf(lib: Library, r: Request, salt: Option<Digest>): string
    requires KeyPart(lib, r.key).Some?
  {
    WrittenLine(LearnedPattern(lib, r.site, salt), KeyPart(lib, r.key).value) + "\n"
  }

  lemma AnsweredOnRevoked(lib: Library, g: Gate, id: SessionId)
    requires id in g.pending && VerdictIn(lib, g.contents, g.pending[id].site, g.pending[id].key.data).Revoked?
    ensures
      var (after, reply) := Step(lib, g, Answer(id, true, true, None, true));
      && reply.accepted == Some(true)
      && VerdictIn(lib, after.contents, g.pending[id].site, g.pending[id].key.data)
         == VerdictIn(lib, g.contents, g.pending[id].site, g.pending[id].key.data)
  {
    var op, r := Answer(id, true, true, None, true), g.pending[id];
    FileAfter(lib, g, op);
    if Records(lib, g, op) {
      var line := LearnedLineOf(lib, r, None);
      assert LearnedAt(lib, g, op) == Close(g.contents) + line;
      AppendKeepsSettled(lib, g.contents, line, r.site, r.key.data);
    }
  }

  /**
    The case that fails. With an empty file a prompt goes up; while it waits an import brings a revocation
    for the site; the user accepts. The connect passes, and the key it passed with is revoked.
   */
  lemma RevokedDuringPrompt(lib: Library, revoked: string, e: Entry, id: SessionId, site: Site, key: PublicKey)
    returns (g: Gate)
    requires OneLine(revoked) && lib.parse(revoked) == Some(e)
    requires e.marker == Some(RevokedMarker) && PatternsMatch(lib, e.patterns, site)
    ensures g == After(lib, After(lib, Gate("", map[]), Ask(id, site, key, true)), Absorb(revoked))
    ensures
      var (after, reply) := Step(lib, g, Answer(id, true, true, None, true));
      reply.accepted == Some(true) && VerdictIn(lib, after.contents, site, key.data) == Revoked(1)
  {
    g := ImportDuringPrompt(lib, revoked, id, site, key);
    RevocationArrives(lib, revoked, e, site, key.data);
    AnsweredOnRevoked(lib, g, id);
  }

  lemma ConflictArrives(lib: Library, other: string, e: Entry, site: Site, key: KeyData)
    requires OneLine(other) && lib.parse(other) == Some(e) && e.marker == None && PatternsMatch(lib, e.patterns, site)
    requires e.key.data != key && e.key.data.algorithm == key.algorithm
    ensures VerdictIn(lib, Imported(lib, "", other), site, key)
         == Changed(1, key.algorithm, lib.fingerprint(e.key.data))
  {
    ImportOfNewLine(lib, other, e);
    var ss := Standings(lib, [Some(e)], site, key);
    assert ss == [Conflicts(e.key.data)];
    ConflictIsFirst(ss, 0);
    DecisionIsFirst(ss, 0);
  }

  lemma AnsweredOnChanged(lib: Library, g: Gate, id: SessionId, salt: Option<Digest>)
    requires Lawful(lib) && id in g.pending && KeyPart(lib, g.pending[id].key).Some?
    requires salt.None? ==> OrdinaryHost(g.pending[id].site)
    requires VerdictIn(lib, g.contents, g.pending[id].site, g.pending[id].key.data).Changed?
    ensures
      var (after, reply) := Step(lib, g, Answer(id, true, true, salt, true));
      && reply.accepted == Some(true)
      && VerdictIn(lib, after.contents, g.pending[id].site, g.pending[id].key.data) == Trusted
  {
    if salt.None? {
      PlainHost(g.pending[id].site);
    }
    AnswerRecovers(lib, g, Answer(id, true, true, salt, true));
  }

  /**
    The same gap lets another key in. While the prompt waits an import brings a different key of the algorithm,
    so that a connect would now be refused as Changed; the user accepts, the connect passes, and the key
    shown is trusted from then on.
   */
  lemma ChangedDuringPrompt(
      lib: Library, other: string, e: Entry, id: SessionId, site: Site, key: PublicKey, salt: Option<Digest>)
    returns (g: Gate)
    requires Lawful(lib) && KeyPart(lib, key).Some?
    requires salt.None? ==> OrdinaryHost(site)
    requires OneLine(other) && lib.parse(other) == Some(e) && e.marker == None && PatternsMatch(lib, e.patterns, site)
    requires e.key.data != key.data && e.key.data.algorithm == key.data.algorithm
    ensures g == After(lib, After(lib, Gate("", map[]), Ask(id, site, key, true)), Absorb(other))
    ensures VerdictIn(lib, g.contents, site, key.data).Changed?
    ensures
      var (after, reply) := Step(lib, g, Answer(id, true, true, salt, true));
      reply.accepted == Some(true) && VerdictIn(lib, after.contents, site, key.data) == Trusted
  {
    g := ImportDuringPrompt(lib, other, id, site, key);
    ConflictArrives(lib, other, e, site, key.data);
    AnsweredOnChanged(lib, g, id, salt);
  }

  // ---------------------------------------------------------------- where trust comes from

  /** The entry was written by the step: imported from its source, or learned at its answer. */
  predicate WrittenBy(lib: Library, before: Gate, op: Op, e: Entry) {
    match op
    case Ask(_, _, _, _) => false
    case Forget(_) => false
    case Absorb(source) => OnFile(lib, source, e)
    case Answer(id, _, _, salt, _) =>
      && Records(lib, before, op)
      && OnFile(lib, LearnedLineOf(lib, before.pending[id], salt), e)
  }

  lemma ImportProvenance(lib: Library, contents: string, source: string, e: Entry)
    requires OnFile(lib, Imported(lib, contents, source), e) && !OnFile(lib, contents, e)
    ensures OnFile(lib, source, e)
  {
    OnFileAfterImport(lib, contents, source, e);
    var known := Identities(lib, Entries(lib, contents));
    var lines := Lines(source);
    var j: nat :| j < |lines| && Fresh(lib, known, lines, j) && ParseEntry(lib, lines[j]) == Some(e);
    SlotsOfContents(lib, source);
    assert Entries(lib, source)[j] == Some(e);
  }

  lemma RemoveProvenance(lib: Library, contents: string, site: Site, e: Entry)
    requires OnFile(lib, Removed(lib, contents, site), e)
    ensures OnFile(lib, contents, e)
  {
    if HitCount(lib, Lines(contents), site) > 0 {
      var kept := KeptLines(lib, Lines(contents), site);
      KeptEntries(lib, contents, site);
      KeptLinesAreLines(lib, Lines(contents), site);
      var i :| 0 <= i < |kept| && Slots(lib, kept)[i] == Some(e);
      var j :| 0 <= j < |Lines(contents)| && Lines(contents)[j] == kept[i];
      assert Entries(lib, contents)[j] == Some(e);
    }
  }

  /** One step invents no entry. */
  lemma StepProvenance(lib: Library, g: Gate, op: Op, e: Entry)
    requires OnFile(lib, After(lib, g, op).contents, e)
    ensures OnFile(lib, g.contents, e) || WrittenBy(lib, g, op, e)
  {
    FileAfter(lib, g, op);
    match op
    case Ask(_, _, _, _) =>
    case Answer(id, _, _, salt, _) =>
      if Records(lib, g, op) {
        var line := LearnedLineOf(lib, g.pending[id], salt);
        assert LearnedAt(lib, g, op) == Close(g.contents) + line;
        AppendedEntries(lib, g.contents, line);
      }
    case Absorb(source) =>
      if !OnFile(lib, g.contents, e) {
        ImportProvenance(lib, g.contents, source, e);
      }
    case Forget(site) =>
      RemoveProvenance(lib, g.contents, site, e);
  }

  /** Some step among the first `n` wrote the entry. */
  predicate WrittenBefore(lib: Library, g: Gate, ops: seq<Op>, n: nat, e: Entry)
    requires n <= |ops|
  {
    exists i | 0 <= i < n :: WrittenBy(lib, Run(lib, g, ops, i), ops[i], e)
  }

  /** The entry was on file at the start, or some step among the first `n` wrote it. */
  predicate Sourced(lib: Library, g: Gate, ops: seq<Op>, n: nat, e: Entry)
    requires n <= |ops|
  {
    OnFile(lib, g.contents, e) || WrittenBefore(lib, g, ops, n, e)
  }

  /** Over every run, an entry on file was there at the start or was written by a step of the run. */
  lemma RunProvenance(lib: Library, g: Gate, ops: seq<Op>, n: nat, e: Entry)
    requires n <= |ops|
    ensures OnFile(lib, Run(lib, g, ops, n).contents, e) ==> Sourced(lib, g, ops, n, e)
  {
    forall c: Gate, op: Op | OnFile(lib, After(lib, c, op).contents, e)
      ensures OnFile(lib, c.contents, e) || WrittenBy(lib, c, op, e)
    {
      StepProvenance(lib, c, op, e);
    }
    RunBrings(Stepper(lib), g, ops, n, (c: Gate) => OnFile(lib, c.contents, e),
              (c: Gate, op: Op) => WrittenBy(lib, c, op, e));
  }

  /** Step `i` put up the prompt: the key was unknown then, and the request is what was shown. */
  predicate PromptedBy(lib: Library, before: Gate, op: Op, id: SessionId, r: Request) {
    && op.Ask? && op.id == id && op.readable && Request(op.site, op.key) == r
    && VerdictIn(lib, before.contents, r.site, r.key.data) == Unknown
  }

  /** Some step among the first `n` put up the prompt. */
  predicate PromptedBefore(lib: Library, g: Gate, ops: seq<Op>, n: nat, id: SessionId, r: Request)
    requires n <= |ops|
  {
    exists i | 0 <= i < n :: PromptedBy(lib, Run(lib, g, ops, i), ops[i], id, r)
  }

  predicate Waits(g: Gate, id: SessionId, r: Request) {
    id in g.pending && g.pending[id] == r
  }

  lemma StepPrompts(lib: Library, g: Gate, op: Op, id: SessionId, r: Request)
    requires Waits(After(lib, g, op), id, r)
    ensures Waits(g, id, r) || PromptedBy(lib, g, op, id, r)
  {
  }

  /** Every prompt that waits was put up by a step of the run, for a key unknown at that moment. */
  lemma WaitingWasPrompted(lib: Library, g: Gate, ops: seq<Op>, n: nat, id: SessionId, r: Request)
    requires n <= |ops| && g.pending == map[]
    ensures Waits(Run(lib, g, ops, n), id, r) ==> PromptedBefore(lib, g, ops, n, id, r)
  {
    forall c: Gate, op: Op | Waits(After(lib, c, op), id, r)
      ensures Waits(c, id, r) || PromptedBy(lib, c, op, id, r)
    {
      StepPrompts(lib, c, op, id, r);
    }
    RunBrings(Stepper(lib), g, ops, n, (c: Gate) => Waits(c, id, r),
              (c: Gate, op: Op) => PromptedBy(lib, c, op, id, r));
  }

  /** The entry vouches for the key, and was on file at the start or written by an earlier step. */
  predicate Accounted(lib: Library, g: Gate, ops: seq<Op>, n: nat, site: Site, key: KeyData, e: Entry)
    requires n <= |ops|
  {
    StandingOf(lib, Some(e), site, key) == Vouches && Sourced(lib, g, ops, n, e)
  }

  /**
    No trust out of nowhere. In every run, a connect passes either at once, and then an entry vouches for
    its key that was on file at the start, came with an import, or was learned at an earlier accepted
    answer; or by the user's yes to a prompt that an earlier step of its own put up for that very key, which
    was unknown then.
   */
  lemma AcceptedConnectIsAccountable(lib: Library, g: Gate, ops: seq<Op>, n: nat, now: Gate)
    requires n < |ops| && now == Run(lib, g, ops, n) && g.pending == map[]
    requires Step(lib, now, ops[n]).1.accepted == Some(true)
    ensures ops[n].Ask? || ops[n].Answer?
    ensures ops[n].Ask? ==> exists e :: Accounted(lib, g, ops, n, ops[n].site, ops[n].key.data, e)
    ensures ops[n].Answer? ==>
              && ops[n].yes && ops[n].id in now.pending
              && PromptedBefore(lib, g, ops, n, ops[n].id, now.pending[ops[n].id])
  {
    var op := ops[n];
    match op
    case Ask(_, site, key, _) =>
      AskDecides(lib, now, op);
      TrustHasAnEntry(lib, now.contents, site, key.data);
      var e :| TrustedBy(lib, now.contents, site, key.data, e);
      assert OnFile(lib, now.contents, e);
      RunProvenance(lib, g, ops, n, e);
      assert Accounted(lib, g, ops, n, site, key.data, e);
    case Answer(id, _, _, _, _) =>
      WaitingWasPrompted(lib, g, ops, n, id, now.pending[id]);
    case _ =>
  }

  /** The entry learned at an answer is for exactly the key that was shown. */
  lemma LearnedForTheKeyShown(lib: Library, before: Gate, op: Op, e: Entry)
    requires Lawful(lib) && op.Answer? && WrittenBy(lib, before, op, e) && Writable(before, op)
    ensures e.key.data == before.pending[op.id].key.data && e.marker == None
  {
    var r := before.pending[op.id];
    LearnedEntry(lib, r.site, r.key, op.salt);
  }

  /**
    The recovery path. A changed key is refused until its site is removed; then it is unknown again, and the
    connect prompts for it. A yes to that prompt makes the connect pass, and makes the key trusted unless a
    revocation came between: in particular when nothing did.
   */
  lemma RecoveryByRemoval(lib: Library, g: Gate, ask: Op, answer: Op)
    requires ask.Ask? && ask.readable && VerdictIn(lib, g.contents, ask.site, ask.key.data).Changed?
    ensures Step(lib, g, ask).1.accepted == Some(false)
    ensures
      var forgotten := After(lib, g, Forget(ask.site));
      var prompted := After(lib, forgotten, ask);
      && Step(lib, forgotten, ask).1.accepted == None
      && prompted == forgotten.(pending := forgotten.pending[ask.id := Request(ask.site, ask.key)])
      && (answer.Answer? && answer.id == ask.id && Lawful(lib)
          && Records(lib, prompted, answer) && Writable(prompted, answer) && ReadsBack(prompted, answer) ==>
            && Step(lib, prompted, answer).1.accepted == Some(true)
            && VerdictIn(lib, After(lib, prompted, answer).contents, ask.site, ask.key.data) == Trusted)
  {
    RemoveForgets(lib, g.contents, ask.site, ask.key.data);
    var forgotten := After(lib, g, Forget(ask.site));
    var prompted := forgotten.(pending := forgotten.pending[ask.id := Request(ask.site, ask.key)]);
    assert After(lib, forgotten, ask) == prompted;
    if answer.Answer? && answer.id == ask.id && Lawful(lib)
       && Records(lib, prompted, answer) && Writable(prompted, answer) && ReadsBack(prompted, answer) {
      AnswerRecovers(lib, prompted, answer);
    }
  }
}
