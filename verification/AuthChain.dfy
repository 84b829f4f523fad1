/**
  The authentication chain (crates/core-ssh/src/session.rs): the configured methods are worked through in
  order, and a method the server has said it does not offer is skipped.

  The server is one that follows section 5.1 of RFC 4252: a fixed set of methods, named in every rejection.
  It closes the connection after a number of failed tries.
 */
module AuthChain {
  import opened Options
  import opened Text

  /** The methods a server may offer; the chain itself uses two of them. */
  datatype Kind = NoneKind | PasswordKind | PublicKeyKind | HostBasedKind | KeyboardInteractiveKind

  /** `answersLast`: whether the try that closes the connection is still answered with a rejection. */
  datatype Server = Server(
    allowed: set<Kind>, accepts: set<string>, limit: nat, answersLast: bool, goneError: string)

  datatype Loaded = Key(credential: string) | Unreadable(error: string)

  /** A certificate identity is passed over; an identity the agent cannot sign with fails locally. */
  datatype Identity = Certificate | Signs(credential: string) | Refuses(error: string)

  datatype Identities = Held(list: seq<Identity>) | NoAgent(error: string)

  datatype Method =
    | Password(secret: string)
    | KeyFile(path: string, key: Loaded)
    | Agent(identities: Identities)

  function MethodKind(m: Method): Kind {
    match m
    case Password(_) => PasswordKind
    case KeyFile(_, _) => PublicKeyKind
    case Agent(_) => PublicKeyKind
  }

  function MethodLabel(m: Method): string {
    match m
    case Password(_) => "password"
    case KeyFile(path, _) => "key " + path
    case Agent(_) => "agent"
  }

  /** `Failed`: the attempt was not answered by the server. */
  datatype Verdict = Success | Rejected(remaining: set<Kind>) | Failed(error: string)

  // ---------------------------------------------------------------- one credential, one method

  /** What the server does with one credential when `tries` have failed before, and the failed tries after. */
  function Offer(s: Server, tries: nat, kind: Kind, credential: string): (Verdict, nat) {
    if tries >= s.limit then (Failed(s.goneError), tries)
    else if kind in s.allowed && credential in s.accepts then (Success, tries)
    else if tries + 1 < s.limit || s.answersLast then (Rejected(s.allowed), tries + 1)
    else (Failed(s.goneError), tries + 1)
  }

  /** The agent's identities so far: the last rejection, the last error, the failed tries. */
  datatype AgentState = AgentState(won: bool, last: Option<set<Kind>>, lastError: string, tries: nat)

  function AgentStep(s: Server, st: AgentState, id: Identity): AgentState {
    if st.won then st
    else
      match id
      case Certificate => st
      case Refuses(e) => st.(lastError := e)
      case Signs(c) =>
        var (v, t) := Offer(s, st.tries, PublicKeyKind, c);
        match v
        case Success => st.(won := true, tries := t)
        case Rejected(r) => st.(last := Some(r), tries := t)
        case Failed(e) => st.(lastError := e, tries := t)
  }

  function AgentUpTo(s: Server, tries: nat, ids: seq<Identity>, n: nat): AgentState
    requires n <= |ids|
  {
    if n == 0 then AgentState(false, None, "no usable identities", tries)
    else AgentStep(s, AgentUpTo(s, tries, ids, n - 1), ids[n - 1])
  }

  function AgentVerdict(st: AgentState): Verdict {
    if st.won then Success
    else
      match st.last
      case Some(r) => Rejected(r)
      case None => Failed(st.lastError)
  }

  function Attempt(s: Server, tries: nat, m: Method): (Verdict, nat) {
    match m
    case Password(secret) => Offer(s, tries, PasswordKind, secret)
    case KeyFile(_, Unreadable(e)) => (Failed(e), tries)
    case KeyFile(_, Key(c)) => Offer(s, tries, PublicKeyKind, c)
    case Agent(NoAgent(e)) => (Failed(e), tries)
    case Agent(Held(ids)) =>
      if ids == [] then (Failed("no identities loaded"), tries)
      else
        var st := AgentUpTo(s, tries, ids, |ids|);
        (AgentVerdict(st), st.tries)
  }

  // ---------------------------------------------------------------- the chain

  datatype Chain = Chain(won: Option<nat>, offered: Option<set<Kind>>, log: seq<string>, tries: nat)

  predicate Skips(offered: Option<set<Kind>>, m: Method) {
    offered.Some? && offered.value != {} && MethodKind(m) !in offered.value
  }

  function Entry(m: Method, reason: string): string {
    MethodLabel(m) + ": " + reason
  }

  /** The `i`-th method's turn. A chain with `skipping` off tries every method. */
  function Turn(s: Server, skipping: bool, c: Chain, i: nat, m: Method): Chain {
    if c.won.Some? then c
    else if skipping && Skips(c.offered, m) then c.(log := c.log + [Entry(m, "not offered by server")])
    else
      var (v, t) := Attempt(s, c.tries, m);
      match v
      case Success => c.(won := Some(i), tries := t)
      case Rejected(r) => c.(offered := Some(r), log := c.log + [Entry(m, "rejected")], tries := t)
      case Failed(e) => c.(log := c.log + [Entry(m, e)], tries := t)
  }

  /** The chain after its first `n` methods. */
  function After(s: Server, skipping: bool, tries: nat, methods: seq<Method>, n: nat): Chain
    requires n <= |methods|
  {
    if n == 0 then Chain(None, None, [], tries)
    else Turn(s, skipping, After(s, skipping, tries, methods, n - 1), n - 1, methods[n - 1])
  }

  datatype Result = Accepted | AuthFailed(detail: string)

  function Detail(log: seq<string>): string {
    if log == [] then "no authentication methods configured" else Join(log, "; ")
  }

  lemma {:induction false} WonStays(s: Server, tries: nat, ids: seq<Identity>, m: nat, n: nat)
    requires m <= n <= |ids| && AgentUpTo(s, tries, ids, m).won
    ensures AgentUpTo(s, tries, ids, n) == AgentUpTo(s, tries, ids, m)
  {
    if m < n {
      WonStays(s, tries, ids, m, n - 1);
    }
  }

  lemma {:induction false} WinStays(s: Server, skipping: bool, tries: nat, methods: seq<Method>, m: nat, n: nat)
    requires m <= n <= |methods| && After(s, skipping, tries, methods, m).won.Some?
    ensures After(s, skipping, tries, methods, n) == After(s, skipping, tries, methods, m)
  {
    if m < n {
      WinStays(s, skipping, tries, methods, m, n - 1);
    }
  }

  // ---------------------------------------------------------------- the connection

  class Handle {
    const server: Server
    var tries: nat

    constructor (server: Server)
      ensures this.server == server && tries == 0
    {
      this.server, tries := server, 0;
    }

    method AuthenticateWith(kind: Kind, credential: string) returns (v: Verdict)
      modifies this
      ensures (v, tries) == Offer(server, old(tries), kind, credential)
    {
      if tries >= server.limit {
        return Failed(server.goneError);
      }
      if kind in server.allowed && credential in server.accepts {
        return Success;
      }
      tries := tries + 1;
      return if tries < server.limit || server.answersLast then Rejected(server.allowed) else Failed(server.goneError);
    }

    /** Each identity in turn until one is accepted. */
    method AuthenticateWithAgent(identities: Identities) returns (v: Verdict)
      modifies this
      ensures (v, tries) == Attempt(server, old(tries), Agent(identities))
    {
      if identities.NoAgent? {
        return Failed(identities.error);
      }
      var ids := identities.list;
      if ids == [] {
        return Failed("no identities loaded");
      }
      var last: Option<set<Kind>> := None;
      var lastError := "no usable identities";
      for i := 0 to |ids|
        invariant AgentState(false, last, lastError, tries) == AgentUpTo(server, old(tries), ids, i)
      {
        match ids[i]
        case Certificate =>
        case Refuses(e) => lastError := e;
        case Signs(c) =>
          var answer := AuthenticateWith(PublicKeyKind, c);
          match answer {
            case Success =>
              WonStays(server, old(tries), ids, i + 1, |ids|);
              return Success;
            case Rejected(r) => last := Some(r);
            case Failed(e) => lastError := e;
          }
      }
      return if last.Some? then Rejected(last.value) else Failed(lastError);
    }

    method TryMethod(m: Method) returns (v: Verdict)
      modifies this
      ensures (v, tries) == Attempt(server, old(tries), m)
    {
      match m
      case Password(secret) => v := AuthenticateWith(PasswordKind, secret);
      case Agent(identities) => v := AuthenticateWithAgent(identities);
      case KeyFile(_, key) =>
        match key {
          case Unreadable(e) => v := Failed(e);
          case Key(c) => v := AuthenticateWith(PublicKeyKind, c);
        }
    }

    /** Each configured method has its turn until one is accepted or the connection is gone. */
    method Authenticate(methods: seq<Method>) returns (r: Result)
      modifies this
      ensures
        var end := After(server, true, old(tries), methods, |methods|);
        tries == end.tries && r == if end.won.Some? then Accepted else AuthFailed(Detail(end.log))
    {
      var offered: Option<set<Kind>> := None;
      var attempts: seq<string> := [];
      for i := 0 to |methods|
        invariant Chain(None, offered, attempts, tries) == After(server, true, old(tries), methods, i)
      {
        var m := methods[i];
        if offered.Some? && offered.value != {} && MethodKind(m) !in offered.value {
          attempts := attempts + [Entry(m, "not offered by server")];
          continue;
        }
        var v := TryMethod(m);
        match v
        case Success =>
          WinStays(server, true, old(tries), methods, i + 1, |methods|);
          return Accepted;
        case Rejected(remaining) =>
          attempts := attempts + [Entry(m, "rejected")];
          offered := Some(remaining);
        case Failed(e) =>
          attempts := attempts + [Entry(m, e)];
      }
      return AuthFailed(Detail(attempts));
    }
  }

  // ---------------------------------------------------------------- what one attempt can do

  /** Two connections to one server, the first with no more failed tries: the second is closed if they differ. */
  predicate Ahead(s: Server, a: (Verdict, nat), b: (Verdict, nat)) {
    && a.1 <= b.1
    && (b.0 == Success ==> a.0 == Success)
    && (a.0 == Success ==> b.0 == Success || b.1 >= s.limit)
  }

  lemma {:induction false} AgentAhead(s: Server, t: nat, u: nat, ids: seq<Identity>, n: nat)
    requires t <= u && n <= |ids|
    ensures
      var (a, b) := (AgentUpTo(s, t, ids, n), AgentUpTo(s, u, ids, n));
      a.tries <= b.tries && (b.won ==> a.won) && (a.won ==> b.won || b.tries >= s.limit)
  {
    if n > 0 {
      AgentAhead(s, t, u, ids, n - 1);
    }
  }

  /** Fewer failed tries before an attempt never lose it, and leave fewer after it. */
  lemma AttemptAhead(s: Server, t: nat, u: nat, m: Method)
    requires t <= u
    ensures Ahead(s, Attempt(s, t, m), Attempt(s, u, m))
  {
    if m.Agent? && m.identities.Held? {
      AgentAhead(s, t, u, m.identities.list, |m.identities.list|);
    }
  }

  /** Everything the server says names its own methods; no attempt takes a failed try back. */
  lemma {:induction false} AgentSound(s: Server, t: nat, ids: seq<Identity>, n: nat)
    requires n <= |ids|
    ensures
      var a := AgentUpTo(s, t, ids, n);
      && t <= a.tries
      && (a.last.Some? ==> a.last.value == s.allowed)
      && (a.won ==> PublicKeyKind in s.allowed && t < s.limit)
  {
    if n > 0 {
      AgentSound(s, t, ids, n - 1);
    }
  }

  lemma AttemptSound(s: Server, t: nat, m: Method)
    ensures
      var (v, u) := Attempt(s, t, m);
      && t <= u
      && (v.Rejected? ==> v.remaining == s.allowed)
      && (v.Success? ==> MethodKind(m) in s.allowed && t < s.limit)
  {
    if m.Agent? && m.identities.Held? {
      AgentSound(s, t, m.identities.list, |m.identities.list|);
    }
  }

  // ---------------------------------------------------------------- skipping against trying everything

  /**
    The skipping chain `a` beside the chain `b` that tries everything: they have won at the same method, or
    only `a` has and the server has closed `b`, or neither has; `a` never has more failed tries.
   */
  predicate Beside(s: Server, a: Chain, b: Chain) {
    && a.tries <= b.tries
    && (b.won.Some? ==> a.won == b.won)
    && (a.won.Some? ==> a.won == b.won || b.tries >= s.limit)
    && (a.offered.Some? ==> a.offered.value == s.allowed)
  }

  lemma TurnBeside(s: Server, a: Chain, b: Chain, i: nat, m: Method)
    requires Beside(s, a, b)
    ensures Beside(s, Turn(s, true, a, i, m), Turn(s, false, b, i, m))
  {
    AttemptSound(s, a.tries, m);
    AttemptSound(s, b.tries, m);
    AttemptAhead(s, a.tries, b.tries, m);
  }

  lemma {:induction false} ChainsBeside(s: Server, tries: nat, methods: seq<Method>, n: nat)
    requires n <= |methods|
    ensures Beside(s, After(s, true, tries, methods, n), After(s, false, tries, methods, n))
  {
    if n > 0 {
      ChainsBeside(s, tries, methods, n - 1);
      TurnBeside(s, After(s, true, tries, methods, n - 1), After(s, false, tries, methods, n - 1), n - 1,
                 methods[n - 1]);
    }
  }

  /** Skipping costs no login: what trying everything wins, skipping wins with the same method and no more tries. */
  lemma SkippingLosesNothing(s: Server, tries: nat, methods: seq<Method>)
    ensures
      var (a, b) := (After(s, true, tries, methods, |methods|), After(s, false, tries, methods, |methods|));
      && (b.won.Some? ==> a.won == b.won)
      && a.tries <= b.tries
  {
    ChainsBeside(s, tries, methods, |methods|);
  }

  /** And gains one only where trying everything runs into the limit. */
  lemma SkippingGainsOnlyAtTheLimit(s: Server, tries: nat, methods: seq<Method>)
    ensures
      var (a, b) := (After(s, true, tries, methods, |methods|), After(s, false, tries, methods, |methods|));
      b.tries < s.limit ==> a.won == b.won
  {
    ChainsBeside(s, tries, methods, |methods|);
  }

  /** The chain of the code's own comment: a password try spent for nothing closes the door on the second key. */
  lemma SkippingCanWin(good: string, bad: string)
    requires good != bad
    ensures
      var s := Server({PublicKeyKind}, {good}, 2, false, "closed");
      var methods := [KeyFile("a", Key(bad)), Password("p"), KeyFile("b", Key(good))];
      After(s, true, 0, methods, 3).won == Some(2) && After(s, false, 0, methods, 3).won == None
  {
    var s := Server({PublicKeyKind}, {good}, 2, false, "closed");
    var methods := [KeyFile("a", Key(bad)), Password("p"), KeyFile("b", Key(good))];
    assert Offer(s, 0, PublicKeyKind, bad) == (Rejected({PublicKeyKind}), 1);
    assert After(s, true, 0, methods, 0) == After(s, false, 0, methods, 0) == Chain(None, None, [], 0);
    var a1, b1 := After(s, true, 0, methods, 1), After(s, false, 0, methods, 1);
    assert a1 == b1 && a1.won == None && a1.offered == Some({PublicKeyKind}) && a1.tries == 1;
    var a2, b2 := After(s, true, 0, methods, 2), After(s, false, 0, methods, 2);
    assert a2.won == None && a2.offered == Some({PublicKeyKind}) && a2.tries == 1;
    assert b2.won == None && b2.tries == 2;
  }

  // ---------------------------------------------------------------- the failure message

  predicate ExplainsTry(s: Server, m: Method, t: nat, entry: string) {
    match Attempt(s, t, m).0
    case Success => false
    case Rejected(_) => entry == Entry(m, "rejected")
    case Failed(e) => entry == Entry(m, e)
  }

  /** Why a method that did not win is in the log. */
  ghost predicate Explains(s: Server, m: Method, entry: string) {
    || (entry == Entry(m, "not offered by server") && s.allowed != {} && MethodKind(m) !in s.allowed)
    || exists t: nat :: ExplainsTry(s, m, t, entry)
  }

  ghost predicate EntriesExplained(s: Server, methods: seq<Method>, log: seq<string>)
    requires |log| <= |methods|
  {
    forall i | 0 <= i < |log| :: Explains(s, methods[i], log[i])
  }

  ghost predicate LogExplained(s: Server, methods: seq<Method>, c: Chain, n: nat)
    requires n <= |methods|
  {
    && (c.offered.Some? ==> c.offered.value == s.allowed)
    && |c.log| == (if c.won.Some? then c.won.value else n) <= n
    && EntriesExplained(s, methods, c.log)
  }

  lemma OneMoreEntry(s: Server, methods: seq<Method>, log: seq<string>, e: string)
    requires |log| < |methods| && EntriesExplained(s, methods, log) && Explains(s, methods[|log|], e)
    ensures EntriesExplained(s, methods, log + [e])
  {
  }

  lemma TurnExplained(s: Server, c: Chain, i: nat, m: Method) returns (e: string)
    requires c.won.None? && Turn(s, true, c, i, m).won.None? && (c.offered.Some? ==> c.offered.value == s.allowed)
    ensures Turn(s, true, c, i, m).log == c.log + [e] && Explains(s, m, e)
  {
    if Skips(c.offered, m) {
      return Entry(m, "not offered by server");
    }
    var v := Attempt(s, c.tries, m).0;
    e := Entry(m, if v.Rejected? then "rejected" else v.error);
    assert ExplainsTry(s, m, c.tries, e);
  }

  /**
    The log has one entry for each method before the one that won, or for every method when none did, in
    order, with the method's own label; a method is skipped only if the server does not offer its kind.
   */
  lemma {:induction false} OneEntryPerMethod(s: Server, tries: nat, methods: seq<Method>, n: nat)
    requires n <= |methods|
    ensures LogExplained(s, methods, After(s, true, tries, methods, n), n)
  {
    if n > 0 {
      OneEntryPerMethod(s, tries, methods, n - 1);
      var c := After(s, true, tries, methods, n - 1);
      AttemptSound(s, c.tries, methods[n - 1]);
      if c.won.None? && Turn(s, true, c, n - 1, methods[n - 1]).won.None? {
        var e := TurnExplained(s, c, n - 1, methods[n - 1]);
        OneMoreEntry(s, methods, c.log, e);
      }
    }
  }

  /** An entry begins with its method's name, which for a key is its path and for a password tells nothing of it. */
  lemma EntryNames(reason: string, path: string, key: Loaded, secret: string, ids: Identities)
    ensures Entry(Password(secret), reason) == "password: " + reason
    ensures Entry(KeyFile(path, key), reason) == "key " + path + ": " + reason
    ensures Entry(Agent(ids), reason) == "agent: " + reason
  {
    assert "password" + ": " == "password: " && "agent" + ": " == "agent: ";
  }

  /** The failure message lists the entries in order, a semicolon and a blank between two of them. */
  lemma DetailLists(first: string, rest: seq<string>)
    ensures Detail([]) == "no authentication methods configured"
    ensures Detail([first]) == first
    ensures rest != [] ==> Detail([first] + rest) == first + "; " + Detail(rest)
  {
    assert ([first] + rest)[1..] == rest;
  }

  /** A server that takes no credential, and offers keys only. */
  const REFUSER := Server({PublicKeyKind}, {}, 6, true, "closed")

  lemma RefuserTurns(key: Method, password: Method, agent: Method, gone: string, absent: string)
    requires key.KeyFile? && key.key == Unreadable(gone) && password.Password? && agent == Agent(NoAgent(absent))
    ensures
      var offered := Some({PublicKeyKind});
      var log := [Entry(key, gone)];
      && Turn(REFUSER, true, Chain(None, None, [], 0), 0, key) == Chain(None, None, log, 0)
      && Turn(REFUSER, true, Chain(None, None, log, 0), 1, password)
         == Chain(None, offered, log + [Entry(password, "rejected")], 1)
      && Turn(REFUSER, true, Chain(None, offered, log, 1), 2, agent)
         == Chain(None, offered, log + [Entry(agent, absent)], 1)
      && Turn(REFUSER, true, Chain(None, offered, log, 1), 3, password)
         == Chain(None, offered, log + [Entry(password, "not offered by server")], 1)
  {
    assert Offer(REFUSER, 0, PasswordKind, password.secret) == (Rejected({PublicKeyKind}), 1);
    assert [] + [Entry(key, gone)] == [Entry(key, gone)];
  }

  lemma LogDoesNotSteer(s: Server, c: Chain, i: nat, m: Method, log: seq<string>)
    requires c.won.None?
    ensures
      var d, e := Turn(s, true, c, i, m), Turn(s, true, c.(log := log), i, m);
      && d.won == e.won && d.offered == e.offered && d.tries == e.tries
      && c.log <= d.log && e.log == log + d.log[|c.log|..]
  {
  }

  /**
    A chain that fails: an unreadable key, a password the server rejects because it offers keys only, an agent that is
    not running, and a second password, which is skipped by then. The log says so, method by method.
   */
  lemma FailureReads(key: Method, password: Method, agent: Method, gone: string, absent: string)
    requires key.KeyFile? && key.key == Unreadable(gone) && password.Password? && agent == Agent(NoAgent(absent))
    ensures
      var end := After(REFUSER, true, 0, [key, password, agent, password], 4);
      && end.won == None && end.tries == 1
      && end.log == [Entry(key, gone), Entry(password, "rejected"), Entry(agent, absent),
                     Entry(password, "not offered by server")]
  {
    RefuserTurns(key, password, agent, gone, absent);
    var methods, offered := [key, password, agent, password], Some({PublicKeyKind});
    var log := [Entry(key, gone)];
    var log2 := log + [Entry(password, "rejected")];
    var log3 := log2 + [Entry(agent, absent)];
    assert After(REFUSER, true, 0, methods, 0) == Chain(None, None, [], 0);
    assert After(REFUSER, true, 0, methods, 1) == Chain(None, None, log, 0);
    assert After(REFUSER, true, 0, methods, 2) == Chain(None, offered, log2, 1);
    LogDoesNotSteer(REFUSER, Chain(None, offered, log, 1), 2, agent, log2);
    assert After(REFUSER, true, 0, methods, 3) == Chain(None, offered, log3, 1);
    LogDoesNotSteer(REFUSER, Chain(None, offered, log, 1), 3, password, log3);
  }

  // ---------------------------------------------------------------- who wins

  predicate SomeAccepted(s: Server, ids: seq<Identity>, n: nat)
    requires n <= |ids|
  {
    exists i | 0 <= i < n :: ids[i].Signs? && ids[i].credential in s.accepts
  }

  /** The server would take something the method has to show. */
  predicate Acceptable(s: Server, m: Method) {
    MethodKind(m) in s.allowed &&
    match m
    case Password(secret) => secret in s.accepts
    case KeyFile(_, Unreadable(_)) => false
    case KeyFile(_, Key(c)) => c in s.accepts
    case Agent(NoAgent(_)) => false
    case Agent(Held(ids)) => SomeAccepted(s, ids, |ids|)
  }

  lemma {:induction false} AgentWins(s: Server, t: nat, ids: seq<Identity>, n: nat)
    requires n <= |ids|
    ensures
      var a := AgentUpTo(s, t, ids, n);
      && (a.won ==> PublicKeyKind in s.allowed && SomeAccepted(s, ids, n))
      && (a.tries < s.limit && PublicKeyKind in s.allowed && SomeAccepted(s, ids, n) ==> a.won)
  {
    if n > 0 {
      AgentWins(s, t, ids, n - 1);
      assert SomeAccepted(s, ids, n) <==>
             SomeAccepted(s, ids, n - 1) || (ids[n - 1].Signs? && ids[n - 1].credential in s.accepts);
    }
  }

  lemma AttemptWins(s: Server, t: nat, m: Method)
    ensures
      var (v, u) := Attempt(s, t, m);
      && (v.Success? ==> Acceptable(s, m))
      && (u < s.limit && Acceptable(s, m) ==> v.Success?)
  {
    if m.Agent? && m.identities.Held? {
      AgentWins(s, t, m.identities.list, |m.identities.list|);
    }
  }

  predicate NoneAcceptable(s: Server, methods: seq<Method>, n: nat)
    requires n <= |methods|
  {
    forall i | 0 <= i < n :: !Acceptable(s, methods[i])
  }

  /**
    After `n` methods: what has won is acceptable, and as long as the connection is open no acceptable
    method has been passed over.
   */
  predicate WonFairly(s: Server, methods: seq<Method>, c: Chain, n: nat)
    requires n <= |methods|
  {
    && (c.offered.Some? ==> c.offered.value == s.allowed)
    && (c.won.Some? ==> c.won.value < n && Acceptable(s, methods[c.won.value]))
    && (c.tries < s.limit ==> NoneAcceptable(s, methods, if c.won.Some? then c.won.value else n))
  }

  lemma TurnWinsFairly(s: Server, skipping: bool, methods: seq<Method>, c: Chain, n: nat)
    requires n < |methods| && WonFairly(s, methods, c, n)
    ensures WonFairly(s, methods, Turn(s, skipping, c, n, methods[n]), n + 1)
  {
    AttemptSound(s, c.tries, methods[n]);
    AttemptWins(s, c.tries, methods[n]);
  }

  /** The first acceptable method wins, unless the server has closed the connection before. */
  lemma {:induction false} FirstAcceptableWins(s: Server, skipping: bool, tries: nat, methods: seq<Method>, n: nat)
    requires n <= |methods|
    ensures WonFairly(s, methods, After(s, skipping, tries, methods, n), n)
  {
    if n > 0 {
      FirstAcceptableWins(s, skipping, tries, methods, n - 1);
      TurnWinsFairly(s, skipping, methods, After(s, skipping, tries, methods, n - 1), n - 1);
    }
  }

  // ---------------------------------------------------------------- what an agent that does not win reports

  predicate SomeOffered(ids: seq<Identity>, n: nat)
    requires n <= |ids|
  {
    exists i | 0 <= i < n :: ids[i].Signs?
  }

  predicate NoneSays(ids: seq<Identity>, from: nat, n: nat)
    requires from <= n <= |ids|
  {
    forall i | from <= i < n :: ids[i].Certificate?
  }

  lemma {:induction false} QuietUpTo(s: Server, tries: nat, ids: seq<Identity>, from: nat, n: nat)
    requires from <= n <= |ids| && NoneSays(ids, from, n)
    ensures AgentUpTo(s, tries, ids, n) == AgentUpTo(s, tries, ids, from)
  {
    if from < n {
      QuietUpTo(s, tries, ids, from, n - 1);
    }
  }

  lemma {:induction false} AgentStateUpTo(s: Server, tries: nat, ids: seq<Identity>, n: nat)
    requires n <= |ids| && !SomeAccepted(s, ids, |ids|) && tries + |ids| < s.limit
    ensures
      var st := AgentUpTo(s, tries, ids, n);
      && !st.won && tries <= st.tries <= tries + n
      && st.last == if SomeOffered(ids, n) then Some(s.allowed) else None
  {
    if n > 0 {
      AgentStateUpTo(s, tries, ids, n - 1);
      assert SomeOffered(ids, n) <==> SomeOffered(ids, n - 1) || ids[n - 1].Signs?;
    }
  }

  /**
    An agent whose identities the server takes none of: if one of them was offered at all the method counts as rejected,
    whatever failed besides; if none was, it failed with the last error, or for want of usable identities.
   */
  lemma AgentReports(s: Server, tries: nat, ids: seq<Identity>, k: nat)
    requires ids != [] && !SomeAccepted(s, ids, |ids|) && tries + |ids| < s.limit
    ensures
      var verdict := Attempt(s, tries, Agent(Held(ids))).0;
      && (SomeOffered(ids, |ids|) ==> verdict == Rejected(s.allowed))
      && (NoneSays(ids, 0, |ids|) ==> verdict == Failed("no usable identities"))
      && (!SomeOffered(ids, |ids|) && k < |ids| && ids[k].Refuses? && NoneSays(ids, k + 1, |ids|) ==>
            verdict == Failed(ids[k].error))
  {
    AgentStateUpTo(s, tries, ids, |ids|);
    if NoneSays(ids, 0, |ids|) {
      QuietUpTo(s, tries, ids, 0, |ids|);
    }
    if k < |ids| && ids[k].Refuses? && NoneSays(ids, k + 1, |ids|) {
      QuietUpTo(s, tries, ids, k + 1, |ids|);
      AgentStateUpTo(s, tries, ids, k);
    }
  }
}
