/**
  The session supervisor (`supervise` in apps/desktop/src/commands.rs): pump a transport's output, and on
  a drop make attempt after attempt, until the transport is back or no attempt is left.

  The world answers through a script: how each generation of the transport ended and how each attempt to
  bring it back went. A script that runs out leaves the supervisor waiting, so every script stands for a
  run observed up to some moment.
 */
module Supervisor {
  import opened Options
  import opened Reconnect

  datatype Event =
    | Reconnecting(attempt: u32, maxAttempts: u32, delay: real)
    | Connected
    | Disconnected(reason: string)
    | SessionExited(code: Option<u32>)

  /** How pumping one generation stopped, and what was found then. */
  datatype PumpStop =
    | TabClosed                                    // the shutdown channel fired
    | SinkGone                                     // the webview's queue is gone
    | OutputEnded(shutdown: bool, status: Option<u32>, transportClosed: bool)

  /** What calling the reconnector leads to. */
  datatype Answer =
    | Established
    | Failed(retryable: bool, message: string, rand01: Float)

  /** One turn of the retry loop: whether shutdown is seen during or right after the delay, and the answer if not. */
  datatype Attempt = Attempt(shutdown: bool, answer: Answer)

  datatype Generation = Generation(stop: PumpStop, rand01: Float, attempts: seq<Attempt>)

  datatype OutageEnd = Back | Over | Waiting

  const LOST := "connection lost"

  const NO_JITTER := NotFinite

  /** The retry loop from attempt record `j` on, with the decision just taken. */
  function Outage(p: Policy, attempts: seq<Attempt>, j: nat, d: Decision, reason: string): (seq<Event>, OutageEnd)
    requires j <= |attempts|
    decreases |attempts| - j
  {
    match d
    case GiveUp => ([Disconnected(reason)], Over)
    case Exit(code) => ([SessionExited(code)], Over)
    case Retry(n, delay) =>
      var e := [Reconnecting(n, p.maxAttempts, delay)];
      if j == |attempts| then (e, Waiting)
      else
        if attempts[j].shutdown then (e, Over)
        else
          match attempts[j].answer
          case Established => (e, Back)
          case Failed(retryable, message, rand01) =>
            var rest := Outage(p, attempts, j + 1, AfterFailedAttempt(p, n, retryable, rand01), message);
            (e + rest.0, rest.1)
  }

  /** How often the reconnector is called from attempt record `j` on. */
  function Calls(p: Policy, attempts: seq<Attempt>, j: nat, d: Decision): nat
    requires j <= |attempts|
    decreases |attempts| - j
  {
    if !d.Retry? || j == |attempts| || attempts[j].shutdown then 0
    else
      match attempts[j].answer
      case Established => 1
      case Failed(retryable, _, rand01) =>
        1 + Calls(p, attempts, j + 1, AfterFailedAttempt(p, d.attempt, retryable, rand01))
  }

  /** The pump's end, classified by exit status and transport. */
  function Classify(status: Option<u32>, transportClosed: bool): PumpEnd {
    if status.Some? then Exited(status) else if transportClosed then Dropped else Exited(None)
  }

  /** The events of the run from generation `i` on. */
  function Run(p: Policy, reconnector: bool, script: seq<Generation>, i: nat): seq<Event>
    requires i <= |script|
    decreases |script| - i
  {
    if i == |script| then []
    else
      match script[i].stop
      case TabClosed => []
      case SinkGone => []
      case OutputEnded(shutdown, status, transportClosed) =>
        if shutdown then []
        else
          match Classify(status, transportClosed)
          case Exited(code) => [SessionExited(code)]
          case Dropped =>
            if !reconnector then [Disconnected(LOST)]
            else
              var (events, end) := Outage(p, script[i].attempts, 0, Decide(p, Dropped, 1, script[i].rand01), LOST);
              if end == Back then events + [Connected] + Run(p, reconnector, script, i + 1) else events
  }

  /** The transport was lost while the tab was open. */
  predicate Drops(stop: PumpStop) {
    stop.OutputEnded? && !stop.shutdown && Classify(stop.status, stop.transportClosed).Dropped?
  }

  /** How often the reconnector is called from generation `i` on. */
  function RunCalls(p: Policy, reconnector: bool, script: seq<Generation>, i: nat): nat
    requires i <= |script|
    decreases |script| - i
  {
    if i == |script| || !Drops(script[i].stop) || !reconnector then 0
    else
      var d := Decide(p, Dropped, 1, script[i].rand01);
      Calls(p, script[i].attempts, 0, d)
      + if Outage(p, script[i].attempts, 0, d, LOST).1 == Back then RunCalls(p, reconnector, script, i + 1) else 0
  }

  function ConnectedCount(es: seq<Event>): nat {
    if es == [] then 0 else ConnectedCount(es[..|es| - 1]) + (if es[|es| - 1].Connected? then 1 else 0)
  }

  // ---------------------------------------------------------------- what the end of the output means

  /**
    From the way a generation stops alone. A status is a clean exit, whatever became of the transport; no status on an
    open transport is one without a code; a closed tab, a lost webview and a shutdown that is seen say nothing.
    None of these calls the reconnector. No status on a closed transport is a drop: the end of the session without a
    reconnector, and with one an outage, from the first attempt on, of which nothing is left out.
   */
  lemma StopMeans(p: Policy, reconnector: bool, script: seq<Generation>, i: nat)
    requires i < |script|
    ensures
      var said, calls := Run(p, reconnector, script, i), RunCalls(p, reconnector, script, i);
      match script[i].stop
      case TabClosed => said == [] && calls == 0
      case SinkGone => said == [] && calls == 0
      case OutputEnded(true, _, _) => said == [] && calls == 0
      case OutputEnded(false, Some(code), _) => said == [SessionExited(Some(code))] && calls == 0
      case OutputEnded(false, None, false) => said == [SessionExited(None)] && calls == 0
      case OutputEnded(false, None, true) =>
        if !reconnector then said == [Disconnected(LOST)] && calls == 0
        else if !p.enabled || p.maxAttempts == 0 then said == [Disconnected(LOST)] && calls == 0
        else
          var delay := Delay(p.backoff, 1, script[i].rand01);
          var (es, end) := Outage(p, script[i].attempts, 0, Retry(1, delay), LOST);
          && es != [] && es[0] == Reconnecting(1, p.maxAttempts, delay)
          && said == (if end == Back then es + [Connected] + Run(p, reconnector, script, i + 1) else es)
  {
  }

  /** What one turn of the retry loop leads to, from its record alone. */
  lemma TurnMeans(p: Policy, attempts: seq<Attempt>, j: nat, n: u32, delay: real, reason: string)
    requires j < |attempts| && p.maxAttempts < U32_MAX && 1 <= n <= p.maxAttempts && p.enabled
    ensures
      var announced := Reconnecting(n, p.maxAttempts, delay);
      var (es, end) := Outage(p, attempts, j, Retry(n, delay), reason);
      match attempts[j]
      case Attempt(true, _) => es == [announced] && end == Over
      case Attempt(false, Established) => es == [announced] && end == Back
      case Attempt(false, Failed(false, message, _)) => es == [announced, Disconnected(message)] && end == Over
      case Attempt(false, Failed(true, message, rand01)) =>
        if n == p.maxAttempts then es == [announced, Disconnected(message)] && end == Over
        else
          var (more, last) := Outage(p, attempts, j + 1, Retry(n + 1, Delay(p.backoff, n + 1, rand01)), message);
          es == [announced] + more && end == last
  {
  }

  // ---------------------------------------------------------------- the language of a session

  predicate CanRetry(p: Policy, reconnector: bool) {
    reconnector && p.enabled && p.maxAttempts > 0
  }

  /** Which event may stand at position `i`, seen from its neighbours. */
  predicate Fits(p: Policy, reconnector: bool, es: seq<Event>, i: nat)
    requires i < |es|
  {
    match es[i]
    case Reconnecting(n, max, delay) =>
      && CanRetry(p, reconnector)
      && 1 <= n <= p.maxAttempts == max && 0.0 <= delay <= p.backoff.cap as real
      && (if n == 1 then i == 0 || es[i - 1].Connected?
          else i > 0 && es[i - 1].Reconnecting? && es[i - 1].attempt == n - 1)
    case Connected => i > 0 && es[i - 1].Reconnecting?
    case SessionExited(_) => i == |es| - 1 && (i == 0 || es[i - 1].Connected?)
    case Disconnected(reason) =>
      && i == |es| - 1
      && (if CanRetry(p, reconnector) then i > 0 && es[i - 1].Reconnecting? else i == 0 && reason == LOST)
  }

  /**
    The language: outages of attempts counted from one, each ended by Connected, and at the end nothing,
    an exit, an unfinished outage, or an outage given up.
   */
  predicate InLanguage(p: Policy, reconnector: bool, es: seq<Event>) {
    forall i | 0 <= i < |es| :: Fits(p, reconnector, es, i)
  }

  /** The events of an outage continue attempt `n - 1` (or open the outage when `n` is one). */
  predicate OutageShape(p: Policy, es: seq<Event>, n: nat, end: OutageEnd) {
    && (forall i | 0 <= i < |es| ::
          if es[i].Reconnecting? then
            && es[i].attempt == n + i <= p.maxAttempts == es[i].maxAttempts
            && 0.0 <= es[i].delay <= p.backoff.cap as real
          else es[i].Disconnected? && i == |es| - 1)
    && (end == Back ==> es != [] && es[|es| - 1].Reconnecting?)
  }

  lemma {:induction false} OutageHasShape(
      p: Policy, attempts: seq<Attempt>, j: nat, d: Decision, reason: string, n: nat)
    requires j <= |attempts| && p.maxAttempts < U32_MAX
    requires d.GiveUp? || (d.Retry? && 1 <= d.attempt == n <= p.maxAttempts && 0.0 <= d.delay <= p.backoff.cap as real)
    ensures OutageShape(p, Outage(p, attempts, j, d, reason).0, n, Outage(p, attempts, j, d, reason).1)
    ensures d.Retry? ==> Outage(p, attempts, j, d, reason).0 != []
    ensures d.Retry? ==> Outage(p, attempts, j, d, reason).0[0].Reconnecting?
    decreases |attempts| - j
  {
    if d.Retry? && j < |attempts| && !attempts[j].shutdown && attempts[j].answer.Failed? {
      var Failed(retryable, message, rand01) := attempts[j].answer;
      var next := AfterFailedAttempt(p, d.attempt, retryable, rand01);
      RetriesCountUp(p, d.attempt, retryable, rand01);
      OutageHasShape(p, attempts, j + 1, next, message, n + 1);
      var rest := Outage(p, attempts, j + 1, next, message);
      var e := [Reconnecting(d.attempt, p.maxAttempts, d.delay)];
      forall i | 0 <= i < |e + rest.0|
        ensures if (e + rest.0)[i].Reconnecting? then
                  && (e + rest.0)[i].attempt == n + i <= p.maxAttempts == (e + rest.0)[i].maxAttempts
                  && 0.0 <= (e + rest.0)[i].delay <= p.backoff.cap as real
                else (e + rest.0)[i].Disconnected? && i == |e + rest.0| - 1
      {
        assert i > 0 ==> (e + rest.0)[i] == rest.0[i - 1];
      }
    }
  }

  /** An outage by itself is a word of the language. */
  lemma OutageFits(p: Policy, g: Generation)
    requires p.maxAttempts < U32_MAX
    ensures
      var (es, end) := Outage(p, g.attempts, 0, Decide(p, Dropped, 1, g.rand01), LOST);
      && InLanguage(p, true, es)
      && (end == Back ==> es != [] && es[|es| - 1].Reconnecting?)
  {
    var d := Decide(p, Dropped, 1, g.rand01);
    if d.Retry? {
      DelayWithinCap(p.backoff, 1, g.rand01);
    }
    OutageHasShape(p, g.attempts, 0, d, LOST, 1);
  }

  /** An outage survived, then any word of the language, is a word of the language. */
  lemma Joined(p: Policy, es: seq<Event>, rest: seq<Event>)
    requires InLanguage(p, true, es) && InLanguage(p, true, rest)
    requires es != [] && es[|es| - 1].Reconnecting?
    ensures InLanguage(p, true, es + [Connected] + rest)
  {
    var all := es + [Connected] + rest;
    assert Fits(p, true, es, |es| - 1);
    forall i | 0 <= i < |all|
      ensures Fits(p, true, all, i)
    {
      if i < |es| {
        assert Fits(p, true, es, i);
        assert all[i] == es[i] && (i > 0 ==> all[i - 1] == es[i - 1]);
      } else if i > |es| {
        var k := i - |es| - 1;
        assert Fits(p, true, rest, k);
        assert all[i] == rest[k] && (k > 0 ==> all[i - 1] == rest[k - 1]);
      }
    }
  }

  lemma {:induction false} RunFits(p: Policy, reconnector: bool, script: seq<Generation>, i: nat)
    requires i <= |script| && p.maxAttempts < U32_MAX
    ensures InLanguage(p, reconnector, Run(p, reconnector, script, i))
    decreases |script| - i
  {
    if i < |script| {
      var g := script[i];
      OutageFits(p, g);
      RunFits(p, reconnector, script, i + 1);
      var (es, end) := Outage(p, g.attempts, 0, Decide(p, Dropped, 1, g.rand01), LOST);
      if reconnector && end == Back {
        Joined(p, es, Run(p, reconnector, script, i + 1));
      }
    }
  }

  /** Every run of the supervisor speaks the language. */
  lemma EveryRunInLanguage(p: Policy, reconnector: bool, script: seq<Generation>)
    requires p.maxAttempts < U32_MAX
    ensures InLanguage(p, reconnector, Run(p, reconnector, script, 0))
  {
    RunFits(p, reconnector, script, 0);
  }

  // ---------------------------------------------------------------- when an outage ends

  /**
    The attempts left are the measure of the retry loop: given as many answers as attempts remain, the
    outage is over or survived, and never left waiting.
   */
  lemma {:induction false} EnoughAnswersEndIt(p: Policy, attempts: seq<Attempt>, j: nat, d: Decision, reason: string)
    requires j <= |attempts| && p.maxAttempts < U32_MAX
    requires d.GiveUp? || (d.Retry? && 1 <= d.attempt <= p.maxAttempts && Remaining(p, d.attempt) < |attempts| - j)
    ensures Outage(p, attempts, j, d, reason).1 != Waiting
    decreases |attempts| - j
  {
    if d.Retry? && !attempts[j].shutdown && attempts[j].answer.Failed? {
      var Failed(retryable, message, rand01) := attempts[j].answer;
      RetriesCountUp(p, d.attempt, retryable, rand01);
      EnoughAnswersEndIt(p, attempts, j + 1, AfterFailedAttempt(p, d.attempt, retryable, rand01), message);
    }
  }

  // ---------------------------------------------------------------- the supervisor

  /** All of an outage: what it says, how it ends, how often it calls the reconnector. */
  datatype Story = Story(events: seq<Event>, end: OutageEnd, calls: nat)

  ghost function Whole(p: Policy, attempts: seq<Attempt>, j: nat, d: Decision, reason: string): Story
    requires j <= |attempts|
  {
    var (es, end) := Outage(p, attempts, j, d, reason);
    Story(es, end, Calls(p, attempts, j, d))
  }

  lemma ConnectedSnoc(es: seq<Event>, e: Event)
    ensures ConnectedCount(es + [e]) == ConnectedCount(es) + (if e.Connected? then 1 else 0)
  {
    assert (es + [e])[..|es|] == es;
  }

  /** An outage says that the connection is lost, retried or over; that it is back is said after it. */
  lemma {:induction false} OutageConnectsNothing(
      p: Policy, attempts: seq<Attempt>, j: nat, d: Decision, reason: string, said: seq<Event>)
    requires j <= |attempts|
    ensures ConnectedCount(said + Outage(p, attempts, j, d, reason).0) == ConnectedCount(said)
    decreases |attempts| - j
  {
    match d
    case GiveUp => ConnectedSnoc(said, Disconnected(reason));
    case Exit(code) => ConnectedSnoc(said, SessionExited(code));
    case Retry(n, delay) =>
      var e := Reconnecting(n, p.maxAttempts, delay);
      ConnectedSnoc(said, e);
      if j < |attempts| && !attempts[j].shutdown && attempts[j].answer.Failed? {
        var Failed(retryable, message, rand01) := attempts[j].answer;
        var next := AfterFailedAttempt(p, n, retryable, rand01);
        OutageConnectsNothing(p, attempts, j + 1, next, message, said + [e]);
        var rest := Outage(p, attempts, j + 1, next, message).0;
        assert said + ([e] + rest) == said + [e] + rest;
      }
  }

  /** After `said` and `called` the rest of the outage makes up the whole. */
  ghost predicate OnTrack(
      p: Policy, attempts: seq<Attempt>, j: nat, d: Decision, reason: string,
      said: seq<Event>, called: nat, goal: Story)
    requires j <= |attempts|
  {
    var rest := Whole(p, attempts, j, d, reason);
    said + rest.events == goal.events && rest.end == goal.end && called + rest.calls == goal.calls
  }

  /** A turn without a next one: what is said last, and the call that was answered. */
  lemma LastTurn(
      p: Policy, attempts: seq<Attempt>, j: nat, d: Decision, reason: string,
      said: seq<Event>, called: nat, goal: Story)
    requires j <= |attempts| && OnTrack(p, attempts, j, d, reason, said, called, goal)
    ensures d.GiveUp? ==> goal == Story(said + [Disconnected(reason)], Over, called)
    ensures d.Exit? ==> goal == Story(said + [SessionExited(d.code)], Over, called)
    ensures d.Retry? ==>
              var more := said + [Reconnecting(d.attempt, p.maxAttempts, d.delay)];
              && (j == |attempts| ==> goal == Story(more, Waiting, called))
              && (j < |attempts| && attempts[j].shutdown ==> goal == Story(more, Over, called))
              && (j < |attempts| && !attempts[j].shutdown && attempts[j].answer.Established? ==>
                    goal == Story(more, Back, called + 1))
  {
  }

  lemma FailedTurn(
      p: Policy, attempts: seq<Attempt>, j: nat, d: Decision, reason: string,
      said: seq<Event>, called: nat, goal: Story)
    requires j < |attempts| && d.Retry? && !attempts[j].shutdown && attempts[j].answer.Failed?
    requires OnTrack(p, attempts, j, d, reason, said, called, goal)
    ensures
      var Failed(retryable, message, rand01) := attempts[j].answer;
      OnTrack(p, attempts, j + 1, AfterFailedAttempt(p, d.attempt, retryable, rand01), message,
              said + [Reconnecting(d.attempt, p.maxAttempts, d.delay)], called + 1, goal)
  {
    var Failed(retryable, message, rand01) := attempts[j].answer;
    var e := Reconnecting(d.attempt, p.maxAttempts, d.delay);
    var rest := Whole(p, attempts, j + 1, AfterFailedAttempt(p, d.attempt, retryable, rand01), message);
    assert said + ([e] + rest.events) == said + [e] + rest.events;
  }

  /** What one generation says and does up to its successor. */
  ghost function Lived(p: Policy, reconnector: bool, g: Generation): Story {
    if !g.stop.OutputEnded? || g.stop.shutdown then Story([], Over, 0)
    else
      match Classify(g.stop.status, g.stop.transportClosed)
      case Exited(code) => Story([SessionExited(code)], Over, 0)
      case Dropped =>
        if !reconnector then Story([Disconnected(LOST)], Over, 0)
        else Whole(p, g.attempts, 0, Decide(p, Dropped, 1, g.rand01), LOST)
  }

  lemma RunIsLived(p: Policy, reconnector: bool, script: seq<Generation>, i: nat, said: seq<Event>)
    requires i < |script|
    ensures
      var now := Lived(p, reconnector, script[i]);
      var rest := Run(p, reconnector, script, i + 1);
      && said + Run(p, reconnector, script, i)
         == (if now.end.Back? then said + now.events + [Connected] + rest else said + now.events)
      && RunCalls(p, reconnector, script, i)
         == now.calls + (if now.end.Back? then RunCalls(p, reconnector, script, i + 1) else 0)
  {
    var now := Lived(p, reconnector, script[i]);
    var rest := Run(p, reconnector, script, i + 1);
    assert said + (now.events + [Connected] + rest) == said + now.events + [Connected] + rest;
  }

  /** What the commands of the session share with the supervisor. */
  class Session {
    var events: seq<Event>
    var generation: nat   // which transport the control handle belongs to
    var paused: bool      // the gate of the webview sender
    var calls: nat        // of the reconnector

    /** The generation in use is the number of times the session said it was connected again. */
    ghost predicate Valid()
      reads this
    {
      generation == ConnectedCount(events)
    }

    constructor ()
      ensures Valid() && events == [] && generation == 0 && !paused && calls == 0
    {
      events, generation, paused, calls := [], 0, false, 0;
    }

    method Send(e: Event)
      modifies this`events
      ensures events == old(events) + [e]
    {
      events := events + [e];
    }

    /** The retry loop, bound for a whole that is given. */
    method RetryLoop(p: Policy, attempts: seq<Attempt>, first: Decision, ghost goal: Story) returns (back: bool)
      requires OnTrack(p, attempts, 0, first, LOST, events, calls, goal)
      modifies this`events, this`calls
      ensures events == goal.events && calls == goal.calls && back == goal.end.Back?
    {
      var reason, decision, j := LOST, first, 0;
      while true
        invariant 0 <= j <= |attempts|
        invariant OnTrack(p, attempts, j, decision, reason, events, calls, goal)
        decreases |attempts| - j
      {
        match decision {
          case GiveUp =>
            LastTurn(p, attempts, j, decision, reason, events, calls, goal);
            Send(Disconnected(reason));
            return false;
          case Exit(code) =>
            LastTurn(p, attempts, j, decision, reason, events, calls, goal);
            Send(SessionExited(code));
            return false;
          case Retry(attempt, delay) =>
            ghost var before := events;
            Send(Reconnecting(attempt, p.maxAttempts, delay));
            if j == |attempts| || attempts[j].shutdown {
              LastTurn(p, attempts, j, decision, reason, before, calls, goal);
              return false;
            }
            calls := calls + 1;
            match attempts[j].answer {
              case Established =>
                LastTurn(p, attempts, j, decision, reason, before, calls - 1, goal);
                return true;
              case Failed(retryable, message, rand01) =>
                FailedTurn(p, attempts, j, decision, reason, before, calls - 1, goal);
                reason := message;
                decision := AfterFailedAttempt(p, attempt, retryable, rand01);
                j := j + 1;
            }
        }
      }
    }

    /** One outage: everything it says, how it ends and how often the reconnector is called. */
    method RetryUntilBack(p: Policy, g: Generation) returns (back: bool)
      modifies this`events, this`calls
      ensures
        var (es, end) := Outage(p, g.attempts, 0, Decide(p, Dropped, 1, g.rand01), LOST);
        && events == old(events) + es && back == (end == Back)
        && (p.maxAttempts < U32_MAX && p.maxAttempts <= |g.attempts| ==> end != Waiting)
      ensures ConnectedCount(events) == old(ConnectedCount(events))
      ensures calls == old(calls) + Calls(p, g.attempts, 0, Decide(p, Dropped, 1, g.rand01))
    {
      var first := Decide(p, Dropped, 1, g.rand01);
      if p.maxAttempts < U32_MAX && p.maxAttempts <= |g.attempts| {
        EnoughAnswersEndIt(p, g.attempts, 0, first, LOST);
      }
      ghost var whole := Whole(p, g.attempts, 0, first, LOST);
      OutageConnectsNothing(p, g.attempts, 0, first, LOST, events);
      back := RetryLoop(p, g.attempts, first, Story(events + whole.events, whole.end, calls + whole.calls));
    }

    /** One generation of the transport, from the end of its output to its successor or to the end of the session. */
    method LiveOn(p: Policy, reconnector: bool, g: Generation) returns (back: bool)
      modifies this`events, this`calls
      ensures events == old(events) + Lived(p, reconnector, g).events
      ensures back == Lived(p, reconnector, g).end.Back?
      ensures calls == old(calls) + Lived(p, reconnector, g).calls
      ensures ConnectedCount(events) == old(ConnectedCount(events))
    {
      match g.stop {
        case TabClosed => return false;
        case SinkGone => return false;
        case OutputEnded(shutdown, status, transportClosed) =>
          if shutdown {
            return false;
          }
          var end := Classify(status, transportClosed);
          if end.Exited? {
            ConnectedSnoc(events, SessionExited(end.code));
            Send(SessionExited(end.code));
            return false;
          }
          if !reconnector {
            ConnectedSnoc(events, Disconnected(LOST));
            Send(Disconnected(LOST));
            return false;
          }
          back := RetryUntilBack(p, g);
      }
    }

    /** All generations of the transport, one after the other. */
    method Supervise(p: Policy, reconnector: bool, script: seq<Generation>)
      requires Valid()
      modifies this
      ensures Valid()
      ensures events == old(events) + Run(p, reconnector, script, 0)
      ensures if generation == old(generation) then paused == old(paused) else !paused
      ensures calls == old(calls) + RunCalls(p, reconnector, script, 0)
    {
      ghost var goal, bill := Run(p, reconnector, script, 0), RunCalls(p, reconnector, script, 0);
      assert events + goal == old(events) + goal;
      for i := 0 to |script|
        invariant events + Run(p, reconnector, script, i) == old(events) + goal
        invariant Valid() && generation >= old(generation)
        invariant if generation == old(generation) then paused == old(paused) else !paused
        invariant calls + RunCalls(p, reconnector, script, i) == old(calls) + bill
      {
        RunIsLived(p, reconnector, script, i, events);
        var back := LiveOn(p, reconnector, script[i]);
        if !back {
          return;
        }
        // The events come last: transport and gate are those of the new generation by then.
        generation := generation + 1;
        paused := false;
        ConnectedSnoc(events, Connected);
        Send(Connected);
      }
      assert events + [] == events;
    }
  }

  // ---------------------------------------------------------------- outages without end

  /**
    No attempt starts after shutdown was seen: if it is seen at turn `k` the reconnector was called once for each
    turn before at the most, and neither what it would have answered nor what comes later plays a part.
   */
  lemma {:induction false} NothingAfterShutdown(
      p: Policy, a: seq<Attempt>, b: seq<Attempt>, j: nat, k: nat, d: Decision, reason: string)
    requires j <= k < |a| && k < |b| && a[..k] == b[..k] && a[k].shutdown && b[k].shutdown
    ensures Calls(p, a, j, d) <= k - j && Calls(p, a, j, d) == Calls(p, b, j, d)
    ensures Outage(p, a, j, d, reason) == Outage(p, b, j, d, reason)
    ensures Outage(p, a, j, d, reason).1 != Waiting
    decreases k - j
  {
    if j < k {
      assert a[j] == a[..k][j] && b[j] == b[..k][j];
      if d.Retry? && !a[j].shutdown && a[j].answer.Failed? {
        var Failed(retryable, message, rand01) := a[j].answer;
        NothingAfterShutdown(p, a, b, j + 1, k, AfterFailedAttempt(p, d.attempt, retryable, rand01), message);
      }
    }
  }

  /** How many attempts are announced. */
  function Announced(es: seq<Event>): nat {
    if es == [] then 0 else Announced(es[..|es| - 1]) + (if es[|es| - 1].Reconnecting? then 1 else 0)
  }

  lemma {:induction false} AllAnnounced(es: seq<Event>)
    requires forall i | 0 <= i < |es| :: es[i].Reconnecting?
    ensures Announced(es) == |es|
  {
    if es != [] {
      AllAnnounced(es[..|es| - 1]);
    }
  }

  /** Announcements that number themselves from one up to the maximum are no more than the maximum. */
  lemma {:induction false} AnnouncedWithin(es: seq<Event>, k: nat, max: nat)
    requires k <= |es| && forall i | 0 <= i < |es| :: es[i].Reconnecting? ==> i < max
    ensures Announced(es[..k]) <= k && Announced(es[..k]) <= max
  {
    if k > 0 {
      AnnouncedWithin(es, k - 1, max);
      assert es[..k][..k - 1] == es[..k - 1];
    }
  }

  /** Every attempt fails in a way that may be retried. */
  function Stubborn(n: nat): (attempts: seq<Attempt>)
    ensures |attempts| == n && forall i | 0 <= i < n :: attempts[i] == Attempt(false, Failed(true, LOST, NO_JITTER))
  {
    seq(n, _ => Attempt(false, Failed(true, LOST, NO_JITTER)))
  }

  lemma {:induction false} StubbornNeverEnds(p: Policy, n: nat, j: nat, d: Decision, reason: string, es: seq<Event>)
    requires p.enabled && p.maxAttempts == U32_MAX && d.Retry? && j <= n
    requires es == Outage(p, Stubborn(n), j, d, reason).0
    ensures |es| == n - j + 1 && forall i | 0 <= i < |es| :: es[i].Reconnecting?
    decreases n - j
  {
    if j < n {
      var next := AfterFailedAttempt(p, d.attempt, true, NO_JITTER);
      var rest := Outage(p, Stubborn(n), j + 1, next, LOST).0;
      StubbornNeverEnds(p, n, j + 1, next, LOST, rest);
      assert es == [Reconnecting(d.attempt, p.maxAttempts, d.delay)] + rest;
    }
  }

  function OutageEvents(p: Policy, attempts: seq<Attempt>, rand01: Float): seq<Event> {
    Outage(p, attempts, 0, Decide(p, Dropped, 1, rand01), LOST).0
  }

  /** Some course of an outage announces more than `n` attempts. */
  ghost predicate Outlasts(p: Policy, rand01: Float, n: nat) {
    exists attempts :: Announced(OutageEvents(p, attempts, rand01)) > n
  }

  lemma OutageWithinMaximum(p: Policy, attempts: seq<Attempt>, rand01: Float)
    requires !p.enabled || p.maxAttempts < U32_MAX
    ensures Announced(OutageEvents(p, attempts, rand01)) <= p.maxAttempts
  {
    var es := OutageEvents(p, attempts, rand01);
    if p.maxAttempts < U32_MAX {
      var d := Decide(p, Dropped, 1, rand01);
      if d.Retry? {
        DelayWithinCap(p.backoff, 1, rand01);
      }
      OutageHasShape(p, attempts, 0, d, LOST, 1);
      AnnouncedWithin(es, |es|, p.maxAttempts);
      assert es[..|es|] == es;
    } else {
      assert es[..0] == [] && Announced(es[..0]) == 0;
    }
  }

  /**
    An outage can go on for ever exactly when retries are on and the maximum is the largest 32-bit number: the
    attempt after the last is then number 0, and is made. For every other policy the maximum holds.
   */
  lemma EndlessExactlyAtTheLargestMaximum(p: Policy, rand01: Float)
    ensures (forall n: nat :: Outlasts(p, rand01, n)) <==> p.enabled && p.maxAttempts == U32_MAX
  {
    if p.enabled && p.maxAttempts == U32_MAX {
      forall n: nat ensures Outlasts(p, rand01, n) {
        var es := OutageEvents(p, Stubborn(n), rand01);
        StubbornNeverEnds(p, n, 0, Decide(p, Dropped, 1, rand01), LOST, es);
        AllAnnounced(es);
      }
    } else {
      if Outlasts(p, rand01, p.maxAttempts) {
        var attempts :| Announced(OutageEvents(p, attempts, rand01)) > p.maxAttempts;
        OutageWithinMaximum(p, attempts, rand01);
      }
    }
  }

  // ---------------------------------------------------------------- how long an outage may last

  function TotalDelay(es: seq<Event>): real {
    if es == [] then 0.0
    else TotalDelay(es[..|es| - 1]) + (if es[|es| - 1].Reconnecting? then es[|es| - 1].delay else 0.0)
  }

  lemma {:induction false} ConsecutiveAttempts(p: Policy, reconnector: bool, es: seq<Event>, lo: nat, hi: nat)
    requires InLanguage(p, reconnector, es) && lo < hi <= |es|
    requires forall i | lo <= i < hi :: es[i].Reconnecting?
    ensures es[hi - 1].attempt == es[lo].attempt + (hi - 1 - lo)
    decreases hi
  {
    assert Fits(p, reconnector, es, hi - 1);
    if lo < hi - 1 {
      ConsecutiveAttempts(p, reconnector, es, lo, hi - 1);
    }
  }

  /** `n` caps, by addition. */
  ghost function Caps(n: nat, cap: real): real {
    if n == 0 then 0.0 else Caps(n - 1, cap) + cap
  }

  lemma {:induction false} CapsMonotone(m: nat, n: nat, cap: real)
    requires m <= n && 0.0 <= cap
    ensures Caps(m, cap) <= Caps(n, cap)
  {
    if m < n {
      CapsMonotone(m, n - 1, cap);
    }
  }

  lemma {:induction false} CapsIsProduct(n: nat, cap: real)
    ensures Caps(n, cap) == n as real * cap
  {
    if n > 0 {
      CapsIsProduct(n - 1, cap);
      assert n as real * cap == (n - 1) as real * cap + cap;
    }
  }

  lemma {:induction false} DelayOfStretch(p: Policy, reconnector: bool, es: seq<Event>, lo: nat, hi: nat)
    requires InLanguage(p, reconnector, es) && lo <= hi <= |es|
    requires forall i | lo <= i < hi :: es[i].Reconnecting?
    ensures TotalDelay(es[lo..hi]) <= Caps(hi - lo, p.backoff.cap as real)
    decreases hi
  {
    if lo < hi {
      DelayOfStretch(p, reconnector, es, lo, hi - 1);
      assert Fits(p, reconnector, es, hi - 1);
      assert es[lo..hi][..hi - lo - 1] == es[lo..hi - 1];
    }
  }

  /** No outage holds more than `maxAttempts` attempts, nor waits longer than that many caps in all. */
  lemma OutageIsBounded(p: Policy, reconnector: bool, es: seq<Event>, lo: nat, hi: nat)
    requires InLanguage(p, reconnector, es) && lo < hi <= |es|
    requires forall i | lo <= i < hi :: es[i].Reconnecting?
    ensures hi - lo <= p.maxAttempts
    ensures TotalDelay(es[lo..hi]) <= p.maxAttempts as real * p.backoff.cap as real
  {
    assert Fits(p, reconnector, es, lo) && Fits(p, reconnector, es, hi - 1);
    ConsecutiveAttempts(p, reconnector, es, lo, hi);
    DelayOfStretch(p, reconnector, es, lo, hi);
    CapsMonotone(hi - lo, p.maxAttempts, p.backoff.cap as real);
    CapsIsProduct(p.maxAttempts, p.backoff.cap as real);
  }

  // ---------------------------------------------------------------- every word is spoken

  /** An event without its delay, which the random source chooses. */
  function Timeless(e: Event): Event {
    if e.Reconnecting? then e.(delay := 0.0) else e
  }

  function AllTimeless(es: seq<Event>): (r: seq<Event>)
    ensures |r| == |es|
    ensures forall i | 0 <= i < |r| :: r[i] == Timeless(es[i])
  {
    seq(|es|, i requires 0 <= i < |es| => Timeless(es[i]))
  }

  /** The first position from `i` on that holds no further attempt of the outage. */
  function OutageStop(es: seq<Event>, i: nat): (n: nat)
    requires i <= |es|
    ensures i <= n <= |es|
    ensures forall k | i <= k < n :: es[k].Reconnecting?
    ensures n < |es| ==> !es[n].Reconnecting?
    decreases |es| - i
  {
    if i == |es| || !es[i].Reconnecting? then i else OutageStop(es, i + 1)
  }

  /** The attempts that make an outage say `es[i..n]` and then end as `es` does at `n`. */
  function AttemptsFor(es: seq<Event>, i: nat, n: nat): seq<Attempt>
    requires i <= n <= |es|
    decreases n - i
  {
    if i == n then []
    else if i + 1 < n then [Attempt(false, Failed(true, LOST, NO_JITTER))] + AttemptsFor(es, i + 1, n)
    else if n == |es| then []
    else if es[n].Connected? then [Attempt(false, Established)]
    else if es[n].Disconnected? then [Attempt(false, Failed(false, es[n].reason, NO_JITTER))]
    else []
  }

  /** A script that makes the supervisor say the word from position `i` on. */
  function ScriptFor(es: seq<Event>, i: nat): seq<Generation>
    requires i <= |es|
    decreases |es| - i
  {
    if i == |es| then []
    else
      match es[i]
      case SessionExited(code) => [Generation(OutputEnded(false, code, false), NO_JITTER, [])]
      case Reconnecting(_, _, _) =>
        var n := OutageStop(es, i);
        var g := Generation(OutputEnded(false, None, true), NO_JITTER, AttemptsFor(es, i, n));
        if n < |es| && es[n].Connected? then [g] + ScriptFor(es, n + 1) else [g]
      case _ => [Generation(OutputEnded(false, None, true), NO_JITTER, [])]
  }

  lemma NoJitterNoDelay(b: Backoff, attempt: u32)
    ensures Delay(b, attempt, NO_JITTER) == 0.0
  {
  }

  /** The events of the outage at `es[i..]`, closed by a Disconnected if the word has one there. */
  function Said(es: seq<Event>, i: nat, n: nat): seq<Event>
    requires i <= n <= |es|
  {
    es[i..n] + (if n < |es| && es[n].Disconnected? then [es[n]] else [])
  }

  /** How an outage that says `es[i..n]` ends. */
  function EndOf(es: seq<Event>, n: nat): OutageEnd
    requires n <= |es|
  {
    if n == |es| then Waiting else if es[n].Connected? then Back else Over
  }

  lemma SaidGrows(es: seq<Event>, i: nat, n: nat)
    requires i < n <= |es|
    ensures AllTimeless(Said(es, i, n)) == [Timeless(es[i])] + AllTimeless(Said(es, i + 1, n))
  {
  }

  /** The last attempt of an outage settles how it ends. */
  lemma LastAttemptSays(p: Policy, es: seq<Event>, i: nat, attempts: seq<Attempt>, k: nat, reason: string)
    requires InLanguage(p, true, es) && p.maxAttempts < U32_MAX
    requires i < |es| && es[i].Reconnecting? && OutageStop(es, i) == i + 1
    requires k <= |attempts| && attempts[k..] == AttemptsFor(es, i, i + 1)
    ensures Outage(p, attempts, k, Retry(es[i].attempt, 0.0), reason)
         == (AllTimeless(Said(es, i, i + 1)), EndOf(es, i + 1))
  {
    var n := i + 1;
    assert Fits(p, true, es, i);
    assert Timeless(es[i]) == Reconnecting(es[i].attempt, p.maxAttempts, 0.0);
    SaidGrows(es, i, n);
    var e, rest := [Timeless(es[i])], AllTimeless(Said(es, n, n));
    if n == |es| {
      assert |attempts[k..]| == 0 && rest == [] && e + [] == e;
    } else {
      assert Fits(p, true, es, n);
      assert attempts[k] == attempts[k..][0];
      if es[n].Disconnected? {
        assert rest == [es[n]];
        assert Outage(p, attempts, k + 1, GiveUp, es[n].reason) == ([es[n]], Over);
      } else {
        assert es[n].Connected? && rest == [] && e + [] == e;
      }
    }
  }

  lemma {:induction false} OutageSays(
      p: Policy, es: seq<Event>, i: nat, n: nat, k: nat, attempts: seq<Attempt>, reason: string)
    requires InLanguage(p, true, es) && p.maxAttempts < U32_MAX
    requires i < n <= |es| && n == OutageStop(es, i) && es[i].Reconnecting?
    requires k <= |attempts| && attempts[k..] == AttemptsFor(es, i, n)
    ensures Outage(p, attempts, k, Retry(es[i].attempt, 0.0), reason) == (AllTimeless(Said(es, i, n)), EndOf(es, n))
    decreases n - i
  {
    if i + 1 < n {
      assert Fits(p, true, es, i) && Fits(p, true, es, i + 1);
      assert Timeless(es[i]) == Reconnecting(es[i].attempt, p.maxAttempts, 0.0);
      assert attempts[k] == attempts[k..][0] == Attempt(false, Failed(true, LOST, NO_JITTER));
      assert attempts[k + 1..] == attempts[k..][1..] == AttemptsFor(es, i + 1, n);
      NoJitterNoDelay(p.backoff, es[i].attempt + 1);
      OutageSays(p, es, i + 1, n, k + 1, attempts, LOST);
      SaidGrows(es, i, n);
    } else {
      LastAttemptSays(p, es, i, attempts, k, reason);
    }
  }

  /** One generation whose transport dropped says its outage, and goes on if the outage was survived. */
  lemma DropSays(p: Policy, script: seq<Generation>, m: nat, es: seq<Event>, i: nat)
    requires InLanguage(p, true, es) && p.maxAttempts < U32_MAX && i < |es| && m < |script|
    requires es[i].Reconnecting? && (i == 0 || es[i - 1].Connected?)
    requires script[m] == Generation(OutputEnded(false, None, true), NO_JITTER, AttemptsFor(es, i, OutageStop(es, i)))
    ensures
      var n := OutageStop(es, i);
      Run(p, true, script, m)
        == AllTimeless(Said(es, i, n))
           + (if n < |es| && es[n].Connected? then [Connected] + Run(p, true, script, m + 1) else [])
  {
    var n := OutageStop(es, i);
    assert Fits(p, true, es, i);
    NoJitterNoDelay(p.backoff, 1);
    assert script[m].attempts[0..] == script[m].attempts;
    OutageSays(p, es, i, n, 0, script[m].attempts, LOST);
    assert n < |es| && es[n].Connected? ==>
             AllTimeless(Said(es, i, n)) + [Connected] + Run(p, true, script, m + 1)
               == AllTimeless(Said(es, i, n)) + ([Connected] + Run(p, true, script, m + 1));
  }

  /** A word that begins with an exit or with a drop nobody retries is that one event. */
  lemma EndSays(p: Policy, reconnector: bool, script: seq<Generation>, m: nat, es: seq<Event>, i: nat)
    requires InLanguage(p, reconnector, es) && p.maxAttempts < U32_MAX && i < |es| && m < |script|
    requires !es[i].Reconnecting? && (i == 0 || es[i - 1].Connected?)
    requires script[m] == ScriptFor(es, i)[0]
    ensures Run(p, reconnector, script, m) == [es[i]] && i == |es| - 1
  {
    assert Fits(p, reconnector, es, i);
  }

  /** A survived outage in front of a word: the parts of the word line up. */
  lemma SplitAtConnected(es: seq<Event>, i: nat, n: nat)
    requires i <= n < |es| && es[n].Connected?
    ensures AllTimeless(es[i..]) == AllTimeless(Said(es, i, n)) + ([Connected] + AllTimeless(es[n + 1..]))
  {
  }

  /** A drop and its outage, followed by what the rest of the script says. */
  lemma DropThenRest(p: Policy, script: seq<Generation>, m: nat, es: seq<Event>, i: nat)
    requires InLanguage(p, true, es) && p.maxAttempts < U32_MAX && i < |es| && m < |script|
    requires es[i].Reconnecting? && (i == 0 || es[i - 1].Connected?)
    requires script[m] == Generation(OutputEnded(false, None, true), NO_JITTER, AttemptsFor(es, i, OutageStop(es, i)))
    requires
      var n := OutageStop(es, i);
      n < |es| && es[n].Connected? ==> Run(p, true, script, m + 1) == AllTimeless(es[n + 1..])
    ensures Run(p, true, script, m) == AllTimeless(es[i..])
  {
    var n := OutageStop(es, i);
    DropSays(p, script, m, es, i);
    if n < |es| {
      assert Fits(p, true, es, n);
    }
    if n < |es| && es[n].Connected? {
      SplitAtConnected(es, i, n);
    } else {
      assert es[i..] == Said(es, i, n);
    }
  }

  lemma {:induction false} ScriptSays(
      p: Policy, reconnector: bool, es: seq<Event>, i: nat, script: seq<Generation>, m: nat)
    requires InLanguage(p, reconnector, es) && p.maxAttempts < U32_MAX && i <= |es|
    requires i == 0 || es[i - 1].Connected?
    requires m <= |script| && script[m..] == ScriptFor(es, i)
    ensures Run(p, reconnector, script, m) == AllTimeless(es[i..])
    decreases |es| - i
  {
    if i == |es| {
      assert |script[m..]| == 0;
    } else {
      assert script[m] == script[m..][0];
      assert Fits(p, reconnector, es, i);
      if es[i].Reconnecting? {
        var n := OutageStop(es, i);
        if n < |es| && es[n].Connected? {
          assert script[m + 1..] == script[m..][1..] == ScriptFor(es, n + 1);
          ScriptSays(p, reconnector, es, n + 1, script, m + 1);
        }
        DropThenRest(p, script, m, es, i);
      } else {
        EndSays(p, reconnector, script, m, es, i);
        assert AllTimeless(es[i..]) == [es[i]];
      }
    }
  }

  /** The language is exact: every word of it is what some run says, delays apart. */
  lemma EveryWordIsSpoken(p: Policy, reconnector: bool, es: seq<Event>)
    requires InLanguage(p, reconnector, es) && p.maxAttempts < U32_MAX
    ensures exists script :: Run(p, reconnector, script, 0) == AllTimeless(es)
  {
    var script := ScriptFor(es, 0);
    assert script[0..] == script && es[0..] == es;
    ScriptSays(p, reconnector, es, 0, script, 0);
  }
}
