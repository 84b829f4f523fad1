/**
  The webview's end of flow control (`TermSession` in ui/src/lib/ipc.ts): frames arrive and are handed to
  the terminal, whose write callbacks come back in order; two watermarks decide when to pause and resume
  the backend.
 */
module FlowControl {
  import opened Text
  import opened Coalescer

  const HIGH: int := 384 * 1024
  const LOW: int := 64 * 1024

  datatype Command = Pause | Resume

  /** The counters and flags of the client. After a reset, stale callbacks may take `pending` below zero. */
  datatype Flow = Flow(
    pending: int, maxPending: int, pauseCount: nat, recvBytes: nat, recvFrames: nat,
    parsedBytes: nat, jsNewlines: nat, paused: bool)

  const FRESH := Flow(0, 0, 0, 0, 0, 0, 0, false)

  /** The client with what surrounds it: writes not yet called back, and whether the session id is known. */
  datatype Client = Client(flow: Flow, unacked: seq<Bytes>, idKnown: bool, sent: seq<Command>)

  const OPENED := Client(FRESH, [], false, [])

  datatype Event =
    | Frame(bytes: Bytes)
    | Written              // the terminal's callback for the oldest write
    | IdArrives            // open_session returned
    | ResetFlow
    | ResetStats

  predicate Possible(c: Client, e: Event) {
    e.Written? ==> c.unacked != []
  }

  function Tell(c: Client, command: Command): Client {
    if c.idKnown then c.(sent := c.sent + [command]) else c
  }

  function IntMax(a: int, b: int): int {
    if a > b then a else b
  }

  /** A frame counted and handed to the terminal. */
  function Taken(c: Client, bytes: Bytes): Client {
    var f := c.flow;
    var pending := f.pending + |bytes|;
    var counted := f.(pending := pending, maxPending := IntMax(pending, f.maxPending),
                      recvBytes := f.recvBytes + |bytes|, recvFrames := f.recvFrames + 1,
                      jsNewlines := f.jsNewlines + Newlines(bytes));
    c.(flow := counted, unacked := c.unacked + [bytes])
  }

  function OnFrame(c: Client, bytes: Bytes): Client {
    var d := Taken(c, bytes);
    if !d.flow.paused && d.flow.pending > HIGH
    then Tell(d.(flow := d.flow.(paused := true, pauseCount := d.flow.pauseCount + 1)), Pause)
    else d
  }

  function OnWritten(c: Client): Client
    requires c.unacked != []
  {
    var n := |c.unacked[0]|;
    var f := c.flow.(pending := c.flow.pending - n, parsedBytes := c.flow.parsedBytes + n);
    var d := c.(flow := f, unacked := c.unacked[1..]);
    if f.paused && f.pending < LOW then Tell(d.(flow := f.(paused := false)), Resume) else d
  }

  function Step(c: Client, e: Event): Client
    requires Possible(c, e)
  {
    match e
    case Frame(bytes) => OnFrame(c, bytes)
    case Written => OnWritten(c)
    case IdArrives => c.(idKnown := true)
    case ResetFlow => c.(flow := c.flow.(pending := 0, paused := false))
    case ResetStats =>
      c.(flow := c.flow.(maxPending := 0, pauseCount := 0, recvBytes := 0, recvFrames := 0, parsedBytes := 0,
                         jsNewlines := 0))
  }

  // ---------------------------------------------------------------- the object

  class TermSession {
    var idKnown: bool
    var pendingBytes: int
    var maxPending: int
    var pauseCount: nat
    var recvBytes: nat
    var recvFrames: nat
    var parsedBytes: nat
    var jsNewlines: nat
    var paused: bool
    var writes: seq<Bytes>      // the terminal's write queue
    var invoked: seq<Command>   // the commands invoked on the backend

    ghost function View(): Client
      reads this
    {
      var f := Flow(pendingBytes, maxPending, pauseCount, recvBytes, recvFrames, parsedBytes, jsNewlines, paused);
      Client(f, writes, idKnown, invoked)
    }

    constructor ()
      ensures View() == OPENED
    {
      idKnown, paused := false, false;
      pendingBytes, maxPending, pauseCount := 0, 0, 0;
      recvBytes, recvFrames, parsedBytes, jsNewlines := 0, 0, 0, 0;
      writes, invoked := [], [];
    }

    method Invoke(command: Command)
      modifies this`invoked
      ensures invoked == if idKnown then old(invoked) + [command] else old(invoked)
    {
      if idKnown {
        invoked := invoked + [command];
      }
    }

    method Take(bytes: Bytes)
      modifies this
      ensures View() == Taken(old(View()), bytes)
    {
      recvBytes := recvBytes + |bytes|;
      recvFrames := recvFrames + 1;
      jsNewlines := jsNewlines + Newlines(bytes);
      pendingBytes := pendingBytes + |bytes|;
      if pendingBytes > maxPending {
        maxPending := pendingBytes;
      }
      writes := writes + [bytes];
    }

    method Ingest(bytes: Bytes)
      modifies this
      ensures View() == OnFrame(old(View()), bytes)
    {
      Take(bytes);
      if !paused && pendingBytes > HIGH {
        paused := true;
        pauseCount := pauseCount + 1;
        Invoke(Pause);
      }
    }

    /** The callback of the oldest write. */
    method WriteDone()
      requires writes != []
      modifies this
      ensures View() == OnWritten(old(View()))
    {
      var n := |writes[0]|;
      writes := writes[1..];
      pendingBytes := pendingBytes - n;
      parsedBytes := parsedBytes + n;
      if paused && pendingBytes < LOW {
        paused := false;
        Invoke(Resume);
      }
    }

    method ResetFlowState()
      modifies this
      ensures View() == Step(old(View()), ResetFlow)
    {
      pendingBytes := 0;
      paused := false;
    }

    method ResetJsStats()
      modifies this
      ensures View() == Step(old(View()), ResetStats)
    {
      maxPending := 0;
      pauseCount := 0;
      recvBytes := 0;
      recvFrames := 0;
      parsedBytes := 0;
      jsNewlines := 0;
    }
  }

  // ---------------------------------------------------------------- runs and their history

  ghost predicate PossibleRun(events: seq<Event>, n: nat)
    requires n <= |events|
    decreases n, 0
  {
    n == 0 || (PossibleRun(events, n - 1) && Possible(Run(events, n - 1), events[n - 1]))
  }

  ghost function Run(events: seq<Event>, n: nat): Client
    requires n <= |events| && PossibleRun(events, n)
    decreases n, 1
  {
    if n == 0 then OPENED else Step(Run(events, n - 1), events[n - 1])
  }

  /**
    What an observer notes: the unacknowledged bytes at the last flow reset, the bytes received and
    parsed, the changes of the pause flag and the resumes since then, and the frames since the last
    counter reset.
   */
  datatype History = History(stale: nat, recv: nat, parsed: nat, flips: seq<Command>, resumes: nat, frames: seq<Bytes>)

  const BLANK := History(0, 0, 0, [], 0, [])

  function Unacknowledged(c: Client): nat {
    |Concat(c.unacked)|
  }

  function Note(h: History, c: Client, e: Event): History
    requires Possible(c, e)
  {
    var d := Step(c, e);
    var flips := if c.flow.paused == d.flow.paused then h.flips
                 else h.flips + [if d.flow.paused then Pause else Resume];
    match e
    case Frame(bytes) => h.(recv := h.recv + |bytes|, flips := flips, frames := h.frames + [bytes])
    case Written =>
      h.(parsed := h.parsed + |c.unacked[0]|, flips := flips,
         resumes := h.resumes + (if c.flow.paused && !d.flow.paused then 1 else 0))
    case IdArrives => h
    case ResetFlow => History(Unacknowledged(c), 0, 0, [], 0, h.frames)
    case ResetStats => h.(frames := [])
  }

  ghost function Observed(events: seq<Event>, n: nat): History
    requires n <= |events| && PossibleRun(events, n)
  {
    if n == 0 then BLANK else Note(Observed(events, n - 1), Run(events, n - 1), events[n - 1])
  }

  /** Pause and Resume take turns, Pause first, and the last one says whether the flag is up. */
  predicate Alternates(flips: seq<Command>, paused: bool) {
    && (forall i | 0 <= i < |flips| :: flips[i] == if i % 2 == 0 then Pause else Resume)
    && (paused <==> |flips| % 2 == 1)
  }

  /** Between the watermarks: paused only above the lower one, running only below the upper one. */
  predicate Hysteresis(c: Client) {
    && (!c.flow.paused ==> c.flow.pending <= HIGH)
    && (c.flow.paused ==> c.flow.pending >= LOW && c.unacked != [])
  }

  /** Pending bytes are the unacknowledged ones less those already so at the last flow reset. */
  predicate Accounted(c: Client, h: History) {
    && c.flow.pending == Unacknowledged(c) - h.stale
    && c.flow.pending == h.recv - h.parsed
  }

  /** Every pause and resume has cost at least the distance between the watermarks in parsed bytes. */
  predicate Damped(c: Client, h: History) {
    && h.resumes * (HIGH - LOW) <= h.parsed
    && (c.flow.paused ==> h.resumes * (HIGH - LOW) + (HIGH - c.flow.pending) <= h.parsed)
  }

  predicate Tallied(c: Client, h: History) {
    && c.flow.recvFrames == |h.frames|
    && c.flow.recvBytes == |Concat(h.frames)|
    && c.flow.jsNewlines == Newlines(Concat(h.frames))
  }

  lemma StepAccounted(c: Client, h: History, e: Event)
    requires Possible(c, e) && Accounted(c, h)
    ensures Accounted(Step(c, e), Note(h, c, e))
  {
    if e.Frame? {
      AppendFrame(c.unacked, e.bytes);
    } else if e.Written? {
      ConcatFront(c.unacked);
    }
  }

  lemma StepHysteresis(c: Client, h: History, e: Event)
    requires Possible(c, e) && Hysteresis(c) && Accounted(c, h)
    ensures Hysteresis(Step(c, e))
  {
    StepAccounted(c, h, e);
    var d := Step(c, e);
    assert d.unacked == [] ==> Unacknowledged(d) == 0;
  }

  lemma StepAlternates(c: Client, h: History, e: Event)
    requires Possible(c, e) && Alternates(h.flips, c.flow.paused)
    ensures Alternates(Note(h, c, e).flips, Step(c, e).flow.paused)
  {
  }

  lemma StepDamped(c: Client, h: History, e: Event)
    requires Possible(c, e) && Damped(c, h) && Hysteresis(c)
    ensures Damped(Step(c, e), Note(h, c, e))
  {
    assert (h.resumes + 1) * (HIGH - LOW) == h.resumes * (HIGH - LOW) + (HIGH - LOW);
  }

  lemma StepTallied(c: Client, h: History, e: Event)
    requires Possible(c, e) && Tallied(c, h)
    ensures Tallied(Step(c, e), Note(h, c, e))
  {
    if e.Frame? {
      AppendFrame(h.frames, e.bytes);
      NewlinesConcat(Concat(h.frames), e.bytes);
    }
  }

  /**
    For every sequence of frames, callbacks and resets: the client is paused only with at least LOW bytes
    pending and a write outstanding, and runs only with at most HIGH; the flag goes up and down in turns;
    the books balance; and each round trip of the flag has cost HIGH - LOW parsed bytes.
   */
  lemma {:induction false} EveryRun(events: seq<Event>, n: nat)
    requires n <= |events| && PossibleRun(events, n)
    ensures Hysteresis(Run(events, n))
    ensures Accounted(Run(events, n), Observed(events, n))
    ensures Alternates(Observed(events, n).flips, Run(events, n).flow.paused)
    ensures Damped(Run(events, n), Observed(events, n))
    ensures Tallied(Run(events, n), Observed(events, n))
  {
    if n > 0 {
      EveryRun(events, n - 1);
      var c, h, e := Run(events, n - 1), Observed(events, n - 1), events[n - 1];
      StepHysteresis(c, h, e);
      StepAccounted(c, h, e);
      StepAlternates(c, h, e);
      StepDamped(c, h, e);
      StepTallied(c, h, e);
    }
  }

  /** Never stuck: once every write is called back the client is not paused. */
  lemma DrainedIsRunning(events: seq<Event>, n: nat)
    requires n <= |events| && PossibleRun(events, n)
    ensures Run(events, n).unacked == [] ==> !Run(events, n).flow.paused
  {
    EveryRun(events, n);
  }

  predicate NoReset(events: seq<Event>, n: nat)
    requires n <= |events|
  {
    forall i | 0 <= i < n :: !events[i].ResetFlow? && !events[i].ResetStats?
  }

  /** Received is parsed plus pending, and the pauses counted are the resumes plus the one in force. */
  predicate Balanced(c: Client, h: History) {
    var f := c.flow;
    && h.stale == 0
    && f.recvBytes == h.recv && f.parsedBytes == h.parsed
    && f.pauseCount == h.resumes + (if f.paused then 1 else 0)
    && f.pending <= f.maxPending
  }

  lemma StepBalanced(c: Client, h: History, e: Event)
    requires Possible(c, e) && Balanced(c, h) && !e.ResetFlow? && !e.ResetStats?
    ensures Balanced(Step(c, e), Note(h, c, e))
  {
  }

  lemma {:induction false} BalancedRun(events: seq<Event>, n: nat)
    requires n <= |events| && PossibleRun(events, n) && NoReset(events, n)
    ensures Balanced(Run(events, n), Observed(events, n))
  {
    if n > 0 {
      BalancedRun(events, n - 1);
      StepBalanced(Run(events, n - 1), Observed(events, n - 1), events[n - 1]);
    }
  }

  /** Without resets the client's own counters balance, and bound how often it resumed. */
  lemma CountersBalance(events: seq<Event>, n: nat)
    requires n <= |events| && PossibleRun(events, n) && NoReset(events, n)
    ensures
      var c := Run(events, n);
      && c.flow.recvBytes == c.flow.parsedBytes + c.flow.pending
      && c.flow.pending == Unacknowledged(c)
      && (c.flow.pauseCount - (if c.flow.paused then 1 else 0)) * (HIGH - LOW) <= c.flow.parsedBytes
  {
    EveryRun(events, n);
    BalancedRun(events, n);
  }

  // ---------------------------------------------------------------- what the backend hears

  /** The backend is told in turns from the moment the id is known, the first time with `first`. */
  predicate Heard(sent: seq<Command>, first: Command, paused: bool) {
    && (forall i | 0 <= i < |sent| :: sent[i] == if i % 2 == 0 then first else if first == Pause then Resume else Pause)
    && (if |sent| % 2 == 0 then paused == (first == Resume) else paused == (first == Pause))
  }

  lemma StepHeard(c: Client, e: Event, first: Command)
    requires Possible(c, e) && !e.ResetFlow? && c.idKnown && Heard(c.sent, first, c.flow.paused)
    ensures Heard(Step(c, e).sent, first, Step(c, e).flow.paused)
  {
  }

  lemma {:induction false} SilentBeforeId(events: seq<Event>, n: nat)
    requires n <= |events| && PossibleRun(events, n)
    ensures !Run(events, n).idKnown ==> Run(events, n).sent == []
  {
    if n > 0 {
      SilentBeforeId(events, n - 1);
    }
  }

  /**
    What reaches the backend, without a flow reset: commands in turns, ending in step with the flag. The
    first is Pause unless the client paused before it knew its id: that pause is never sent, and the
    backend hears of it only by the Resume that ends it.
   */
  lemma {:induction false} BackendHears(events: seq<Event>, a: nat, n: nat)
    requires a < n <= |events| && PossibleRun(events, n) && PossibleRun(events, a)
    requires events[a].IdArrives? && !Run(events, a).idKnown
    requires forall i | a <= i < n :: !events[i].ResetFlow?
    ensures Run(events, n).idKnown
    ensures Heard(Run(events, n).sent, if Run(events, a).flow.paused then Resume else Pause, Run(events, n).flow.paused)
    decreases n
  {
    if n == a + 1 {
      SilentBeforeId(events, a);
    } else {
      BackendHears(events, a, n - 1);
      StepHeard(Run(events, n - 1), events[n - 1], if Run(events, a).flow.paused then Resume else Pause);
    }
  }
}
