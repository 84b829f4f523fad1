/**
  The terminal data path as concurrent steps: the pump of `supervise`, the coalescer, the gated sender of
  `spawn_data_path` (apps/desktop/src/commands.rs) and the pause flips of the session commands, joined by
  two bounded queues. Any enabled step may come next; a run is any sequence of enabled steps.
 */
module DataPath {
  import opened Options
  import opened Text
  import opened Coalescer

  const QUEUE_DEPTH: nat := 32

  /** `chunkMax` bounds what one transport read delivers. */
  datatype Params = Params(cfg: Config, chunkMax: nat)

  /** The gated sender: no frame in hand, one held at the gate, one past the gate, or gone. */
  datatype Sender = Idle | AtGate(frame: Bytes) | PastGate(frame: Bytes) | Gone

  datatype CoalescerTask = Running | Ending | Ended

  datatype Counters = Counters(bytesIn: nat, bytesOut: nat, framesOut: nat, maxFrameBytes: nat)

  /**
    All tasks and queues. `received`, `delivered`, `sincePause`, `shipped`, `bufAtReset` and `shippedAtReset` are
    history: what was read off the transport, the frames the webview got, the deliveries since the gate last closed,
    the frames the coalescer made, and the buffer length and the number of those frames when the counters were last
    reset.
   */
  datatype State = State(
    received: Bytes,
    pump: Option<Bytes>,
    input: seq<Bytes>,
    inputClosed: bool,
    task: CoalescerTask,
    buf: Bytes,
    inFlight: Option<Bytes>,
    frames: seq<Bytes>,
    sender: Sender,
    lost: bool,
    paused: bool,
    delivered: seq<Bytes>,
    sincePause: nat,
    counters: Counters,
    shipped: seq<Bytes>,
    bufAtReset: nat,
    shippedAtReset: nat)

  const START :=
    State([], None, [], false, Running, [], None, [], Idle, false, false, [], 0, Counters(0, 0, 0, 0), [], 0, 0)

  datatype Step =
    | PumpRecv(chunk: Bytes)        // a transport read
    | PumpSend                      // the chunk enters the input queue
    | PumpStop                      // the supervisor returns and drops its end
    | Absorb(idle: bool)            // the coalescer takes a chunk
    | TickFires
    | InputEnds                     // the input queue is closed and empty
    | SendFrame                     // the flushed frame enters the frame queue
    | TaskReturns
    | TakeFrame                     // the sender takes the next frame
    | PassGate
    | Deliver
    | SenderDies                    // the webview channel failed, or the pause channel closed while held
    | SenderReturns
    | SetPause(on: bool)
    | ResetCounters

  predicate Enabled(p: Params, s: State, step: Step) {
    match step
    case PumpRecv(chunk) => s.pump.None? && !s.inputClosed && |chunk| <= p.chunkMax
    case PumpSend => s.pump.Some? && !s.inputClosed && s.task != Ended && |s.input| < QUEUE_DEPTH
    case PumpStop => !s.inputClosed && (s.pump.None? || s.task == Ended)
    case Absorb(_) => s.task == Running && s.inFlight.None? && s.input != []
    case TickFires => s.task == Running && s.inFlight.None? && s.buf != []
    case InputEnds => s.task == Running && s.inFlight.None? && s.input == [] && s.inputClosed
    case SendFrame => s.inFlight.Some? && s.sender != Gone && |s.frames| < QUEUE_DEPTH
    case TaskReturns =>
      s.task != Ended && ((s.task == Ending && s.inFlight.None?) || (s.sender == Gone && s.inFlight.Some?))
    case TakeFrame => s.sender == Idle && s.frames != []
    case PassGate => s.sender.AtGate? && !s.paused
    case Deliver => s.sender.PastGate?
    case SenderDies => s.sender.PastGate? || (s.sender.AtGate? && s.paused)
    case SenderReturns => s.sender == Idle && s.frames == [] && s.task == Ended
    case SetPause(_) => true
    case ResetCounters => true
  }

  /** The coalescer's state after it flushed or held. */
  function Settle(s: State, held: Held): State {
    match held.frame
    case None => s.(buf := held.buf)
    case Some(f) =>
      var c := s.counters;
      s.(buf := held.buf, inFlight := Some(f), shipped := s.shipped + [f],
         counters := c.(framesOut := c.framesOut + 1, bytesOut := c.bytesOut + |f|,
                        maxFrameBytes := Max(c.maxFrameBytes, |f|)))
  }

  function Next(p: Params, s: State, step: Step): State
    requires Enabled(p, s, step)
  {
    match step
    case PumpRecv(chunk) => s.(received := s.received + chunk, pump := Some(chunk))
    case PumpSend => s.(pump := None, input := s.input + [s.pump.value])
    case PumpStop => s.(inputClosed := true, lost := s.lost || s.pump.Some?)
    case Absorb(idle) =>
      var chunk := s.input[0];
      var c := s.counters;
      var t := s.(input := s.input[1..], counters := c.(bytesIn := c.bytesIn + |chunk|));
      Settle(t, Arrive(p.cfg, s.buf, chunk, idle))
    case TickFires => Settle(s, Flush(s.buf))
    case InputEnds => Settle(s.(task := Ending), Flush(s.buf))
    case SendFrame => s.(inFlight := None, frames := s.frames + [s.inFlight.value])
    case TaskReturns => s.(task := Ended)
    case TakeFrame => s.(sender := AtGate(s.frames[0]), frames := s.frames[1..])
    case PassGate => s.(sender := PastGate(s.sender.frame))
    case Deliver =>
      s.(sender := Idle, delivered := s.delivered + [s.sender.frame],
         sincePause := s.sincePause + (if s.paused then 1 else 0))
    case SenderDies => s.(sender := Gone, lost := true)
    case SenderReturns => s.(sender := Gone)
    case SetPause(on) => s.(paused := on, sincePause := if on && !s.paused then 0 else s.sincePause)
    case ResetCounters =>
      s.(counters := Counters(0, 0, 0, 0), bufAtReset := |s.buf|, shippedAtReset := |s.shipped|)
  }

  // ---------------------------------------------------------------- what every step keeps

  function HeldFrame(s: State): Bytes {
    if s.sender.AtGate? || s.sender.PastGate? then s.sender.frame else []
  }

  function Value(o: Option<Bytes>): Bytes {
    o.GetOr([])
  }

  /** What lies behind each stage, oldest byte first. */
  function BehindBuffer(s: State): Bytes {
    Concat(s.input) + Value(s.pump)
  }

  function BehindFlight(s: State): Bytes {
    s.buf + BehindBuffer(s)
  }

  function BehindQueue(s: State): Bytes {
    Value(s.inFlight) + BehindFlight(s)
  }

  function BehindSender(s: State): Bytes {
    Concat(s.frames) + BehindQueue(s)
  }

  /** Everything between the webview and the transport. */
  function InTransit(s: State): Bytes {
    HeldFrame(s) + BehindSender(s)
  }

  /** No byte is lost, repeated or reordered. Should the sender die, what was delivered is still a prefix. */
  ghost predicate Conserved(s: State) {
    && (!s.lost ==> Concat(s.delivered) + InTransit(s) == s.received)
    && Concat(s.delivered) <= s.received
  }

  predicate ChunksWithin(chunks: seq<Bytes>, max: nat) {
    forall i | 0 <= i < |chunks| :: |chunks[i]| <= max
  }

  ghost predicate InputBounded(p: Params, s: State) {
    && (s.pump.Some? ==> |s.pump.value| <= p.chunkMax)
    && |s.input| <= QUEUE_DEPTH && ChunksWithin(s.input, p.chunkMax)
  }

  ghost predicate BufferBounded(p: Params, s: State) {
    && |s.buf| < Max(p.cfg.maxFrame, 1)
    && (s.inFlight.Some? ==> s.buf == [] && 1 <= |s.inFlight.value| <= FrameMax(p.cfg, p.chunkMax))
  }

  ghost predicate OutputBounded(p: Params, s: State) {
    && |s.frames| <= QUEUE_DEPTH && FramesBounded(s.frames, FrameMax(p.cfg, p.chunkMax))
    && (s.sender.AtGate? || s.sender.PastGate? ==> 1 <= |s.sender.frame| <= FrameMax(p.cfg, p.chunkMax))
    && FramesBounded(s.delivered, FrameMax(p.cfg, p.chunkMax))
  }

  ghost predicate Bounded(p: Params, s: State) {
    InputBounded(p, s) && BufferBounded(p, s) && OutputBounded(p, s)
  }

  /** A task ends only when what feeds it is closed and empty, unless the sender died. */
  ghost predicate Upstream(s: State) {
    && (s.task != Running && !s.lost ==> s.buf == [] && s.input == [] && s.inputClosed)
    && (s.inputClosed && !s.lost ==> s.pump == None)
  }

  ghost predicate Downstream(s: State) {
    && (s.task == Ended && !s.lost ==> s.inFlight == None)
    && (s.sender == Gone && !s.lost ==> s.task == Ended && s.frames == [])
    && (s.lost ==> s.sender == Gone)
  }

  ghost predicate Tasks(s: State) {
    Upstream(s) && Downstream(s)
  }

  /** Bytes counted in are counted out or still in the buffer, from the last reset on. */
  ghost predicate Counted(s: State) {
    s.counters.bytesIn + s.bufAtReset == s.counters.bytesOut + |s.buf|
  }

  /** The counters of what went out are the number, total and longest of the frames made since the last reset. */
  ghost predicate Tallied(s: State) {
    && s.shippedAtReset <= |s.shipped|
    && var out := s.shipped[s.shippedAtReset..];
       s.counters.framesOut == |out| && s.counters.bytesOut == |Concat(out)|
       && s.counters.maxFrameBytes == Longest(out)
  }

  function AsList(o: Option<Bytes>): seq<Bytes> {
    if o.Some? then [o.value] else []
  }

  /** The frames between coalescer and webview, oldest first. */
  function Underway(s: State): seq<Bytes> {
    (if s.sender.AtGate? || s.sender.PastGate? then [s.sender.frame] else []) + s.frames + AsList(s.inFlight)
  }

  /** The webview gets the frames as the coalescer made them, uncut and in order. */
  ghost predicate FramesIntact(s: State) {
    s.delivered <= s.shipped && (!s.lost ==> s.shipped == s.delivered + Underway(s))
  }

  /** After the gate closes at most one more frame goes through: the one already past it. */
  ghost predicate Gated(s: State) {
    s.paused ==> s.sincePause + (if s.sender.PastGate? then 1 else 0) <= 1
  }

  ghost predicate Inv(p: Params, s: State) {
    Conserved(s) && Bounded(p, s) && Tasks(s) && Counted(s) && Gated(s)
  }

  lemma StartInv(p: Params)
    ensures Inv(p, START)
  {
  }

  lemma ConcatBack(parts: seq<Bytes>, last: Bytes)
    ensures Concat(parts + [last]) == Concat(parts) + last
  {
    AppendFrame(parts, last);
  }

  lemma SendKeepsBytes(p: Params, s: State)
    requires Enabled(p, s, PumpSend)
    ensures InTransit(Next(p, s, PumpSend)) == InTransit(s)
  {
    ConcatBack(s.input, s.pump.value);
    assert Concat(s.input) + s.pump.value + [] == Concat(s.input) + s.pump.value;
  }

  /** Between flush and hold, the bytes of frame in flight and buffer are those of the buffer before. */
  lemma SettleKeepsBytes(s: State, held: Held, bytes: Bytes)
    requires s.inFlight.None? && (held == Held(bytes, None) || held == Flush(bytes))
    ensures BehindQueue(Settle(s, held)) == bytes + BehindBuffer(s)
  {
    var t := Settle(s, held);
    assert BehindBuffer(t) == BehindBuffer(s);
    if t.inFlight.Some? {
      assert [] + BehindBuffer(s) == BehindBuffer(s);
    } else {
      assert [] + BehindFlight(t) == BehindFlight(t);
    }
  }

  lemma ChunkMoves(buf: Bytes, chunk: Bytes, rest: Bytes, pump: Bytes)
    ensures buf + chunk + (rest + pump) == [] + (buf + (chunk + rest + pump))
  {
    Assoc(chunk, rest, pump);
    Assoc(buf, chunk, rest + pump);
    assert [] + (buf + (chunk + (rest + pump))) == buf + (chunk + (rest + pump));
  }

  lemma AbsorbBehindQueue(p: Params, s: State, idle: bool)
    requires Enabled(p, s, Absorb(idle))
    ensures BehindQueue(Next(p, s, Absorb(idle))) == BehindQueue(s)
  {
    var chunk, c := s.input[0], s.counters;
    var t := s.(input := s.input[1..], counters := c.(bytesIn := c.bytesIn + |chunk|));
    SettleKeepsBytes(t, Arrive(p.cfg, s.buf, chunk, idle), s.buf + chunk);
    ConcatFront(s.input);
    ChunkMoves(s.buf, chunk, Concat(s.input[1..]), Value(s.pump));
  }

  lemma AbsorbKeepsBytes(p: Params, s: State, idle: bool)
    requires Enabled(p, s, Absorb(idle))
    ensures InTransit(Next(p, s, Absorb(idle))) == InTransit(s)
  {
    AbsorbBehindQueue(p, s, idle);
  }

  lemma FlushKeepsBytes(s: State)
    requires s.inFlight.None?
    ensures InTransit(Settle(s, Flush(s.buf))) == InTransit(s)
  {
    SettleKeepsBytes(s, Flush(s.buf), s.buf);
    assert [] + BehindFlight(s) == BehindFlight(s);
  }

  lemma SendFrameKeepsBytes(p: Params, s: State)
    requires Enabled(p, s, SendFrame)
    ensures InTransit(Next(p, s, SendFrame)) == InTransit(s)
  {
    ConcatBack(s.frames, s.inFlight.value);
    Assoc(Concat(s.frames), s.inFlight.value, BehindFlight(s));
    assert [] + BehindFlight(s) == BehindFlight(s);
  }

  lemma TakeFrameKeepsBytes(p: Params, s: State)
    requires Enabled(p, s, TakeFrame)
    ensures InTransit(Next(p, s, TakeFrame)) == InTransit(s)
  {
    ConcatFront(s.frames);
    Assoc(s.frames[0], Concat(s.frames[1..]), BehindQueue(s));
    assert [] + BehindSender(s) == BehindSender(s);
  }

  predicate SameBytes(s: State, t: State) {
    && s.received == t.received && s.delivered == t.delivered
    && HeldFrame(s) == HeldFrame(t) && s.frames == t.frames && s.inFlight == t.inFlight
    && s.buf == t.buf && s.input == t.input && s.pump == t.pump
  }

  lemma SameBytesInTransit(s: State, t: State)
    requires SameBytes(s, t)
    ensures InTransit(s) == InTransit(t)
  {
  }

  /** A step inside the path: no byte enters, leaves or is dropped. */
  predicate Inner(s: State, step: Step) {
    !step.PumpRecv? && !step.Deliver? && !step.SenderDies? && !(step.PumpStop? && s.pump.Some?)
  }

  lemma InnerStepKeepsEnds(p: Params, s: State, step: Step)
    requires Enabled(p, s, step) && Inner(s, step)
    ensures Next(p, s, step).received == s.received && Next(p, s, step).delivered == s.delivered
    ensures Next(p, s, step).lost == s.lost
  {
  }

  /** The steps inside the path move bytes forward and change nothing about their order. */
  lemma InnerStepKeepsBytes(p: Params, s: State, step: Step)
    requires Enabled(p, s, step) && Inner(s, step)
    ensures InTransit(Next(p, s, step)) == InTransit(s)
  {
    match step
    case PumpSend => SendKeepsBytes(p, s);
    case SendFrame => SendFrameKeepsBytes(p, s);
    case TakeFrame => TakeFrameKeepsBytes(p, s);
    case Absorb(idle) => AbsorbKeepsBytes(p, s, idle);
    case TickFires => FlushKeepsBytes(s);
    case InputEnds => FlushKeepsBytes(s.(task := Ending));
    case PumpStop => SameBytesInTransit(s, Next(p, s, step));
    case TaskReturns => SameBytesInTransit(s, Next(p, s, step));
    case PassGate => SameBytesInTransit(s, Next(p, s, step));
    case SenderReturns => SameBytesInTransit(s, Next(p, s, step));
    case SetPause(_) => SameBytesInTransit(s, Next(p, s, step));
    case ResetCounters => SameBytesInTransit(s, Next(p, s, step));
  }

  lemma {:induction false} ReceiveAtTheBack(p: Params, s: State, chunk: Bytes)
    requires Enabled(p, s, PumpRecv(chunk))
    ensures InTransit(Next(p, s, PumpRecv(chunk))) == InTransit(s) + chunk
  {
    var t := Next(p, s, PumpRecv(chunk));
    assert BehindBuffer(t) == BehindBuffer(s) + chunk;
    Assoc(s.buf, BehindBuffer(s), chunk);
    Assoc(Value(s.inFlight), BehindFlight(s), chunk);
    Assoc(Concat(s.frames), BehindQueue(s), chunk);
    Assoc(HeldFrame(s), BehindSender(s), chunk);
  }

  lemma DeliverFromTheFront(p: Params, s: State)
    requires Enabled(p, s, Deliver)
    ensures Concat(Next(p, s, Deliver).delivered) + InTransit(Next(p, s, Deliver)) == Concat(s.delivered) + InTransit(s)
  {
    var t := Next(p, s, Deliver);
    ConcatBack(s.delivered, s.sender.frame);
    Assoc(Concat(s.delivered), s.sender.frame, BehindSender(s));
    assert BehindSender(t) == BehindSender(s) && HeldFrame(t) == [];
    assert [] + BehindSender(s) == BehindSender(s);
  }

  lemma PrefixOfSum(a: Bytes, b: Bytes, c: Bytes)
    requires a + b == c
    ensures a <= c
  {
    assert c[..|a|] == a;
  }

  lemma ConservedStep(p: Params, s: State, step: Step)
    requires Conserved(s) && Tasks(s) && Enabled(p, s, step)
    ensures Conserved(Next(p, s, step))
  {
    var t := Next(p, s, step);
    if step.PumpRecv? {
      ReceiveAtTheBack(p, s, step.chunk);
      Assoc(Concat(s.delivered), InTransit(s), step.chunk);
    } else if step.Deliver? {
      DeliverFromTheFront(p, s);
      PrefixOfSum(Concat(t.delivered), InTransit(t), t.received);
    } else if Inner(s, step) {
      InnerStepKeepsEnds(p, s, step);
      InnerStepKeepsBytes(p, s, step);
    }
  }

  lemma InputBoundedStep(p: Params, s: State, step: Step)
    requires InputBounded(p, s) && Enabled(p, s, step)
    ensures InputBounded(p, Next(p, s, step))
  {
    var t := Next(p, s, step);
    if step.PumpSend? {
      assert t.input == s.input + [s.pump.value];
    } else if step.Absorb? {
      assert t.input == s.input[1..] && t.pump == s.pump;
    } else {
      assert t.input == s.input;
    }
  }

  lemma SettleBounded(p: Params, s: State, chunk: Bytes, idle: bool)
    requires BufferBounded(p, s) && s.inFlight.None? && |chunk| <= p.chunkMax
    ensures BufferBounded(p, Settle(s, Arrive(p.cfg, s.buf, chunk, idle)))
    ensures BufferBounded(p, Settle(s, Flush(s.buf)))
  {
  }

  lemma AbsorbBounded(p: Params, s: State, idle: bool)
    requires InputBounded(p, s) && BufferBounded(p, s) && Enabled(p, s, Absorb(idle))
    ensures BufferBounded(p, Next(p, s, Absorb(idle)))
  {
    var c := s.counters;
    SettleBounded(p, s.(input := s.input[1..], counters := c.(bytesIn := c.bytesIn + |s.input[0]|)), s.input[0], idle);
  }

  lemma BufferBoundedStep(p: Params, s: State, step: Step)
    requires InputBounded(p, s) && BufferBounded(p, s) && Enabled(p, s, step)
    ensures BufferBounded(p, Next(p, s, step))
  {
    match step
    case Absorb(idle) => AbsorbBounded(p, s, idle);
    case TickFires => SettleBounded(p, s, [], false);
    case InputEnds => SettleBounded(p, s.(task := Ending), [], false);
    case _ =>
  }

  lemma TailBounded(frames: seq<Bytes>, max: nat)
    requires FramesBounded(frames, max) && frames != []
    ensures FramesBounded(frames[1..], max) && 1 <= |frames[0]| <= max
  {
  }

  lemma SnocBounded(frames: seq<Bytes>, frame: Bytes, max: nat)
    requires FramesBounded(frames, max) && 1 <= |frame| <= max
    ensures FramesBounded(frames + [frame], max)
  {
  }

  lemma OutputBoundedStep(p: Params, s: State, step: Step)
    requires BufferBounded(p, s) && OutputBounded(p, s) && Enabled(p, s, step)
    ensures OutputBounded(p, Next(p, s, step))
  {
    var max := FrameMax(p.cfg, p.chunkMax);
    if step.TakeFrame? {
      TailBounded(s.frames, max);
    } else if step.SendFrame? {
      SnocBounded(s.frames, s.inFlight.value, max);
    } else if step.Deliver? {
      SnocBounded(s.delivered, s.sender.frame, max);
    } else {
      var t := Next(p, s, step);
      assert t.frames == s.frames && t.delivered == s.delivered;
    }
  }

  lemma BoundedStep(p: Params, s: State, step: Step)
    requires Bounded(p, s) && Enabled(p, s, step)
    ensures Bounded(p, Next(p, s, step))
  {
    InputBoundedStep(p, s, step);
    BufferBoundedStep(p, s, step);
    OutputBoundedStep(p, s, step);
  }

  lemma UpstreamStep(p: Params, s: State, step: Step)
    requires Tasks(s) && Enabled(p, s, step)
    ensures Upstream(Next(p, s, step))
  {
  }

  lemma DownstreamStep(p: Params, s: State, step: Step)
    requires Tasks(s) && Enabled(p, s, step)
    ensures Downstream(Next(p, s, step))
  {
  }

  lemma CountedStep(p: Params, s: State, step: Step)
    requires Counted(s) && Enabled(p, s, step)
    ensures Counted(Next(p, s, step))
  {
  }

  lemma SettleTallied(s: State, held: Held)
    requires Tallied(s)
    ensures Tallied(Settle(s, held))
  {
    if held.frame.Some? {
      var n, f := s.shippedAtReset, held.frame.value;
      assert (s.shipped + [f])[n..] == s.shipped[n..] + [f];
      AppendFrame(s.shipped[n..], f);
    }
  }

  lemma OthersCountNothing(p: Params, s: State, step: Step)
    requires Enabled(p, s, step) && !step.Absorb? && !step.TickFires? && !step.InputEnds? && !step.ResetCounters?
    ensures
      var t := Next(p, s, step);
      t.shipped == s.shipped && t.shippedAtReset == s.shippedAtReset && t.counters == s.counters
  {
  }

  lemma TalliedStep(p: Params, s: State, step: Step)
    requires Tallied(s) && Enabled(p, s, step)
    ensures Tallied(Next(p, s, step))
  {
    if step.Absorb? {
      var c := s.counters;
      var t := s.(input := s.input[1..], counters := c.(bytesIn := c.bytesIn + |s.input[0]|));
      SettleTallied(t, Arrive(p.cfg, s.buf, s.input[0], step.idle));
    } else if step.TickFires? {
      SettleTallied(s, Flush(s.buf));
    } else if step.InputEnds? {
      SettleTallied(s.(task := Ending), Flush(s.buf));
    } else if !step.ResetCounters? {
      OthersCountNothing(p, s, step);
    }
  }

  lemma SettleIntact(s: State, held: Held)
    requires FramesIntact(s) && s.inFlight.None?
    ensures FramesIntact(Settle(s, held))
  {
    if held.frame.Some? && !s.lost {
      var f := held.frame.value;
      assert AsList(None) == [] && AsList(Some(f)) == [f];
      assert s.delivered + Underway(s) + [f] == s.delivered + (Underway(s) + [f]);
    }
  }

  lemma DeliverKeepsFrames(p: Params, s: State)
    requires FramesIntact(s) && Tasks(s) && Enabled(p, s, Deliver)
    ensures FramesIntact(Next(p, s, Deliver))
  {
    var f := s.sender.frame;
    assert s.delivered + Underway(s) == s.delivered + [f] + (s.frames + AsList(s.inFlight));
  }

  lemma MovesKeepFrames(p: Params, s: State, step: Step)
    requires Enabled(p, s, step) && (step.SendFrame? || step.TakeFrame?)
    ensures Underway(Next(p, s, step)) == Underway(s)
  {
  }

  lemma OthersKeepFrames(p: Params, s: State, step: Step)
    requires Tasks(s) && Enabled(p, s, step) && !step.Absorb? && !step.TickFires? && !step.InputEnds? && !step.Deliver?
    requires !step.SendFrame? && !step.TakeFrame? && !Next(p, s, step).lost
    ensures Underway(Next(p, s, step)) == Underway(s)
  {
  }

  lemma OthersShipNothing(p: Params, s: State, step: Step)
    requires Enabled(p, s, step) && !step.Absorb? && !step.TickFires? && !step.InputEnds? && !step.Deliver?
    ensures
      var t := Next(p, s, step);
      t.shipped == s.shipped && t.delivered == s.delivered && (s.lost ==> t.lost)
  {
  }

  lemma FramesIntactStep(p: Params, s: State, step: Step)
    requires FramesIntact(s) && Tasks(s) && Enabled(p, s, step)
    ensures FramesIntact(Next(p, s, step))
  {
    if step.Absorb? {
      var c := s.counters;
      var t := s.(input := s.input[1..], counters := c.(bytesIn := c.bytesIn + |s.input[0]|));
      SettleIntact(t, Arrive(p.cfg, s.buf, s.input[0], step.idle));
    } else if step.TickFires? {
      SettleIntact(s, Flush(s.buf));
    } else if step.InputEnds? {
      SettleIntact(s.(task := Ending), Flush(s.buf));
    } else if step.Deliver? {
      DeliverKeepsFrames(p, s);
    } else {
      OthersShipNothing(p, s, step);
      if step.SendFrame? || step.TakeFrame? {
        MovesKeepFrames(p, s, step);
      } else if !Next(p, s, step).lost {
        OthersKeepFrames(p, s, step);
      }
    }
  }

  lemma GatedStep(p: Params, s: State, step: Step)
    requires Gated(s) && Enabled(p, s, step)
    ensures Gated(Next(p, s, step))
  {
  }

  lemma StepKeepsInv(p: Params, s: State, step: Step)
    requires Inv(p, s) && Enabled(p, s, step)
    ensures Inv(p, Next(p, s, step))
  {
    ConservedStep(p, s, step);
    BoundedStep(p, s, step);
    UpstreamStep(p, s, step);
    DownstreamStep(p, s, step);
    CountedStep(p, s, step);
    GatedStep(p, s, step);
  }

  // ---------------------------------------------------------------- every interleaving

  /** A run: any sequence of enabled steps from the start. */
  ghost predicate IsRun(p: Params, states: seq<State>, steps: seq<Step>) {
    && |states| == |steps| + 1 && states[0] == START
    && forall i | 0 <= i < |steps| :: Enabled(p, states[i], steps[i]) && states[i + 1] == Next(p, states[i], steps[i])
  }

  lemma {:induction false} EveryInterleaving(p: Params, states: seq<State>, steps: seq<Step>, i: nat)
    requires IsRun(p, states, steps) && i < |states|
    ensures Inv(p, states[i]) && Tallied(states[i]) && FramesIntact(states[i])
  {
    if i == 0 {
      StartInv(p);
    } else {
      EveryInterleaving(p, states, steps, i - 1);
      StepKeepsInv(p, states[i - 1], steps[i - 1]);
      TalliedStep(p, states[i - 1], steps[i - 1]);
      FramesIntactStep(p, states[i - 1], steps[i - 1]);
    }
  }

  /** At any moment of any run nothing is lost, repeated or reordered as long as the sender lives. */
  lemma BytesArriveInOrder(p: Params, states: seq<State>, steps: seq<Step>, i: nat)
    requires IsRun(p, states, steps) && i < |states|
    ensures !states[i].lost ==> Concat(states[i].delivered) + InTransit(states[i]) == states[i].received
    ensures Concat(states[i].delivered) <= states[i].received
    ensures FramesBounded(states[i].delivered, FrameMax(p.cfg, p.chunkMax))
    ensures states[i].paused ==> states[i].sincePause <= 1
    ensures states[i].counters.bytesIn + states[i].bufAtReset == states[i].counters.bytesOut + |states[i].buf|
    ensures states[i].delivered <= states[i].shipped && Tallied(states[i])
  {
    EveryInterleaving(p, states, steps, i);
  }

  // ---------------------------------------------------------------- backpressure

  lemma {:induction false} ConcatBound(parts: seq<Bytes>, max: nat)
    requires forall i | 0 <= i < |parts| :: |parts[i]| <= max
    ensures |Concat(parts)| <= |parts| * max
  {
    if parts != [] {
      ConcatBound(parts[..|parts| - 1], max);
      assert |parts| * max == (|parts| - 1) * max + max;
    }
  }

  lemma DepthTimes(n: nat, max: nat)
    requires n <= QUEUE_DEPTH
    ensures n * max <= QUEUE_DEPTH * max
  {
  }

  /**
    The path never holds more than one chunk at the pump, a full queue of chunks, one frame being built
    or sent, a full queue of frames and one frame at the gate: a gate left closed stops the transport.
   */
  lemma BufferingIsBounded(p: Params, s: State)
    requires Inv(p, s)
    ensures |InTransit(s)| <= (QUEUE_DEPTH + 1) * p.chunkMax + (QUEUE_DEPTH + 2) * FrameMax(p.cfg, p.chunkMax)
  {
    var c, f := p.chunkMax, FrameMax(p.cfg, p.chunkMax);
    ConcatBound(s.input, c);
    ConcatBound(s.frames, f);
    DepthTimes(|s.input|, c);
    DepthTimes(|s.frames|, f);
    assert |s.buf| + |Value(s.inFlight)| <= f;
  }

  // ---------------------------------------------------------------- progress

  /** The steps the path takes on its own accord. */
  predicate Internal(step: Step) {
    || step.PumpSend? || step.Absorb? || step.TickFires? || step.SendFrame?
    || step.TakeFrame? || step.PassGate? || step.Deliver?
  }

  /** How many internal steps what is in transit can still take. */
  function Work(s: State): nat {
    (if s.pump.Some? then 7 else 0) + 6 * |s.input| + (if s.buf != [] then 5 else 0)
    + (if s.inFlight.Some? then 4 else 0) + 3 * |s.frames|
    + (if s.sender.AtGate? then 2 else if s.sender.PastGate? then 1 else 0)
  }

  lemma InternalStepKeepsEnds(p: Params, s: State, step: Step)
    requires Enabled(p, s, step) && Internal(step)
    ensures Next(p, s, step).paused == s.paused && Next(p, s, step).lost == s.lost
    ensures Next(p, s, step).received == s.received
  {
  }

  /** At most one of buffer and frame in flight is left: 5 of the work, or 4. */
  lemma SettledWork(p: Params, s: State, held: Held, buf: Bytes)
    requires s.inFlight.None? && (held == Held(buf, None) || held == Flush(buf))
    ensures Work(Settle(s, held)) <= Work(s.(buf := [])) + 5
    ensures buf != [] && held == Flush(buf) ==> Work(Settle(s, held)) == Work(s.(buf := [])) + 4
  {
  }

  lemma EarlyStepLowersWork(p: Params, s: State, step: Step)
    requires Enabled(p, s, step) && (step.Absorb? || step.TickFires? || step.PumpSend?)
    ensures Work(Next(p, s, step)) < Work(s)
  {
    if step.Absorb? {
      var chunk, c := s.input[0], s.counters;
      var t := s.(input := s.input[1..], counters := c.(bytesIn := c.bytesIn + |chunk|));
      SettledWork(p, t, Arrive(p.cfg, s.buf, chunk, step.idle), s.buf + chunk);
      assert Next(p, s, step) == Settle(t, Arrive(p.cfg, s.buf, chunk, step.idle));
      assert Work(t.(buf := [])) + 6 <= Work(s);
    } else if step.TickFires? {
      SettledWork(p, s, Flush(s.buf), s.buf);
      assert Next(p, s, step) == Settle(s, Flush(s.buf));
    }
  }

  lemma LateStepLowersWork(p: Params, s: State, step: Step)
    requires Enabled(p, s, step) && (step.SendFrame? || step.TakeFrame? || step.PassGate? || step.Deliver?)
    ensures Work(Next(p, s, step)) < Work(s)
  {
  }

  lemma InternalStepLowersWork(p: Params, s: State, step: Step)
    requires Enabled(p, s, step) && Internal(step)
    ensures Work(Next(p, s, step)) < Work(s)
    ensures Next(p, s, step).paused == s.paused && Next(p, s, step).lost == s.lost
    ensures Next(p, s, step).received == s.received
  {
    InternalStepKeepsEnds(p, s, step);
    if step.Absorb? || step.TickFires? || step.PumpSend? {
      EarlyStepLowersWork(p, s, step);
    } else {
      LateStepLowersWork(p, s, step);
    }
  }

  /** With the gate open, bytes in transit always have a next step to take. */
  lemma NeverStuck(p: Params, s: State)
    requires Inv(p, s) && !s.lost && !s.paused && InTransit(s) != []
    ensures exists step :: Internal(step) && Enabled(p, s, step)
  {
    if s.sender.PastGate? {
      assert Enabled(p, s, Deliver);
    } else if s.sender.AtGate? {
      assert Enabled(p, s, PassGate);
    } else if s.sender == Gone {
      assert false;
    } else if s.frames != [] {
      assert Enabled(p, s, TakeFrame);
    } else if s.inFlight.Some? {
      assert Enabled(p, s, SendFrame);
    } else if s.buf != [] {
      assert Enabled(p, s, TickFires);
    } else if s.input != [] {
      assert Enabled(p, s, Absorb(true));
    } else {
      assert s.pump.Some?;
      assert Enabled(p, s, PumpSend);
    }
  }

  /** A stretch of internal steps from any state. */
  ghost predicate IsInternalRun(p: Params, states: seq<State>, steps: seq<Step>) {
    && |states| == |steps| + 1
    && forall i | 0 <= i < |steps| ::
         Internal(steps[i]) && Enabled(p, states[i], steps[i]) && states[i + 1] == Next(p, states[i], steps[i])
  }

  lemma {:induction false} InternalRunIsBounded(p: Params, states: seq<State>, steps: seq<Step>, i: nat)
    requires IsInternalRun(p, states, steps) && Inv(p, states[0]) && i < |states|
    ensures i + Work(states[i]) <= Work(states[0])
    ensures Inv(p, states[i])
    ensures states[i].paused == states[0].paused && states[i].lost == states[0].lost
    ensures states[i].received == states[0].received
  {
    if i > 0 {
      InternalRunIsBounded(p, states, steps, i - 1);
      InternalStepLowersWork(p, states[i - 1], steps[i - 1]);
      StepKeepsInv(p, states[i - 1], steps[i - 1]);
    }
  }

  /**
    Everything received is delivered. With the gate open and the sender alive, any stretch of internal
    steps is at most `Work` long, and when no further one is possible the webview has every byte.
   */
  lemma EverythingIsDelivered(p: Params, states: seq<State>, steps: seq<Step>)
    requires IsInternalRun(p, states, steps) && Inv(p, states[0]) && !states[0].paused && !states[0].lost
    ensures |steps| <= Work(states[0])
    ensures
      var last := states[|steps|];
      (forall step :: Internal(step) ==> !Enabled(p, last, step)) ==> Concat(last.delivered) == states[0].received
  {
    InternalRunIsBounded(p, states, steps, |steps|);
    var last := states[|steps|];
    if forall step :: Internal(step) ==> !Enabled(p, last, step) {
      if InTransit(last) != [] {
        NeverStuck(p, last);
      }
    }
  }
}
