/**
  Output coalescing and its counters (crates/term-stream/src/lib.rs): chunks in, frames out, flushed on
  size, after an idle gap, or on a tick.
 */
module Coalescer {
  import opened Options
  import opened Text

  const NEWLINE: byte := 10

  datatype Config = Config(maxFrame: nat)

  function Concat(parts: seq<Bytes>): Bytes {
    if parts == [] then [] else Concat(parts[..|parts| - 1]) + parts[|parts| - 1]
  }

  function Newlines(b: Bytes): nat {
    if b == [] then 0 else Newlines(b[..|b| - 1]) + (if b[|b| - 1] == NEWLINE then 1 else 0)
  }

  function Max(a: nat, b: nat): nat {
    if a >= b then a else b
  }

  /** The longest frame possible when no chunk is longer than `chunkMax`. */
  function FrameMax(cfg: Config, chunkMax: nat): nat {
    Max(cfg.maxFrame, 1) - 1 + chunkMax
  }

  /** What the coalescer holds, and the frame it gives off, if any. */
  datatype Held = Held(buf: Bytes, frame: Option<Bytes>)

  /** Flush: an empty buffer gives off no frame. */
  function Flush(buf: Bytes): Held {
    if buf == [] then Held([], None) else Held([], Some(buf))
  }

  /** A chunk arrives; `idle` is whether a whole tick has passed since the last flush. */
  function Arrive(cfg: Config, buf: Bytes, chunk: Bytes, idle: bool): Held {
    var more := buf + chunk;
    if |more| >= cfg.maxFrame || (buf == [] && idle) then Flush(more) else Held(more, None)
  }

  datatype Input = Chunk(bytes: Bytes, idle: bool) | Tick

  function React(cfg: Config, buf: Bytes, input: Input): Held {
    match input
    case Chunk(bytes, idle) => Arrive(cfg, buf, bytes, idle)
    case Tick => Flush(buf)
  }

  function Emit(frames: seq<Bytes>, frame: Option<Bytes>): seq<Bytes> {
    if frame.Some? then frames + [frame.value] else frames
  }

  /** Buffer and frames after the first `n` inputs. */
  function CoalesceUpTo(cfg: Config, inputs: seq<Input>, n: nat): (Bytes, seq<Bytes>)
    requires n <= |inputs|
  {
    if n == 0 then ([], [])
    else
      var (buf, frames) := CoalesceUpTo(cfg, inputs, n - 1);
      var held := React(cfg, buf, inputs[n - 1]);
      (held.buf, Emit(frames, held.frame))
  }

  /** All frames of an input that closes: the remainder ships at the end. */
  function Coalesced(cfg: Config, inputs: seq<Input>): seq<Bytes> {
    var (buf, frames) := CoalesceUpTo(cfg, inputs, |inputs|);
    Emit(frames, Flush(buf).frame)
  }

  /** The bytes received by the first `n` inputs. */
  function Received(inputs: seq<Input>, n: nat): Bytes
    requires n <= |inputs|
  {
    if n == 0 then []
    else if inputs[n - 1].Chunk? then Received(inputs, n - 1) + inputs[n - 1].bytes
    else Received(inputs, n - 1)
  }

  predicate ChunksBounded(inputs: seq<Input>, n: nat, max: nat)
    requires n <= |inputs|
  {
    forall i | 0 <= i < n :: inputs[i].Chunk? ==> |inputs[i].bytes| <= max
  }

  // ---------------------------------------------------------------- the counters and the loop

  class StreamStats {
    var bytesIn: nat
    var newlinesIn: nat
    var framesOut: nat
    var bytesOut: nat
    var maxFrameBytes: nat

    constructor ()
      ensures bytesIn == newlinesIn == framesOut == bytesOut == maxFrameBytes == 0
    {
      bytesIn, newlinesIn, framesOut, bytesOut, maxFrameBytes := 0, 0, 0, 0, 0;
    }

    method Reset()
      modifies this
      ensures bytesIn == newlinesIn == framesOut == bytesOut == maxFrameBytes == 0
    {
      bytesIn, newlinesIn, framesOut, bytesOut, maxFrameBytes := 0, 0, 0, 0, 0;
    }

    method RecordIn(chunk: Bytes)
      modifies this`bytesIn, this`newlinesIn
      ensures bytesIn == old(bytesIn) + |chunk|
      ensures newlinesIn == old(newlinesIn) + Newlines(chunk)
    {
      bytesIn := bytesIn + |chunk|;
      var newlines := 0;
      for i := 0 to |chunk|
        invariant newlines == Newlines(chunk[..i])
      {
        assert chunk[..i + 1][..i] == chunk[..i];
        if chunk[i] == NEWLINE {
          newlines := newlines + 1;
        }
      }
      assert chunk[..|chunk|] == chunk;
      newlinesIn := newlinesIn + newlines;
    }

    method RecordOut(frameLen: nat)
      modifies this`framesOut, this`bytesOut, this`maxFrameBytes
      ensures framesOut == old(framesOut) + 1
      ensures bytesOut == old(bytesOut) + frameLen
      ensures maxFrameBytes == Max(old(maxFrameBytes), frameLen)
    {
      framesOut := framesOut + 1;
      bytesOut := bytesOut + frameLen;
      maxFrameBytes := if maxFrameBytes >= frameLen then maxFrameBytes else frameLen;
    }
  }

  function Longest(frames: seq<Bytes>): nat {
    if frames == [] then 0 else Max(Longest(frames[..|frames| - 1]), |frames[|frames| - 1]|)
  }

  lemma AppendFrame(frames: seq<Bytes>, frame: Bytes)
    ensures Concat(frames + [frame]) == Concat(frames) + frame
    ensures Longest(frames + [frame]) == Max(Longest(frames), |frame|)
  {
    assert (frames + [frame])[..|frames|] == frames;
  }

  lemma {:induction false} NewlinesConcat(a: Bytes, b: Bytes)
    ensures Newlines(a + b) == Newlines(a) + Newlines(b)
  {
    if b == [] {
      assert a + b == a;
    } else {
      assert (a + b)[..|a + b| - 1] == a + b[..|b| - 1];
      NewlinesConcat(a, b[..|b| - 1]);
    }
  }

  /** The buffer becomes a frame and is counted out. */
  method Ship(frames: seq<Bytes>, frame: Bytes, stats: StreamStats) returns (out: seq<Bytes>)
    modifies stats
    ensures out == frames + [frame]
    ensures stats.bytesIn == old(stats.bytesIn) && stats.newlinesIn == old(stats.newlinesIn)
    ensures stats.framesOut == old(stats.framesOut) + 1 && stats.bytesOut == old(stats.bytesOut) + |frame|
    ensures stats.maxFrameBytes == Max(old(stats.maxFrameBytes), |frame|)
    ensures |Concat(out)| == |Concat(frames)| + |frame| && Longest(out) == Max(Longest(frames), |frame|)
  {
    stats.RecordOut(|frame|);
    AppendFrame(frames, frame);
    out := frames + [frame];
  }

  /** One turn of the loop: a chunk joins the buffer or the tick fires, and the buffer ships if it is time. */
  method TakeInput(cfg: Config, buf: Bytes, frames: seq<Bytes>, input: Input, stats: StreamStats)
    returns (held: Bytes, out: seq<Bytes>)
    modifies stats
    ensures held == React(cfg, buf, input).buf && out == Emit(frames, React(cfg, buf, input).frame)
    ensures stats.bytesIn == old(stats.bytesIn) + (if input.Chunk? then |input.bytes| else 0)
    ensures stats.newlinesIn == old(stats.newlinesIn) + (if input.Chunk? then Newlines(input.bytes) else 0)
    ensures stats.framesOut - |out| == old(stats.framesOut) - |frames|
    ensures stats.bytesOut - |Concat(out)| == old(stats.bytesOut) - |Concat(frames)|
    ensures if out == frames then stats.maxFrameBytes == old(stats.maxFrameBytes)
            else stats.maxFrameBytes == Max(old(stats.maxFrameBytes), |out[|out| - 1]|)
                 && Longest(out) == Max(Longest(frames), |out[|out| - 1]|)
  {
    held, out := buf, frames;
    var flush := false;
    match input {
      case Chunk(bytes, idle) =>
        stats.RecordIn(bytes);
        var wasEmpty := held == [];
        held := held + bytes;
        flush := |held| >= cfg.maxFrame || (wasEmpty && idle);
      case Tick =>
        flush := true;
    }
    if flush && held != [] {
      out := Ship(out, held, stats);
      held := [];
    }
  }

  /** The coalescing loop on an input that closes after `inputs`, with a consumer that stays. */
  method Coalesce(cfg: Config, inputs: seq<Input>, stats: StreamStats) returns (frames: seq<Bytes>)
    modifies stats
    ensures frames == Coalesced(cfg, inputs)
    ensures stats.bytesIn == old(stats.bytesIn) + |Received(inputs, |inputs|)|
    ensures stats.newlinesIn == old(stats.newlinesIn) + Newlines(Received(inputs, |inputs|))
    ensures stats.framesOut == old(stats.framesOut) + |frames|
    ensures stats.bytesOut == old(stats.bytesOut) + |Concat(frames)|
    ensures stats.maxFrameBytes == Max(old(stats.maxFrameBytes), Longest(frames))
  {
    var buf: Bytes := [];
    frames := [];
    for i := 0 to |inputs|
      invariant (buf, frames) == CoalesceUpTo(cfg, inputs, i)
      invariant stats.bytesIn == old(stats.bytesIn) + |Received(inputs, i)|
      invariant stats.newlinesIn == old(stats.newlinesIn) + Newlines(Received(inputs, i))
      invariant stats.framesOut == old(stats.framesOut) + |frames|
      invariant stats.bytesOut == old(stats.bytesOut) + |Concat(frames)|
      invariant stats.maxFrameBytes == Max(old(stats.maxFrameBytes), Longest(frames))
    {
      if inputs[i].Chunk? {
        NewlinesConcat(Received(inputs, i), inputs[i].bytes);
      }
      buf, frames := TakeInput(cfg, buf, frames, inputs[i], stats);
    }
    if buf != [] {
      frames := Ship(frames, buf, stats);
    }
  }

  lemma {:induction false} ConcatFront(parts: seq<Bytes>)
    requires parts != []
    ensures Concat(parts) == parts[0] + Concat(parts[1..])
  {
    if |parts| > 1 {
      ConcatFront(parts[..|parts| - 1]);
      assert parts[..|parts| - 1][1..] == parts[1..][..|parts| - 2];
    }
  }

  // ---------------------------------------------------------------- what coalescing keeps

  /** No frame is empty, none is longer than a full buffer plus one chunk. */
  predicate FramesBounded(frames: seq<Bytes>, max: nat) {
    forall i | 0 <= i < |frames| :: 1 <= |frames[i]| <= max
  }

  /** One input: the bytes are kept in order, the buffer stays below the threshold, the frame is bounded. */
  lemma ReactKeeps(cfg: Config, buf: Bytes, frames: seq<Bytes>, input: Input, chunkMax: nat)
    requires |buf| < Max(cfg.maxFrame, 1) && FramesBounded(frames, FrameMax(cfg, chunkMax))
    requires input.Chunk? ==> |input.bytes| <= chunkMax
    ensures
      var held := React(cfg, buf, input);
      var more := Concat(frames) + buf;
      && Concat(Emit(frames, held.frame)) + held.buf == (if input.Chunk? then more + input.bytes else more)
      && |held.buf| < Max(cfg.maxFrame, 1)
      && FramesBounded(Emit(frames, held.frame), FrameMax(cfg, chunkMax))
  {
    var held := React(cfg, buf, input);
    if held.frame.Some? {
      AppendFrame(frames, held.frame.value);
    }
    if input.Chunk? {
      assert Concat(frames) + (buf + input.bytes) == Concat(frames) + buf + input.bytes;
    }
  }

  lemma {:induction false} Midstream(cfg: Config, inputs: seq<Input>, n: nat, chunkMax: nat)
    requires n <= |inputs| && ChunksBounded(inputs, n, chunkMax)
    ensures
      var (buf, frames) := CoalesceUpTo(cfg, inputs, n);
      && Concat(frames) + buf == Received(inputs, n)
      && |buf| < Max(cfg.maxFrame, 1)
      && FramesBounded(frames, FrameMax(cfg, chunkMax))
  {
    if n > 0 {
      Midstream(cfg, inputs, n - 1, chunkMax);
      var (buf, frames) := CoalesceUpTo(cfg, inputs, n - 1);
      ReactKeeps(cfg, buf, frames, inputs[n - 1], chunkMax);
    }
  }

  lemma {:induction false} LongestBounded(frames: seq<Bytes>, max: nat)
    requires FramesBounded(frames, max)
    ensures Longest(frames) <= max
  {
    if frames != [] {
      LongestBounded(frames[..|frames| - 1], max);
    }
  }

  /** Every byte comes out once and in order, in frames of bounded length. */
  lemma CoalescingLosesNothing(cfg: Config, inputs: seq<Input>, chunkMax: nat)
    requires ChunksBounded(inputs, |inputs|, chunkMax)
    ensures Concat(Coalesced(cfg, inputs)) == Received(inputs, |inputs|)
    ensures FramesBounded(Coalesced(cfg, inputs), FrameMax(cfg, chunkMax))
    ensures Longest(Coalesced(cfg, inputs)) <= FrameMax(cfg, chunkMax)
  {
    Midstream(cfg, inputs, |inputs|, chunkMax);
    var (buf, frames) := CoalesceUpTo(cfg, inputs, |inputs|);
    if buf != [] {
      AppendFrame(frames, buf);
    } else {
      assert Concat(frames) + buf == Concat(frames);
    }
    LongestBounded(Coalesced(cfg, inputs), FrameMax(cfg, chunkMax));
  }

  // ---------------------------------------------------------------- when a frame ships

  /** What is waiting once an input is in. */
  function Waiting(buf: Bytes, input: Input): Bytes {
    if input.Chunk? then buf + input.bytes else buf
  }

  /**
    What is waiting ships exactly when there is something, and the tick fires, it has reached the largest frame, or it
    came into an empty buffer after an idle gap; all of it ships, as one frame.
   */
  lemma ShipsExactly(cfg: Config, inputs: seq<Input>, n: nat)
    requires n < |inputs|
    ensures
      var (buf, frames) := CoalesceUpTo(cfg, inputs, n);
      var (left, sent) := CoalesceUpTo(cfg, inputs, n + 1);
      var waiting := Waiting(buf, inputs[n]);
      if waiting != [] && (inputs[n].Tick? || |waiting| >= cfg.maxFrame || (buf == [] && inputs[n].idle))
      then sent == frames + [waiting] && left == []
      else sent == frames && left == waiting
  {
  }

  predicate AllFull(cfg: Config, frames: seq<Bytes>) {
    forall k | 0 <= k < |frames| :: |frames[k]| >= cfg.maxFrame
  }

  /** Without a tick and without an idle gap only full frames ship: chunks are batched. */
  lemma {:induction false} BusyFramesAreFull(cfg: Config, inputs: seq<Input>, n: nat, frames: seq<Bytes>)
    requires n <= |inputs| && forall i | 0 <= i < n :: inputs[i].Chunk? && !inputs[i].idle
    requires frames == CoalesceUpTo(cfg, inputs, n).1
    ensures AllFull(cfg, frames)
  {
    if n > 0 {
      var (buf, before) := CoalesceUpTo(cfg, inputs, n - 1);
      BusyFramesAreFull(cfg, inputs, n - 1, before);
      ShipsExactly(cfg, inputs, n - 1);
      assert frames == before || frames == before + [Waiting(buf, inputs[n - 1])];
    }
  }

  /** The chunks among the first `n` inputs that are not empty, in order. */
  function NonEmpty(inputs: seq<Input>, n: nat): seq<Bytes>
    requires n <= |inputs|
  {
    if n == 0 then []
    else if inputs[n - 1].Chunk? && inputs[n - 1].bytes != [] then NonEmpty(inputs, n - 1) + [inputs[n - 1].bytes]
    else NonEmpty(inputs, n - 1)
  }

  /** Where every chunk comes after an idle gap, each is a frame at once: an echo never waits for the tick. */
  lemma {:induction false} EchoIsImmediate(cfg: Config, inputs: seq<Input>, n: nat)
    requires n <= |inputs| && forall i | 0 <= i < n :: inputs[i].Chunk? ==> inputs[i].idle
    ensures CoalesceUpTo(cfg, inputs, n) == ([], NonEmpty(inputs, n))
  {
    if n > 0 {
      EchoIsImmediate(cfg, inputs, n - 1);
      ShipsExactly(cfg, inputs, n - 1);
      if inputs[n - 1].Chunk? {
        assert [] + inputs[n - 1].bytes == inputs[n - 1].bytes;
      }
    }
  }
}
