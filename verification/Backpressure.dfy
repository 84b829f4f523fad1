/**
  The data path and the webview client joined into one loop: frames travel up a channel, pause and resume
  commands travel down another, both in order, and the gate is what the last command to arrive says. Any
  enabled act may come next.
 */
module Backpressure {
  import opened Options
  import opened Text
  import opened Coalescer
  import DataPath
  import FlowControl

  /**
    `channel` holds frames on their way to the webview, `commands` commands on their way to the backend.
    `parsed` is history: the frames whose write the terminal has called back.
   */
  datatype System = System(
    path: DataPath.State,
    channel: seq<Bytes>,
    client: FlowControl.Client,
    parsed: seq<Bytes>,
    commands: seq<FlowControl.Command>)

  const OPENED := System(DataPath.START, [], FlowControl.OPENED, [], [])

  datatype Act =
    | Backend(step: DataPath.Step)   // a step of the path other than a flip of the gate
    | Arrive                         // the oldest frame reaches the webview
    | Parsed                         // the terminal calls the oldest write back
    | Obey                           // the oldest command reaches the gate
    | IdArrives
    | ClearStats

  predicate Enabled(p: DataPath.Params, s: System, act: Act) {
    match act
    case Backend(step) => !step.SetPause? && DataPath.Enabled(p, s.path, step)
    case Arrive => s.channel != []
    case Parsed => s.client.unacked != []
    case Obey => s.commands != []
    case IdArrives => true
    case ClearStats => true
  }

  /** The commands a reaction adds to those sent. */
  function Says(c: FlowControl.Client, e: FlowControl.Event): (more: seq<FlowControl.Command>)
    requires FlowControl.Possible(c, e)
    ensures FlowControl.Step(c, e).sent == c.sent + more
  {
    var sent := FlowControl.Step(c, e).sent;
    assert sent == c.sent + sent[|c.sent|..];
    sent[|c.sent|..]
  }

  /** The client reacts; what it sends goes on its way. */
  function Reacts(s: System, e: FlowControl.Event): System
    requires FlowControl.Possible(s.client, e)
  {
    s.(client := FlowControl.Step(s.client, e), commands := s.commands + Says(s.client, e))
  }

  function Next(p: DataPath.Params, s: System, act: Act): System
    requires Enabled(p, s, act)
  {
    match act
    case Backend(step) =>
      var t := DataPath.Next(p, s.path, step);
      s.(path := t, channel := if step.Deliver? then s.channel + [s.path.sender.frame] else s.channel)
    case Arrive => Reacts(s.(channel := s.channel[1..]), FlowControl.Frame(s.channel[0]))
    case Parsed => Reacts(s.(parsed := s.parsed + [s.client.unacked[0]]), FlowControl.Written)
    case Obey =>
      s.(path := DataPath.Next(p, s.path, DataPath.SetPause(s.commands[0].Pause?)), commands := s.commands[1..])
    case IdArrives => Reacts(s, FlowControl.IdArrives)
    case ClearStats => Reacts(s, FlowControl.ResetStats)
  }

  // ---------------------------------------------------------------- what every act keeps

  /** Each frame the sender delivered is on its way, in the terminal's write queue, or parsed. */
  ghost predicate FramesKept(s: System) {
    s.path.delivered == s.parsed + s.client.unacked + s.channel
  }

  ghost predicate ClientKept(c: FlowControl.Client) {
    FlowControl.Hysteresis(c) && c.flow.pending == FlowControl.Unacknowledged(c)
  }

  /** The last of some commands, for a gate that was open before the first. */
  function GateAfter(commands: seq<FlowControl.Command>): bool {
    commands != [] && commands[|commands| - 1].Pause?
  }

  /** The client's last word is its flag, and before it knows the session id it says nothing. */
  ghost predicate Spoken(c: FlowControl.Client) {
    && (!c.idKnown ==> c.sent == [])
    && (c.sent != [] ==> GateAfter(c.sent) == c.flow.paused)
  }

  /** The gate stands as the commands that arrived say, and the others are the last that were sent. */
  ghost predicate InOrder(paused: bool, sent: seq<FlowControl.Command>, commands: seq<FlowControl.Command>) {
    && |commands| <= |sent|
    && sent[|sent| - |commands|..] == commands
    && paused == GateAfter(sent[..|sent| - |commands|])
  }

  ghost predicate CommandsKept(s: System) {
    InOrder(s.path.paused, s.client.sent, s.commands)
  }

  ghost predicate Inv(p: DataPath.Params, s: System) {
    DataPath.Inv(p, s.path) && FramesKept(s) && ClientKept(s.client) && Spoken(s.client) && CommandsKept(s)
  }

  lemma OpenedInv(p: DataPath.Params)
    ensures Inv(p, OPENED)
  {
    DataPath.StartInv(p);
  }

  lemma ClientStep(c: FlowControl.Client, e: FlowControl.Event)
    requires FlowControl.Possible(c, e) && !e.ResetFlow? && ClientKept(c) && Spoken(c)
    ensures ClientKept(FlowControl.Step(c, e)) && Spoken(FlowControl.Step(c, e))
  {
    var h := FlowControl.History(0, c.flow.pending, 0, [], 0, []);
    FlowControl.StepHysteresis(c, h, e);
    FlowControl.StepAccounted(c, h, e);
  }

  lemma SentTogether(
      paused: bool, sent: seq<FlowControl.Command>, commands: seq<FlowControl.Command>, more: seq<FlowControl.Command>)
    requires InOrder(paused, sent, commands)
    ensures InOrder(paused, sent + more, commands + more)
  {
    var n := |sent| - |commands|;
    assert (sent + more)[..n] == sent[..n] && (sent + more)[n..] == sent[n..] + more;
  }

  lemma FirstArrives(paused: bool, sent: seq<FlowControl.Command>, commands: seq<FlowControl.Command>)
    requires InOrder(paused, sent, commands) && commands != []
    ensures InOrder(commands[0].Pause?, sent, commands[1..])
  {
    var n := |sent| - |commands|;
    assert sent[n] == commands[0] && sent[..n + 1] == sent[..n] + [commands[0]] && sent[n + 1..] == commands[1..];
  }

  lemma ReactsKeeps(s: System, e: FlowControl.Event, t: System)
    requires FlowControl.Possible(s.client, e) && !e.ResetFlow? && t == Reacts(s, e)
    requires ClientKept(s.client) && Spoken(s.client) && CommandsKept(s)
    ensures ClientKept(t.client) && Spoken(t.client) && CommandsKept(t)
  {
    ClientStep(s.client, e);
    SentTogether(s.path.paused, s.client.sent, s.commands, Says(s.client, e));
  }

  lemma BackendKeeps(p: DataPath.Params, s: System, step: DataPath.Step)
    requires FramesKept(s) && Enabled(p, s, Backend(step))
    ensures FramesKept(Next(p, s, Backend(step)))
    ensures DataPath.Next(p, s.path, step).paused == s.path.paused
  {
    if step.Deliver? {
      Assoc(s.parsed + s.client.unacked, s.channel, [s.path.sender.frame]);
    }
  }

  lemma FramesMove(p: DataPath.Params, s: System, act: Act)
    requires FramesKept(s) && Enabled(p, s, act) && (act.Arrive? || act.Parsed?)
    ensures FramesKept(Next(p, s, act))
  {
    if act.Arrive? {
      assert s.channel == [s.channel[0]] + s.channel[1..];
      Assoc(s.parsed, s.client.unacked, [s.channel[0]]);
      Assoc(s.parsed + s.client.unacked, [s.channel[0]], s.channel[1..]);
    } else {
      assert s.client.unacked == [s.client.unacked[0]] + s.client.unacked[1..];
      Assoc(s.parsed, [s.client.unacked[0]], s.client.unacked[1..]);
    }
  }

  lemma WebviewKeepsInv(p: DataPath.Params, s: System, act: Act)
    requires Inv(p, s) && Enabled(p, s, act) && !act.Backend? && !act.Obey?
    ensures Inv(p, Next(p, s, act))
  {
    var t := Next(p, s, act);
    match act
    case Arrive =>
      FramesMove(p, s, act);
      ReactsKeeps(s.(channel := s.channel[1..]), FlowControl.Frame(s.channel[0]), t);
    case Parsed =>
      FramesMove(p, s, act);
      ReactsKeeps(s.(parsed := s.parsed + [s.client.unacked[0]]), FlowControl.Written, t);
    case IdArrives => ReactsKeeps(s, FlowControl.IdArrives, t);
    case ClearStats => ReactsKeeps(s, FlowControl.ResetStats, t);
  }

  lemma BackendKeepsInv(p: DataPath.Params, s: System, act: Act)
    requires Inv(p, s) && Enabled(p, s, act) && (act.Backend? || act.Obey?)
    ensures Inv(p, Next(p, s, act))
  {
    if act.Backend? {
      DataPath.StepKeepsInv(p, s.path, act.step);
      BackendKeeps(p, s, act.step);
    } else {
      DataPath.StepKeepsInv(p, s.path, DataPath.SetPause(s.commands[0].Pause?));
      FirstArrives(s.path.paused, s.client.sent, s.commands);
    }
  }

  /** Every act, on either side of the two channels, keeps bytes, frames, watermarks and commands in order. */
  lemma ActKeepsInv(p: DataPath.Params, s: System, act: Act)
    requires Inv(p, s) && Enabled(p, s, act)
    ensures Inv(p, Next(p, s, act))
  {
    if act.Backend? || act.Obey? {
      BackendKeepsInv(p, s, act);
    } else {
      WebviewKeepsInv(p, s, act);
    }
  }

  /** A run: any sequence of enabled acts. */
  ghost predicate IsRun(p: DataPath.Params, states: seq<System>, acts: seq<Act>) {
    && |states| == |acts| + 1
    && forall i | 0 <= i < |acts| :: Enabled(p, states[i], acts[i]) && states[i + 1] == Next(p, states[i], acts[i])
  }

  lemma {:induction false} EveryRun(p: DataPath.Params, states: seq<System>, acts: seq<Act>, i: nat)
    requires IsRun(p, states, acts) && Inv(p, states[0]) && i < |states|
    ensures Inv(p, states[i])
  {
    if i > 0 {
      EveryRun(p, states, acts, i - 1);
      ActKeepsInv(p, states[i - 1], acts[i - 1]);
    }
  }

  // ---------------------------------------------------------------- the gate and the flag

  /** The client is paused and has not been able to say so: the pause came before it knew the session id. */
  predicate Unheard(c: FlowControl.Client) {
    c.flow.paused && c.sent == []
  }

  /**
    In every interleaving of backend and webview, once all commands have arrived the gate is closed exactly when
    the client is paused, unless the client is paused unheard; then, and only then, they differ.
   */
  lemma GateFollowsFlag(p: DataPath.Params, states: seq<System>, acts: seq<Act>, i: nat)
    requires IsRun(p, states, acts) && states[0] == OPENED && i < |states|
    ensures states[i].commands == [] ==>
              (states[i].path.paused == states[i].client.flow.paused <==> !Unheard(states[i].client))
    ensures states[i].commands == [] && states[i].path.paused ==> states[i].client.flow.paused
  {
    OpenedInv(p);
    EveryRun(p, states, acts, i);
    var c := states[i].client;
    if states[i].commands == [] {
      assert c.sent[..|c.sent|] == c.sent;
    }
  }

  lemma UnheardBegins(c: FlowControl.Client, e: FlowControl.Event)
    requires FlowControl.Possible(c, e) && !e.ResetFlow? && Unheard(FlowControl.Step(c, e)) && !Unheard(c)
    ensures e.Frame? && !c.idKnown
  {
  }

  /** Only a pause that begins before the id is known is unheard; from the first word on none is. */
  lemma OnlyEarlyPausesAreUnheard(p: DataPath.Params, s: System, act: Act)
    requires Enabled(p, s, act) && Unheard(Next(p, s, act).client) && !Unheard(s.client)
    ensures act.Arrive? && !s.client.idKnown
  {
    match act
    case Backend(_) =>
    case Obey =>
    case Arrive => UnheardBegins(s.client, FlowControl.Frame(s.channel[0]));
    case Parsed => UnheardBegins(s.client, FlowControl.Written);
    case IdArrives => UnheardBegins(s.client, FlowControl.IdArrives);
    case ClearStats => UnheardBegins(s.client, FlowControl.ResetStats);
  }

  // ---------------------------------------------------------------- the loop always drains

  /** The acts that need nothing new from outside. */
  predicate Internal(act: Act) {
    (act.Backend? && DataPath.Internal(act.step)) || act.Arrive? || act.Parsed? || act.Obey?
  }

  /** How many internal acts what is under way can still take. */
  function Work(s: System): nat {
    5 * DataPath.Work(s.path) + 4 * |s.channel| + 2 * |s.client.unacked| + |s.commands|
  }

  lemma InternalActLowersWork(p: DataPath.Params, s: System, act: Act)
    requires Enabled(p, s, act) && Internal(act)
    ensures Work(Next(p, s, act)) < Work(s)
    ensures Next(p, s, act).path.received == s.path.received && Next(p, s, act).path.lost == s.path.lost
  {
    if act.Backend? {
      DataPath.InternalStepLowersWork(p, s.path, act.step);
    }
  }

  /** Everything received was parsed, and nobody waits for anybody. */
  ghost predicate Drained(s: System) {
    && Concat(s.parsed) == s.path.received
    && s.channel == [] && s.client.unacked == [] && s.commands == []
    && !s.client.flow.paused && !s.path.paused
  }

  lemma NothingLeft(p: DataPath.Params, s: System)
    requires Inv(p, s) && !s.path.lost
    requires forall act :: Internal(act) ==> !Enabled(p, s, act)
    ensures Drained(s)
  {
    assert !Enabled(p, s, Obey) && !Enabled(p, s, Arrive) && !Enabled(p, s, Parsed);
    assert FlowControl.Hysteresis(s.client);
    assert s.client.sent[..|s.client.sent|] == s.client.sent;
    if DataPath.InTransit(s.path) != [] {
      DataPath.NeverStuck(p, s.path);
      var step :| DataPath.Internal(step) && DataPath.Enabled(p, s.path, step);
      assert Enabled(p, s, Backend(step));
    } else {
      assert Concat(s.path.delivered) + [] == s.path.received;
      assert s.parsed + [] + [] == s.parsed;
    }
  }

  lemma {:induction false} WorkBounds(p: DataPath.Params, states: seq<System>, acts: seq<Act>, i: nat)
    requires IsRun(p, states, acts) && (forall k | 0 <= k < |acts| :: Internal(acts[k])) && i < |states|
    ensures i + Work(states[i]) <= Work(states[0])
    ensures states[i].path.received == states[0].path.received && states[i].path.lost == states[0].path.lost
  {
    if i > 0 {
      WorkBounds(p, states, acts, i - 1);
      InternalActLowersWork(p, states[i - 1], acts[i - 1]);
    }
  }

  /**
    Flow control never deadlocks. From any state the loop can be in, paused or not, with the sender alive, any
    stretch of internal acts is at most `Work` long; and where no further one is possible the terminal has
    parsed every byte received, the client runs and the gate is open.
   */
  lemma LoopDrains(p: DataPath.Params, states: seq<System>, acts: seq<Act>)
    requires IsRun(p, states, acts) && Inv(p, states[0]) && !states[0].path.lost
    requires forall k | 0 <= k < |acts| :: Internal(acts[k])
    ensures |acts| <= Work(states[0])
    ensures
      var last := states[|acts|];
      (forall act :: Internal(act) ==> !Enabled(p, last, act)) ==>
        Drained(last) && last.path.received == states[0].path.received
  {
    EveryRun(p, states, acts, |acts|);
    WorkBounds(p, states, acts, |acts|);
    if forall act :: Internal(act) ==> !Enabled(p, states[|acts|], act) {
      NothingLeft(p, states[|acts|]);
    }
  }
}
