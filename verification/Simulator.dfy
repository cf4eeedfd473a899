/**
 The repository's own controller: `SimulatorTransport` with its `ManualClock`.

 Queries answer while they are written; a movement answers when the clock is advanced
 past its scheduled callbacks.
 */
module Simulator {
  import opened Common
  import opened Link
  import opened Decimal

  datatype Scenario = Healthy | Disconnect | EventGap | FeedFault | MalformedFrame | TerminalMismatch | Silence

  datatype Config = Config(scenario: Scenario, v2Available: bool, crcAvailable: bool, slotCount: nat, slotMax: nat)

  datatype Protocol = V1 | V2

  datatype Machine = Running | Recovering | StoppedMachine

  datatype Callback =
    | SorterProgress(id: nat)
    | HomeComplete(id: nat, command: Command)
    | SortComplete(id: nat, slot: nat)
    | FeedFails(id: nat)

  /** A callback and when it is due; the list is kept in the order of due time, then of scheduling. */
  datatype Scheduled = Scheduled(due: nat, callback: Callback)

  datatype Sim = Sim(
    config: Config,
    mode: Protocol,
    crc: bool,
    sequence: nat,
    active: Option<nat>,
    machine: Machine,
    phase: string,
    feedHomed: bool,
    sortHomed: bool,
    previous: nat,
    next: nat,
    faultCode: nat,
    broken: bool,             // reads raise
    closed: bool,
    bootAt: nat,
    now: nat,
    scheduled: seq<Scheduled>,
    outgoing: seq<Line>)

  function Text(m: Machine): string {
    match m
    case Running => "running"
    case Recovering => "recovering"
    case StoppedMachine => "stopped"
  }

  function Bit(b: bool): string {
    if b then "1" else "0"
  }

  // ---------- emitting ----------

  function EmitText(s: Sim, l: Line): Sim {
    s.(outgoing := s.outgoing + [l])
  }

  /** A v2 frame, protected exactly while CRC is on. */
  function Emit(s: Sim, b: Body): Sim {
    EmitText(s, Frame(s.crc, b))
  }

  function Respond(s: Sim, id: nat, kind: Kind, fields: Fields): Sim {
    Emit(s, Reply(Response(id, kind, fields)))
  }

  function Bump(n: nat): nat {
    if n == 65535 then 1 else n + 1
  }

  function Notify(s: Sim, n: Notice): Sim {
    var t := s.(sequence := Bump(s.sequence));
    Emit(t, Event(t.sequence, n))
  }

  function NotifyState(s: Sim): Sim {
    Notify(s, StateNotice(Text(s.machine), s.phase))
  }

  // ---------- the clock ----------

  /** `call_later`: behind everything that is due no later. */
  function Insert(q: seq<Scheduled>, c: Scheduled): seq<Scheduled> {
    if q == [] || c.due < q[0].due then [c] + q else [q[0]] + Insert(q[1..], c)
  }

  function Schedule(s: Sim, delay: nat, c: Callback): Sim {
    s.(scheduled := Insert(s.scheduled, Scheduled(s.now + delay, c)))
  }

  function CompleteOperation(s: Sim, id: nat, fields: Fields): Sim {
    if s.active != Some(id) then s else
    var t := s.(active := None, phase := "idle", machine := if s.feedHomed && s.sortHomed then Running else Recovering);
    Respond(NotifyState(t), id, Done, fields)
  }

  function Run(s: Sim, c: Callback): Sim {
    match c
    case SorterProgress(id) =>
      if s.active != Some(id) then s else
      var t := Respond(s.(phase := "sort_home"), id, Progress, map["phase" := "sort_home"]);
      Notify(t, StateNotice("recovering", "sort_home"))
    case HomeComplete(id, command) =>
      var t := s.(feedHomed := s.feedHomed || command.HomeFeeder? || command.HomeAll?,
                  sortHomed := s.sortHomed || command.HomeSorter? || command.HomeAll?);
      CompleteOperation(t, id, map["feed_homed" := Bit(t.feedHomed), "sort_homed" := Bit(t.sortHomed)])
    case SortComplete(id, slot) =>
      CompleteOperation(s.(previous := slot, next := slot), id, map["slot" := Print(slot)])
    case FeedFails(id) =>
      if s.active != Some(id) then s else
      var t := s.(active := None, machine := Recovering, phase := "idle", feedHomed := false, faultCode := 3001);
      NotifyState(Notify(Respond(t, id, Error, map[]), FaultNotice(3001)))
  }

  /** `ManualClock.advance`: due callbacks in order, each at its own time. */
  function Advance(s: Sim, target: nat): Sim
    decreases |s.scheduled|
  {
    if s.scheduled == [] || s.scheduled[0].due > target then s.(now := target)
    else
      var c := s.scheduled[0];
      var t := s.(scheduled := s.scheduled[1..], now := c.due);
      RunKeepsSchedule(t, c.callback);
      Advance(Run(t, c.callback), target)
  }

  lemma RunKeepsSchedule(s: Sim, c: Callback)
    ensures Run(s, c).scheduled == s.scheduled
  {
    match c
    case SorterProgress(id) =>
    case HomeComplete(id, _) => if s.active == Some(id) { } else { }
    case SortComplete(id, _) => if s.active == Some(id) { } else { }
    case FeedFails(id) =>
  }

  // ---------- requests ----------

  predicate StateChanging(c: Command) {
    Boundary(c) || c.HomeFeeder? || c.HomeSorter? || c.HomeAll? || c.SortTo?
  }

  /** Commands that trigger the adverse scenario. */
  predicate Triggers(k: Scenario, c: Command) {
    if k.Healthy? then false else if k.EventGap? then c == Ping else c == SortTo("3")
  }

  function BusyReply(s: Sim, id: nat): Sim
    requires s.active.Some?
  {
    Respond(s, id, Error, map["active_id" := Print(s.active.value)])
  }

  function StartOperation(s: Sim, id: nat, home: bool, phase: string): Sim
    requires s.active.None?
  {
    var t := s.(active := Some(id), phase := phase,
                machine := if !home && s.feedHomed && s.sortHomed then Running else Recovering);
    NotifyState(Respond(t, id, Accepted, map["operation" := if home then "home" else "sort"]))
  }

  function StartSort(s: Sim, id: nat, argument: string, delay: nat): Sim
    requires s.active.None?
  {
    if !AllDigits(argument) then Respond(s, id, Error, map["key" := "slot"])
    else if Value(argument) > s.config.slotMax then
      Respond(s, id, Error, map["key" := "slot", "min" := "0", "max" := Print(s.config.slotMax)])
    else if s.machine == StoppedMachine then Respond(s, id, Error, map[])
    else if !s.sortHomed then Respond(s, id, Error, map["axis" := "sorter"])
    else Schedule(StartOperation(s, id, false, "sort_move"), delay, SortComplete(id, Value(argument)))
  }

  function StartHome(s: Sim, id: nat, c: Command, delay: nat): Sim
    requires s.active.None?
  {
    if c.HomeAll? then BothAxes(HomingBoth(s, id), id, delay)
    else Schedule(StartOperation(s, id, true, if c.HomeSorter? then "sort_home" else "feed_home"), delay,
        HomeComplete(id, c))
  }

  function HomingBoth(s: Sim, id: nat): Sim
    requires s.active.None?
  {
    Respond(StartOperation(s, id, true, "feed_home"), id, Progress, map["phase" := "feed_home"])
  }

  /** The two stages of homing everything. */
  function BothAxes(s: Sim, id: nat, delay: nat): Sim {
    Schedule(Schedule(s, if delay / 2 < 1 then 1 else delay / 2, SorterProgress(id)), delay, HomeComplete(id, HomeAll))
  }

  /** Two events with a number missing between them, then the terminal. */
  function GapReply(s: Sim, id: nat): Sim {
    var n := StateNotice(Text(s.machine), "idle");
    var gap := Notify(s, n);
    Respond(Notify(gap.(sequence := Bump(gap.sequence)), n), id, Done, map["uptime_ms" := "0"])
  }

  function Inject(s: Sim, id: nat, delay: nat): Sim {
    match s.config.scenario
    case Healthy => s
    case Disconnect => s.(broken := true)
    case EventGap => GapReply(s, id)
    case FeedFault =>
      if s.active.Some? then BusyReply(s, id)
      else Schedule(StartOperation(s, id, false, "sort_move"), delay, FeedFails(id))
    case MalformedFrame => EmitText(s, Malformed)
    case TerminalMismatch => Respond(s, if id == 65535 then 1 else id + 1, Done, map["slot" := "3"])
    case Silence => s
  }

  function CorrelatedStop(s: Sim, id: nat): Sim {
    var told := if s.active.Some? then Respond(s, s.active.value, Error, map["by" := Print(id)]) else s;
    var t := told.(scheduled := [], active := None, machine := StoppedMachine, phase := "idle",
                   feedHomed := false, sortHomed := false);
    Respond(NotifyState(t), id, Done, map["mode" := "stopped"])
  }

  /** The data lines of an answer. */
  function Datas(crc: bool, id: nat, fields: seq<Fields>): (n: seq<Line>)
    ensures |n| == |fields| && forall i :: 0 <= i < |n| ==> n[i] == Frame(crc, Reply(Response(id, Data, fields[i])))
  {
    seq(|fields|, i requires 0 <= i < |fields| => Frame(crc, Reply(Response(id, Data, fields[i]))))
  }

  function EmitData(s: Sim, id: nat, fields: seq<Fields>): Sim {
    s.(outgoing := s.outgoing + Datas(s.crc, id, fields))
  }

  /** `_respond_data`: every data line, then `done`. */
  function RespondData(s: Sim, id: nat, fields: seq<Fields>): Sim {
    Respond(EmitData(s, id, fields), id, Done, map[])
  }

  function QueueLines(s: Sim): seq<Fields> {
    [map["queue_depth" := "2"], map["queue_previous" := Print(s.previous)], map["queue_next" := Print(s.next)]]
  }

  function CapabilityLines(s: Sim): seq<Fields> {
    [map["protocol" := "2", "max_line" := "64", "crc" := if s.config.crcAvailable then "optional" else "none"],
     map["queue_depth" := "2", "slot_max" := Print(s.config.slotMax), "slot_count" := Print(s.config.slotCount)],
     map["pwm" := "0", "airdrop" := "1", "feed_sensor" := "1"],
     map["feed_home" := "1", "sort_home" := "1"]]
  }

  function StatusLines(s: Sim): (r: seq<Fields>)
    ensures |r| == 4
  {
    [map["mode" := Text(s.machine), "phase" := s.phase, "feed_homed" := Bit(s.feedHomed)],
     map["sort_homed" := Bit(s.sortHomed), "motor_enabled" := "0",
         "active_id" := if s.active.Some? then Print(s.active.value) else "none"],
     map["fault_code" := Print(s.faultCode), "queue_previous" := Print(s.previous), "queue_next" := Print(s.next)],
     map["config_generation" := "0"]]
  }

  /** The third status line: with CRC, a long identifier, a fault and large slots it exceeds 64 bytes. */
  predicate StatusFits(s: Sim, id: nat) {
    46 + Digits(id) + Digits(s.faultCode) + Digits(s.previous) + Digits(s.next) + (if s.crc then 5 else 0) <= 64
  }

  /** A well-formed request with `id` 0 when the line carried none. */
  function Dispatch(s: Sim, id: nat, c: Command, delay: nat): Sim {
    if id != 0 && s.active == Some(id) then Notify(s, RejectNotice(1003))
    else if id == 0 && s.active == Some(0) then BusyReply(s, 0)
    else if c.StopCommand? then CorrelatedStop(s, id)
    else if Triggers(s.config.scenario, c) then Inject(s, id, delay)
    else if StateChanging(c) && s.active.Some? then BusyReply(s, id)
    else Serve(s, id, c, delay)
  }

  function Serve(s: Sim, id: nat, c: Command, delay: nat): Sim
    requires StateChanging(c) ==> s.active.None?
  {
    match c
    case ProtocolVersion => RespondData(s, id, [map["protocol" := "2"]])
    case Capabilities => RespondData(s, id, CapabilityLines(s))
    case Status =>
      if StatusFits(s, id) then RespondData(s, id, StatusLines(s)) else EmitData(s, id, StatusLines(s)[..2])
    case Queue => RespondData(s, id, QueueLines(s))
    case Ping => Respond(s, id, Done, map["uptime_ms" := Print(if s.now >= s.bootAt then s.now - s.bootAt else 0)])
    case Version => RespondData(s, id, [map["version" := "7.1.260714.6"]])
    case CrcOn =>
      if s.config.crcAvailable then Respond(s.(crc := true), id, Done, map["crc" := "on"])
      else Respond(s, id, Error, map["key" := "crc"])
    case CrcOff => Respond(s, id, Done, map["crc" := "off"]).(crc := false)
    case Protocol1 => Respond(s, id, Done, map["protocol" := "1"]).(mode := V1, crc := false, sequence := 0)
    case SortTo(argument) => StartSort(s, id, argument, delay)
    case HomeFeeder => StartHome(s, id, c, delay)
    case HomeSorter => StartHome(s, id, c, delay)
    case HomeAll => StartHome(s, id, c, delay)
    case _ => Respond(s, id, Error, map[])
  }

  /** The write raises: an oversized status line ends it half way. */
  predicate Raises(s: Sim, id: nat, c: Command) {
    c.Status? && !StatusFits(s, id) && !(id != 0 && s.active == Some(id)) && !(id == 0 && s.active == Some(0))
  }

  function PriorityStop(s: Sim): Sim {
    var t := s.(scheduled := [], active := None, machine := StoppedMachine, phase := "idle",
                feedHomed := false, sortHomed := false);
    EmitText(if t.mode.V2? then NotifyState(t) else t, Stopped)
  }

  function HandleV1(s: Sim, sent: Sent): Sim {
    match sent
    case Request(_, _, _, length) => EmitText(s, if length > 40 then OtherText else LegacyOk)
    case PlainText(p) =>
      (match p
       case PingLine => EmitText(s, PingOk)
       case DiscoverLine => EmitText(s, if s.config.v2Available then Available else LegacyOk)
       case ActivateLine =>
         if s.config.v2Available then EmitText(s, V2Ready).(mode := V2, crc := false, sequence := 0)
         else EmitText(s, LegacyOk)
       case StopLine => PriorityStop(s))
  }

  /** How v2 reads a line without an identifier. */
  function AsCommand(p: Plain): Command {
    match p
    case PingLine => Ping
    case DiscoverLine => OtherCommand("protocol:2?")
    case ActivateLine => OtherCommand("protocol:2")
    case StopLine => StopCommand
  }

  /** One line from the host. */
  function Handle(s: Sim, sent: Sent, delay: nat): Sim {
    if sent == PlainText(StopLine) then PriorityStop(s)
    else if s.mode.V1? then HandleV1(s, sent)
    else match sent
      case PlainText(p) => if s.crc then Notify(s, RejectNotice(1002)) else Dispatch(s, 0, AsCommand(p), delay)
      case Request(id, c, protected, _) =>
        if protected != s.crc then Notify(s, RejectNotice(1002)) else Dispatch(s, id, c, delay)
  }

  predicate HandleRaises(s: Sim, sent: Sent) {
    s.mode.V2? && sent.Request? && sent.protected == s.crc && Raises(s, sent.id, sent.command)
  }

  function Reset(s: Sim): Sim {
    Sim(s.config, V1, false, 0, None, Recovering, "idle", false, false, 0, 0, 0, false, s.closed,
        s.now, s.now, [], [Ready])
  }

  // ---------- steps ----------

  /** How long a movement takes: the configured duration and some jitter. */
  type Delay = n: nat | n >= 1 witness 1

  /** What happens at the transport: a client interaction, the clock, or its closing. */
  datatype Act = Does(io: Io, delay: Delay) | Advances(delta: nat) | Closes

  function Read(s: Sim, l: Line): Option<Sim> {
    if s.broken || s.outgoing == [] || s.outgoing[0] != l then None else Some(s.(outgoing := s.outgoing[1..]))
  }

  /** The simulator's part of one act; `None` when it cannot behave like that. */
  function Step(s: Sim, a: Act): Option<Sim> {
    match a
    case Advances(delta) => Some(Advance(s, s.now + delta))
    case Closes => Some(s.(closed := true, scheduled := []))
    case Does(io, delay) =>
      match io
      case Wrote(sent) => if s.closed || HandleRaises(s, sent) then None else Some(Handle(s, sent, delay))
      case WriteFailed(sent) =>
        if s.closed then Some(s) else if HandleRaises(s, sent) then Some(Handle(s, sent, delay)) else None
      case Got(l) => Read(s, l)
      case GotBad => Read(s, Malformed)
      case ReadFault => if s.broken then Some(s) else None
      case Quiet => Some(s)
      case DidReset => if s.closed then None else Some(Reset(s))
      case ResetFailed => if s.closed then Some(s) else None
  }

  function Exec(s: Sim, acts: seq<Act>): Option<Sim>
    decreases |acts|
  {
    if acts == [] then Some(s)
    else match Step(s, acts[0])
      case None => None
      case Some(t) => Exec(t, acts[1..])
  }

  /** The client's side of a joint run. */
  function Trace(acts: seq<Act>): seq<Io> {
    if acts == [] then []
    else (if acts[0].Does? then [acts[0].io] else []) + Trace(acts[1..])
  }

  function Boot(config: Config): Sim {
    Reset(Sim(config, V1, false, 0, None, Recovering, "idle", false, false, 0, 0, 0, false, false, 0, 0, [], []))
  }
}
