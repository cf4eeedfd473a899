/** What the simulator keeps while a client talks to it. */
module SimulatorFacts {
  import opened Common
  import opened Link
  import opened Simulator
  import Decimal

  predicate IsEvent(l: Line) {
    l.Frame? && l.body.Event?
  }

  predicate IsReply(l: Line, id: nat) {
    l.Frame? && l.body.Reply? && l.body.response.id == id
  }

  predicate IsTerminalLine(l: Line, id: nat) {
    IsReply(l, id) && TerminalKind(l.body.response.kind)
  }

  /** What a v2 controller says to lines without an identifier. */
  predicate Junk(l: Line) {
    l == Stopped || (IsEvent(l) && !l.protected) || (IsReply(l, 0) && !l.protected)
  }

  predicate NoReady(s: Sim) {
    V2Ready !in s.outgoing
  }

  /** The callbacks of one operation: progress first, its completion last. */
  predicate Fits(q: seq<Scheduled>, id: nat) {
    forall i :: 0 <= i < |q| ==>
      q[i].callback.id == id && (q[i].callback.SorterProgress? <==> i < |q| - 1)
  }

  /** Nothing more will be said unless something is written. */
  predicate AtRest(s: Sim) {
    s.active.None? && s.scheduled == []
  }

  predicate Working(s: Sim) {
    AtRest(s) || (s.active.Some? && s.mode.V2? && Fits(s.scheduled, s.active.value))
  }

  /** A `protocol:2 ready` still under way means v2 without CRC, at rest, and only junk behind it. */
  predicate ReadyMeans(s: Sim) {
    forall i :: 0 <= i < |s.outgoing| && s.outgoing[i] == V2Ready ==>
      && s.mode.V2? && !s.crc && AtRest(s)
      && forall j :: i < j < |s.outgoing| ==> Junk(s.outgoing[j])
  }

  predicate Sane(s: Sim) {
    Working(s) && ReadyMeans(s) && (s.mode.V1? ==> !s.crc && AtRest(s))
  }

  predicate Resting(s: Sim, crc: bool) {
    s.mode.V2? && s.crc == crc && AtRest(s)
  }

  /** In v2 with this CRC setting, at rest, with no response to an identified request under way. */
  predicate Idle(s: Sim, crc: bool) {
    && Resting(s, crc)
    && forall i :: 0 <= i < |s.outgoing| ==>
         s.outgoing[i] != V2Ready
             && (s.outgoing[i].Frame? && s.outgoing[i].body.Reply? ==> s.outgoing[i].body.response.id == 0)
  }

  /** What the terminal of a request tells about the controller. */
  predicate Post(s: Sim, sent: Sent, kind: Kind, last: bool)
    requires sent.Request?
  {
    match sent.command
    case CrcOn => kind.Done? ==> s.mode.V2? && s.crc
    case CrcOff => kind.Done? ==> s.mode.V2? && !s.crc
    case Protocol1 => kind.Done? ==> s.mode.V1? && last
    case _ => s.mode.V2? && s.crc == sent.protected
  }

  predicate TerminalMeans(s: Sim, sent: Sent)
    requires sent.Request?
  {
    forall i :: 0 <= i < |s.outgoing| && IsTerminalLine(s.outgoing[i], sent.id) ==>
      && AtRest(s)
      && (forall j :: i < j < |s.outgoing| ==> IsEvent(s.outgoing[j]))
      && Post(s, sent, s.outgoing[i].body.response.kind, i == |s.outgoing| - 1)
  }

  /** A request has been written and its terminal not been read. */
  predicate Waiting(s: Sim, sent: Sent) {
    && sent.Request? && Working(s) && NoReady(s) && TerminalMeans(s, sent)
    && (s.mode.V1? ==> !s.crc && AtRest(s))
    && (s.active.Some? ==> s.active == Some(sent.id) && !Boundary(sent.command))
    && (!Boundary(sent.command) ==> s.mode.V2? && s.crc == sent.protected)
  }

  // ---------- the clock ----------

  lemma {:induction false} RestAdvances(s: Sim, target: nat)
    requires AtRest(s)
    ensures Advance(s, target) == s.(now := target)
  {
  }

  lemma InsertLast(q: seq<Scheduled>, c: Scheduled)
    requires forall i :: 0 <= i < |q| ==> q[i].due <= c.due
    ensures Insert(q, c) == q + [c]
  {
    if q != [] { InsertLast(q[1..], c); }
  }

  /** One callback of the operation in progress. */
  lemma RunFacts(s: Sim, c: Callback)
    requires s.active == Some(c.id) && s.mode.V2?
    ensures var t := Run(s, c);
            && t.mode == s.mode && t.crc == s.crc && t.scheduled == s.scheduled
            && t.active == (if c.SorterProgress? then s.active else None)
            && t.outgoing[..|s.outgoing|] == s.outgoing && |t.outgoing| > |s.outgoing|
            && (forall j :: |s.outgoing| <= j < |t.outgoing| ==> IsEvent(t.outgoing[j]) || IsReply(t.outgoing[j], c.id))
            && (forall i, j :: |s.outgoing| <= i < j < |t.outgoing| && IsTerminalLine(t.outgoing[i], c.id)
                  ==> IsEvent(t.outgoing[j]))
            && (c.SorterProgress? ==>
                  forall j :: |s.outgoing| <= j < |t.outgoing| ==> !IsTerminalLine(t.outgoing[j], c.id))
  {
    match c
    case SorterProgress(_) =>
    case HomeComplete(_, _) =>
    case SortComplete(_, _) =>
    case FeedFails(_) =>
  }

  function Popped(s: Sim): Sim
    requires s.scheduled != []
  {
    s.(scheduled := s.scheduled[1..], now := s.scheduled[0].due)
  }

  lemma SaneRun(s: Sim)
    requires Sane(s) && s.scheduled != []
    ensures Sane(Run(Popped(s), s.scheduled[0].callback))
    ensures NoReady(s) ==> NoReady(Run(Popped(s), s.scheduled[0].callback))
  {
    var p, c := Popped(s), s.scheduled[0].callback;
    RunFacts(p, c);
    var t := Run(p, c);
    forall i | 0 <= i < |t.outgoing| ensures t.outgoing[i] != V2Ready {
      if i < |s.outgoing| { assert t.outgoing[i] == s.outgoing[i]; }
    }
    assert forall i :: 0 <= i < |p.scheduled| ==> p.scheduled[i] == s.scheduled[i + 1];
  }

  lemma {:induction false} SaneAdvance(s: Sim, target: nat)
    requires Sane(s)
    ensures Sane(Advance(s, target)) && (NoReady(s) ==> NoReady(Advance(s, target)))
    decreases |s.scheduled|
  {
    if s.scheduled != [] && s.scheduled[0].due <= target {
      SaneRun(s);
      RunKeepsSchedule(Popped(s), s.scheduled[0].callback);
      SaneAdvance(Run(Popped(s), s.scheduled[0].callback), target);
    }
  }

  lemma WaitingRun(s: Sim, sent: Sent)
    requires Waiting(s, sent) && s.scheduled != []
    ensures Waiting(Run(Popped(s), s.scheduled[0].callback), sent)
  {
    var p, c := Popped(s), s.scheduled[0].callback;
    assert Working(s);
    RunFacts(p, c);
    var t := Run(p, c);
    assert forall i :: 0 <= i < |p.scheduled| ==> p.scheduled[i] == s.scheduled[i + 1];
    assert forall i :: 0 <= i < |s.outgoing| ==> t.outgoing[i] == s.outgoing[i];
    assert forall i :: 0 <= i < |t.outgoing| && IsTerminalLine(t.outgoing[i], sent.id) ==> i >= |s.outgoing|;
  }

  lemma {:induction false} WaitingAdvance(s: Sim, target: nat, sent: Sent)
    requires Waiting(s, sent)
    ensures Waiting(Advance(s, target), sent)
    decreases |s.scheduled|
  {
    if s.scheduled != [] && s.scheduled[0].due <= target {
      WaitingRun(s, sent);
      RunKeepsSchedule(Popped(s), s.scheduled[0].callback);
      WaitingAdvance(Run(Popped(s), s.scheduled[0].callback), target, sent);
    }
  }

  // ---------- requests ----------

  /** Lines a handler added: events, responses, or something no client accepts. */
  predicate Tame(n: seq<Line>, id: nat) {
    && (forall i :: 0 <= i < |n| ==> n[i] != V2Ready && n[i] != Stopped)
    && (forall i, j :: 0 <= i < j < |n| && IsTerminalLine(n[i], id) ==> IsEvent(n[j]))
  }

  /** The controller answered a request it received at rest by adding the lines `n`. */
  predicate Answers(s: Sim, t: Sim, sent: Sent, n: seq<Line>)
    requires sent.Request?
  {
    && t.outgoing == s.outgoing + n && Tame(n, sent.id)
    && (forall i :: 0 <= i < |n| && IsTerminalLine(n[i], sent.id) ==>
          AtRest(t) && Post(t, sent, n[i].body.response.kind, i == |n| - 1))
    && Working(t) && (t.mode.V1? ==> !t.crc && AtRest(t))
    && (t.active.Some? ==> t.active == Some(sent.id) && !Boundary(sent.command))
    && (!Boundary(sent.command) ==> t.mode.V2? && t.crc == sent.protected)
  }

  lemma AnswersWait(s: Sim, t: Sim, sent: Sent, n: seq<Line>)
    requires sent.Request? && Idle(s, sent.protected) && Answers(s, t, sent, n) && sent.id >= 1
    ensures Waiting(t, sent) && (Stopped !in s.outgoing ==> Stopped !in t.outgoing)
  {
    var k := |s.outgoing|;
    assert forall i :: 0 <= i < k ==> t.outgoing[i] == s.outgoing[i];
    assert forall i :: k <= i < |t.outgoing| ==> t.outgoing[i] == n[i - k];
    assert forall i :: 0 <= i < |t.outgoing| && IsTerminalLine(t.outgoing[i], sent.id) ==> i >= k;
    assert forall i :: 0 <= i < |t.outgoing| ==> t.outgoing[i] != V2Ready;
  }

  lemma DataAnswers(s: Sim, sent: Sent, fields: seq<Fields>)
    requires sent.Request? && Resting(s, sent.protected) && !Boundary(sent.command)
    ensures Answers(s, RespondData(s, sent.id, fields), sent,
                    Datas(s.crc, sent.id, fields) + [Frame(s.crc, Reply(Response(sent.id, Done, map[])))])
    ensures Answers(s, EmitData(s, sent.id, fields), sent, Datas(s.crc, sent.id, fields))
  {
  }

  lemma ReplyAnswers(s: Sim, sent: Sent, kind: Kind, fields: Fields)
    requires sent.Request? && Resting(s, sent.protected) && !Boundary(sent.command)
    ensures Answers(s, Respond(s, sent.id, kind, fields), sent, [Frame(s.crc, Reply(Response(sent.id, kind, fields)))])
  {
  }

  lemma BoundaryAnswers(s: Sim, sent: Sent, delay: nat) returns (n: seq<Line>)
    requires sent.Request? && Resting(s, sent.protected) && Boundary(sent.command)
    ensures Answers(s, Serve(s, sent.id, sent.command, delay), sent, n)
  {
    var t, id := Serve(s, sent.id, sent.command, delay), sent.id;
    match sent.command
    case CrcOn =>
      n := [if s.config.crcAvailable then Frame(true, Reply(Response(id, Done, map["crc" := "on"])))
            else Frame(s.crc, Reply(Response(id, Error, map["key" := "crc"])))];
    case CrcOff => n := [Frame(s.crc, Reply(Response(id, Done, map["crc" := "off"])))];
    case Protocol1 => n := [Frame(s.crc, Reply(Response(id, Done, map["protocol" := "1"])))];
    assert t.outgoing == s.outgoing + n;
  }

  lemma StopAnswers(s: Sim, sent: Sent) returns (n: seq<Line>)
    requires sent.Request? && Resting(s, sent.protected) && sent.command.StopCommand?
    ensures Answers(s, CorrelatedStop(s, sent.id), sent, n)
  {
    var t := CorrelatedStop(s, sent.id);
    n := [Frame(s.crc, Event(Bump(s.sequence), StateNotice("stopped", "idle"))),
          Frame(s.crc, Reply(Response(sent.id, Done, map["mode" := "stopped"])))];
    assert t.outgoing == s.outgoing + n;
  }

  /** A movement that was accepted: one operation in progress, its completion scheduled. */
  lemma OperationAnswers(s: Sim, sent: Sent, home: bool, phase: string, delay: nat, c: Callback) returns (n: seq<Line>)
    requires sent.Request? && Resting(s, sent.protected) && !Boundary(sent.command) && c.id == sent.id
    requires !c.SorterProgress?
    ensures Answers(s, Schedule(StartOperation(s, sent.id, home, phase), delay, c), sent, n)
  {
    var t := StartOperation(s, sent.id, home, phase);
    n := [t.outgoing[|s.outgoing|], t.outgoing[|s.outgoing| + 1]];
    assert t.outgoing == s.outgoing + n;
    InsertLast([], Scheduled(s.now + delay, c));
  }

  lemma SortAnswers(s: Sim, sent: Sent, delay: nat) returns (n: seq<Line>)
    requires sent.Request? && Resting(s, sent.protected) && sent.command.SortTo?
    ensures Answers(s, StartSort(s, sent.id, sent.command.argument, delay), sent, n)
  {
    var a := sent.command.argument;
    if !Decimal.AllDigits(a) {
      ReplyAnswers(s, sent, Error, map["key" := "slot"]);
      n := [Frame(s.crc, Reply(Response(sent.id, Error, map["key" := "slot"])))];
    } else if Decimal.Value(a) > s.config.slotMax {
      var f := map["key" := "slot", "min" := "0", "max" := Decimal.Print(s.config.slotMax)];
      ReplyAnswers(s, sent, Error, f);
      n := [Frame(s.crc, Reply(Response(sent.id, Error, f)))];
    } else if s.machine == StoppedMachine {
      ReplyAnswers(s, sent, Error, map[]);
      n := [Frame(s.crc, Reply(Response(sent.id, Error, map[])))];
    } else if !s.sortHomed {
      ReplyAnswers(s, sent, Error, map["axis" := "sorter"]);
      n := [Frame(s.crc, Reply(Response(sent.id, Error, map["axis" := "sorter"])))];
    } else {
      n := OperationAnswers(s, sent, false, "sort_move", delay, SortComplete(sent.id, Decimal.Value(a)));
    }
  }

  lemma HomeAllAnswers(s: Sim, sent: Sent, delay: nat) returns (n: seq<Line>)
    requires sent.Request? && Resting(s, sent.protected) && delay >= 1 && sent.command.HomeAll?
    ensures Answers(s, BothAxes(HomingBoth(s, sent.id), sent.id, delay), sent, n)
  {
    var t := HomingBoth(s, sent.id);
    var k := |s.outgoing|;
    n := [t.outgoing[k], t.outgoing[k + 1], t.outgoing[k + 2]];
    assert t.outgoing == s.outgoing + n;
    BothAxesFit(t, sent.id, delay);
    InProgress(s, BothAxes(t, sent.id, delay), sent, n);
  }

  lemma BothAxesFit(s: Sim, id: nat, delay: nat)
    requires s.scheduled == [] && delay >= 1
    ensures Fits(BothAxes(s, id, delay).scheduled, id)
    ensures BothAxes(s, id, delay) == s.(scheduled := BothAxes(s, id, delay).scheduled)
  {
    var half := if delay / 2 < 1 then 1 else delay / 2;
    var first := Scheduled(s.now + half, SorterProgress(id));
    InsertLast([], first);
    InsertLast([first], Scheduled(s.now + delay, HomeComplete(id, HomeAll)));
  }

  lemma InProgress(s: Sim, t: Sim, sent: Sent, n: seq<Line>)
    requires sent.Request? && Resting(s, sent.protected) && !Boundary(sent.command)
    requires t.outgoing == s.outgoing + n && t.mode == s.mode && t.crc == s.crc
    requires t.active == Some(sent.id) && Fits(t.scheduled, sent.id)
    requires forall i :: 0 <= i < |n| ==> n[i].Frame? && !IsTerminalLine(n[i], sent.id)
    ensures Answers(s, t, sent, n)
  {
  }

  lemma HomeAnswers(s: Sim, sent: Sent, delay: nat) returns (n: seq<Line>)
    requires sent.Request? && Resting(s, sent.protected) && delay >= 1
    requires sent.command.HomeFeeder? || sent.command.HomeSorter? || sent.command.HomeAll?
    ensures Answers(s, StartHome(s, sent.id, sent.command, delay), sent, n)
  {
    if !sent.command.HomeAll? {
      n := OperationAnswers(s, sent, true, if sent.command.HomeSorter? then "sort_home" else "feed_home", delay,
                            HomeComplete(sent.id, sent.command));
    } else {
      n := HomeAllAnswers(s, sent, delay);
    }
  }

  lemma ScenarioAnswers(s: Sim, sent: Sent, delay: nat) returns (n: seq<Line>)
    requires sent.Request? && Resting(s, sent.protected) && Triggers(s.config.scenario, sent.command)
    ensures Answers(s, Inject(s, sent.id, delay), sent, n)
  {
    match s.config.scenario
    case Disconnect => n := [];
    case Silence => n := [];
    case MalformedFrame => n := [Malformed];
    case TerminalMismatch =>
      n := [Frame(s.crc, Reply(Response(if sent.id == 65535 then 1 else sent.id + 1, Done, map["slot" := "3"])))];
    case FeedFault => n := OperationAnswers(s, sent, false, "sort_move", delay, FeedFails(sent.id));
    case EventGap => GapAnswers(s, sent); n := GapLines(s, sent.id);
  }

  /** The lines of an injected event gap. */
  function GapLines(s: Sim, id: nat): seq<Line> {
    var e := StateNotice(Text(s.machine), "idle");
    [Frame(s.crc, Event(Bump(s.sequence), e)), Frame(s.crc, Event(Bump(Bump(Bump(s.sequence))), e)),
     Frame(s.crc, Reply(Response(id, Done, map["uptime_ms" := "0"])))]
  }

  lemma GapAdds(s: Sim, id: nat)
    ensures GapReply(s, id) == s.(outgoing := s.outgoing + GapLines(s, id), sequence := Bump(Bump(Bump(s.sequence))))
  {
  }

  lemma GapAnswers(s: Sim, sent: Sent)
    requires sent.Request? && Resting(s, sent.protected) && sent.command.Ping?
    ensures Answers(s, GapReply(s, sent.id), sent, GapLines(s, sent.id))
  {
    GapAdds(s, sent.id);
  }

  lemma ServeAnswers(s: Sim, sent: Sent, delay: nat) returns (n: seq<Line>)
    requires sent.Request? && Resting(s, sent.protected) && delay >= 1
    ensures Answers(s, Serve(s, sent.id, sent.command, delay), sent, n)
  {
    var c, id := sent.command, sent.id;
    var done := [Frame(s.crc, Reply(Response(id, Done, map[])))];
    match c
    case CrcOn => n := BoundaryAnswers(s, sent, delay);
    case CrcOff => n := BoundaryAnswers(s, sent, delay);
    case Protocol1 => n := BoundaryAnswers(s, sent, delay);
    case SortTo(_) => n := SortAnswers(s, sent, delay);
    case HomeFeeder => n := HomeAnswers(s, sent, delay);
    case HomeSorter => n := HomeAnswers(s, sent, delay);
    case HomeAll => n := HomeAnswers(s, sent, delay);
    case ProtocolVersion =>
      DataAnswers(s, sent, [map["protocol" := "2"]]);
      n := Datas(s.crc, id, [map["protocol" := "2"]]) + done;
    case Capabilities => DataAnswers(s, sent, CapabilityLines(s)); n := Datas(s.crc, id, CapabilityLines(s)) + done;
    case Queue => DataAnswers(s, sent, QueueLines(s)); n := Datas(s.crc, id, QueueLines(s)) + done;
    case Version =>
      DataAnswers(s, sent, [map["version" := "7.1.260714.6"]]);
      n := Datas(s.crc, id, [map["version" := "7.1.260714.6"]]) + done;
    case Status =>
      DataAnswers(s, sent, StatusLines(s));
      DataAnswers(s, sent, StatusLines(s)[..2]);
      n := if StatusFits(s, id) then Datas(s.crc, id, StatusLines(s)) + done else Datas(s.crc, id, StatusLines(s)[..2]);
    case Ping =>
      var f := map["uptime_ms" := Decimal.Print(if s.now >= s.bootAt then s.now - s.bootAt else 0)];
      ReplyAnswers(s, sent, Done, f);
      n := [Frame(s.crc, Reply(Response(id, Done, f)))];
    case _ => ReplyAnswers(s, sent, Error, map[]); n := [Frame(s.crc, Reply(Response(id, Error, map[])))];
  }

  /** Whatever an idle controller is asked, it then owes at most one terminal, and nothing after it. */
  lemma RequestAnswered(s: Sim, sent: Sent, delay: Delay)
    requires sent.Request? && Idle(s, sent.protected) && sent.id >= 1
    ensures Waiting(Handle(s, sent, delay), sent)
    ensures Stopped !in s.outgoing ==> Stopped !in Handle(s, sent, delay).outgoing
  {
    var n := DispatchAnswers(s, sent, delay);
    AnswersWait(s, Handle(s, sent, delay), sent, n);
  }

  /** A resting controller's answer to any request. */
  lemma DispatchAnswers(s: Sim, sent: Sent, delay: Delay) returns (n: seq<Line>)
    requires sent.Request? && Resting(s, sent.protected)
    ensures Answers(s, Dispatch(s, sent.id, sent.command, delay), sent, n)
  {
    if sent.command.StopCommand? {
      n := StopAnswers(s, sent);
    } else if Triggers(s.config.scenario, sent.command) {
      n := ScenarioAnswers(s, sent, delay);
    } else {
      n := ServeAnswers(s, sent, delay);
    }
  }

  // ---------- sanity ----------

  predicate Adds(s: Sim, t: Sim, n: seq<Line>) {
    t.outgoing == s.outgoing + n && V2Ready !in n
  }

  lemma AddsKeep(s: Sim, t: Sim, n: seq<Line>)
    requires Adds(s, t, n) && NoReady(s)
    ensures NoReady(t) && ReadyMeans(t)
  {
  }

  /** Lines were added and the movement in progress was left alone. */
  predicate OnlyAdds(s: Sim, t: Sim, n: seq<Line>) {
    Adds(s, t, n) && t.active == s.active && t.scheduled == s.scheduled && t.mode == s.mode && t.crc == s.crc
  }

  lemma DataAdds(s: Sim, id: nat, fields: seq<Fields>) returns (n: seq<Line>, m: seq<Line>)
    ensures OnlyAdds(s, RespondData(s, id, fields), n) && OnlyAdds(s, EmitData(s, id, fields), m)
  {
    m := Datas(s.crc, id, fields);
    n := m + [Frame(s.crc, Reply(Response(id, Done, map[])))];
  }

  lemma ReplyAdds(s: Sim, id: nat, kind: Kind, fields: Fields)
    ensures OnlyAdds(s, Respond(s, id, kind, fields), [Frame(s.crc, Reply(Response(id, kind, fields)))])
  {
  }

  lemma ServeBusy(s: Sim, id: nat, c: Command, delay: nat) returns (n: seq<Line>)
    requires s.active.Some? && !StateChanging(c)
    ensures OnlyAdds(s, Serve(s, id, c, delay), n)
  {
    var m: seq<Line>;
    if c.ProtocolVersion? {
      n, m := DataAdds(s, id, [map["protocol" := "2"]]);
    } else if c.Capabilities? {
      n, m := DataAdds(s, id, CapabilityLines(s));
    } else if c.Queue? {
      n, m := DataAdds(s, id, QueueLines(s));
    } else if c.Version? {
      n, m := DataAdds(s, id, [map["version" := "7.1.260714.6"]]);
    } else if c.Status? {
      if StatusFits(s, id) {
        n, m := DataAdds(s, id, StatusLines(s));
      } else {
        m, n := DataAdds(s, id, StatusLines(s)[..2]);
      }
    } else if c.Ping? {
      var f: Fields := map["uptime_ms" := Decimal.Print(if s.now >= s.bootAt then s.now - s.bootAt else 0)];
      ReplyAdds(s, id, Done, f);
      n := [Frame(s.crc, Reply(Response(id, Done, f)))];
    } else {
      ReplyAdds(s, id, Error, map[]);
      n := [Frame(s.crc, Reply(Response(id, Error, map[])))];
    }
  }

  lemma InjectBusy(s: Sim, id: nat, delay: nat) returns (n: seq<Line>)
    requires s.active.Some?
    ensures OnlyAdds(s, Inject(s, id, delay), n)
  {
    match s.config.scenario
    case Healthy => n := [];
    case Disconnect => n := [];
    case Silence => n := [];
    case MalformedFrame => n := [Malformed];
    case TerminalMismatch =>
      var other := if id == 65535 then 1 else id + 1;
      ReplyAdds(s, other, Done, map["slot" := "3"]);
      n := [Frame(s.crc, Reply(Response(other, Done, map["slot" := "3"])))];
    case FeedFault =>
      var f: Fields := map["active_id" := Decimal.Print(s.active.value)];
      ReplyAdds(s, id, Error, f);
      n := [Frame(s.crc, Reply(Response(id, Error, f)))];
    case EventGap => GapOnlyAdds(s, id); n := GapLines(s, id);
  }

  lemma GapOnlyAdds(s: Sim, id: nat)
    ensures OnlyAdds(s, GapReply(s, id), GapLines(s, id))
  {
    GapAdds(s, id);
  }

  lemma StopBusy(s: Sim, id: nat) returns (n: seq<Line>)
    requires s.active.Some?
    ensures var t := CorrelatedStop(s, id);
            Adds(s, t, n) && AtRest(t) && t.mode == s.mode && t.crc == s.crc
  {
    var t := CorrelatedStop(s, id);
    var k := |s.outgoing|;
    n := [t.outgoing[k], t.outgoing[k + 1], t.outgoing[k + 2]];
  }

  lemma DispatchBusy(s: Sim, id: nat, c: Command, delay: nat) returns (n: seq<Line>)
    requires s.active.Some?
    ensures var t := Dispatch(s, id, c, delay);
            Adds(s, t, n) && t.mode == s.mode && t.crc == s.crc
            && (AtRest(t) || (t.active == s.active && t.scheduled == s.scheduled))
  {
    if id != 0 && s.active == Some(id) {
      n := RejectAdds(s);
    } else if id == 0 && s.active == Some(0) {
      n := BusyAdds(s, 0);
    } else if c.StopCommand? {
      n := StopBusy(s, id);
    } else if Triggers(s.config.scenario, c) {
      n := InjectBusy(s, id, delay);
    } else if StateChanging(c) {
      n := BusyAdds(s, id);
    } else {
      n := ServeBusy(s, id, c, delay);
    }
  }

  lemma RejectAdds(s: Sim) returns (n: seq<Line>)
    ensures OnlyAdds(s, Notify(s, RejectNotice(1003)), n)
  {
    n := [Frame(s.crc, Event(Bump(s.sequence), RejectNotice(1003)))];
  }

  lemma BusyAdds(s: Sim, id: nat) returns (n: seq<Line>)
    requires s.active.Some?
    ensures OnlyAdds(s, BusyReply(s, id), n)
  {
    var f: Fields := map["active_id" := Decimal.Print(s.active.value)];
    ReplyAdds(s, id, Error, f);
    n := [Frame(s.crc, Reply(Response(id, Error, f)))];
  }

  /** A line without an identifier, in v2 without CRC, at rest: only junk comes back. */
  lemma PlainJunk(s: Sim, p: Plain, delay: nat) returns (n: seq<Line>)
    requires Resting(s, false) && !p.StopLine?
    ensures var t := Dispatch(s, 0, AsCommand(p), delay);
            Adds(s, t, n) && Resting(t, false) && forall i :: 0 <= i < |n| ==> Junk(n[i]) && n[i].Frame?
  {
    if Triggers(s.config.scenario, AsCommand(p)) {
      GapAdds(s, 0);
      n := GapLines(s, 0);
    } else {
      n := [Dispatch(s, 0, AsCommand(p), delay).outgoing[|s.outgoing|]];
    }
  }

  /** A request in any sane state with no `protocol:2 ready` under way. */
  lemma SaneRequest(s: Sim, sent: Sent, delay: Delay)
    requires Sane(s) && NoReady(s) && sent.Request?
    ensures Sane(Handle(s, sent, delay)) && NoReady(Handle(s, sent, delay))
  {
    var t := Handle(s, sent, delay);
    if s.mode.V1? || sent.protected != s.crc {
      AddsKeep(s, t, [t.outgoing[|s.outgoing|]]);
    } else if AtRest(s) {
      var n := DispatchAnswers(s, sent, delay);
      AddsKeep(s, t, n);
    } else {
      var n := DispatchBusy(s, sent.id, sent.command, delay);
      AddsKeep(s, t, n);
    }
  }

  lemma SaneStop(s: Sim)
    requires Sane(s)
    ensures Sane(PriorityStop(s)) && AtRest(PriorityStop(s)) && (NoReady(s) ==> NoReady(PriorityStop(s)))
    ensures PriorityStop(s).mode == s.mode && PriorityStop(s).crc == s.crc
  {
    var t := PriorityStop(s);
    assert forall i :: 0 <= i < |s.outgoing| ==> t.outgoing[i] == s.outgoing[i];
  }

  /** A line without an identifier in v2; what is behind a `protocol:2 ready` stays junk. */
  lemma SanePlainV2(s: Sim, p: Plain, delay: Delay)
    requires Sane(s) && s.mode.V2? && !p.StopLine?
    ensures var t := Handle(s, PlainText(p), delay);
            && Sane(t) && t.mode.V2? && t.crc == s.crc
            && (NoReady(s) ==> NoReady(t))
  {
    var t := Handle(s, PlainText(p), delay);
    if s.crc {
      AddsKeep(s, t, [t.outgoing[|s.outgoing|]]);
    } else if AtRest(s) {
      var n := PlainJunk(s, p, delay);
      var k := |s.outgoing|;
      assert forall i :: 0 <= i < k ==> t.outgoing[i] == s.outgoing[i];
      assert forall i :: k <= i < |t.outgoing| ==> t.outgoing[i] == n[i - k];
    } else {
      var n := DispatchBusy(s, 0, AsCommand(p), delay);
      AddsKeep(s, t, n);
    }
  }

  lemma SanePlain(s: Sim, p: Plain, delay: Delay)
    requires Sane(s)
    ensures Sane(Handle(s, PlainText(p), delay))
    ensures NoReady(s) && !p.ActivateLine? ==> NoReady(Handle(s, PlainText(p), delay))
  {
    if p.StopLine? {
      SaneStop(s);
    } else if s.mode.V2? {
      SanePlainV2(s, p, delay);
    } else {
      var t := HandleV1(s, PlainText(p));
      assert NoReady(s);
      assert forall i :: 0 <= i < |s.outgoing| ==> t.outgoing[i] == s.outgoing[i];
    }
  }

  lemma SaneRead(s: Sim, l: Line)
    requires Sane(s) && Read(s, l).Some?
    ensures Sane(Read(s, l).value) && (NoReady(s) || l == V2Ready ==> NoReady(Read(s, l).value))
  {
    var t := Read(s, l).value;
    assert forall i :: 0 <= i < |t.outgoing| ==> t.outgoing[i] == s.outgoing[i + 1];
  }

  /**
   Everything a client may do keeps the simulator sane, if it sends requests only when no
   `protocol:2 ready` is under way.
   */
  lemma SaneStep(s: Sim, a: Act, t: Sim)
    requires Sane(s) && Step(s, a) == Some(t)
    requires a.Does? && (a.io.Wrote? || a.io.WriteFailed?) && a.io.sent.Request? ==> NoReady(s)
    ensures Sane(t)
    ensures NoReady(s) && !(a.Does? && (a.io.Wrote? || a.io.WriteFailed?) && a.io.sent == PlainText(ActivateLine))
            ==> NoReady(t)
  {
    match a
    case Advances(delta) => SaneAdvance(s, s.now + delta);
    case Closes =>
    case Does(io, delay) =>
      match io
      case Wrote(sent) => if sent.Request? { SaneRequest(s, sent, delay); } else { SanePlain(s, sent.plain, delay); }
      case WriteFailed(sent) =>
        if !s.closed {
          if sent.Request? { SaneRequest(s, sent, delay); } else { SanePlain(s, sent.plain, delay); }
        }
      case Got(l) => SaneRead(s, l);
      case GotBad => SaneRead(s, Malformed);
      case ReadFault =>
      case Quiet =>
      case DidReset =>
      case ResetFailed =>
  }
}

/** What single exchanges of a client with the simulator leave behind. */
module Exchanges {
  import opened Common
  import opened Link
  import opened Simulator
  import opened SimulatorFacts
  import C = Client

  /** What a client that is not uncertain can rely on. */
  predicate Agree(v: C.View, s: Sim) {
    match v.mode
    case V1 => !v.crc && s.mode.V1? && !s.crc && AtRest(s) && (s.outgoing == [] || s.outgoing == [Ready])
    case V2 => Resting(s, v.crc) && AllEvents(s)
    case Unsure => Sane(s)
  }

  /** Nothing but events is under way. */
  predicate AllEvents(s: Sim) {
    forall i :: 0 <= i < |s.outgoing| ==> IsEvent(s.outgoing[i])
  }

  lemma AgreeIsSane(v: C.View, s: Sim)
    requires Agree(v, s)
    ensures Sane(s) && (v.mode == C.V2 ==> Idle(s, v.crc) && NoReady(s))
  {
  }

  // ---------- taking a joint run apart ----------

  /** The first client interaction, with the simulator's own acts before it. */
  lemma {:induction false} First(s: Sim, acts: seq<Act>, t: Sim)
    returns (a: Sim, front: seq<Act>, d: Delay, b: Sim, rest: seq<Act>)
    requires Exec(s, acts) == Some(t) && Trace(acts) != []
    ensures Exec(s, front) == Some(a) && Trace(front) == []
    ensures Step(a, Does(Trace(acts)[0], d)) == Some(b)
    ensures Exec(b, rest) == Some(t) && Trace(rest) == Trace(acts)[1..]
    decreases |acts|
  {
    if acts[0].Does? {
      a, front, d, b, rest := s, [], acts[0].delay, Step(s, acts[0]).value, acts[1..];
    } else {
      var m := Step(s, acts[0]).value;
      var f: seq<Act>;
      a, f, d, b, rest := First(m, acts[1..], t);
      front := [acts[0]] + f;
      assert front[1..] == f;
    }
  }

  lemma {:induction false} Split(s: Sim, acts: seq<Act>, t: Sim, k: nat)
    returns (m: Sim, front: seq<Act>, rest: seq<Act>)
    requires Exec(s, acts) == Some(t) && k <= |Trace(acts)|
    ensures Exec(s, front) == Some(m) && Trace(front) == Trace(acts)[..k]
    ensures Exec(m, rest) == Some(t) && Trace(rest) == Trace(acts)[k..]
    decreases |acts|
  {
    if acts == [] || k == 0 {
      m, front, rest := s, [], acts;
    } else {
      var next := Step(s, acts[0]).value;
      var f: seq<Act>;
      m, f, rest := Split(next, acts[1..], t, if acts[0].Does? then k - 1 else k);
      front := [acts[0]] + f;
      assert front[1..] == f;
    }
  }

  lemma SplitInTwo(s: Sim, acts: seq<Act>, t: Sim, a: seq<Io>, b: seq<Io>)
    returns (m: Sim, front: seq<Act>, rest: seq<Act>)
    requires Exec(s, acts) == Some(t) && Trace(acts) == a + b
    ensures Exec(s, front) == Some(m) && Trace(front) == a
    ensures Exec(m, rest) == Some(t) && Trace(rest) == b
  {
    m, front, rest := Split(s, acts, t, |a|);
    assert (a + b)[..|a|] == a && (a + b)[|a|..] == b;
  }

  /** At rest, the simulator's own acts change nothing that can be seen. */
  lemma {:induction false} RestTicks(s: Sim, acts: seq<Act>, t: Sim)
    requires AtRest(s) && Exec(s, acts) == Some(t) && Trace(acts) == []
    ensures t == s.(now := t.now, closed := t.closed)
    decreases |acts|
  {
    if acts != [] {
      var m := Step(s, acts[0]).value;
      if acts[0].Advances? { RestAdvances(s, s.now + acts[0].delta); }
      RestTicks(m, acts[1..], t);
    }
  }

  lemma {:induction false} SanePlainRun(s: Sim, acts: seq<Act>, t: Sim)
    requires Sane(s) && Exec(s, acts) == Some(t) && PlainOnly(Trace(acts))
    ensures Sane(t)
    decreases |acts|
  {
    if acts != [] {
      var m := Step(s, acts[0]).value;
      TraceTail(acts);
      SaneStep(s, acts[0], m);
      SanePlainRun(m, acts[1..], t);
    }
  }

  lemma {:induction false} SaneQuietRun(s: Sim, acts: seq<Act>, t: Sim)
    requires Sane(s) && NoReady(s) && Exec(s, acts) == Some(t) && NoActivate(Trace(acts))
    ensures Sane(t) && NoReady(t)
    decreases |acts|
  {
    if acts != [] {
      var m := Step(s, acts[0]).value;
      TraceTail(acts);
      SaneStep(s, acts[0], m);
      SaneQuietRun(m, acts[1..], t);
    }
  }

  lemma TraceTail(acts: seq<Act>)
    requires acts != []
    ensures acts[0].Does? ==> Trace(acts) != [] && Trace(acts)[0] == acts[0].io && Trace(acts[1..]) == Trace(acts)[1..]
    ensures !acts[0].Does? ==> Trace(acts[1..]) == Trace(acts)
  {
  }

  // ---------- requests ----------

  lemma WaitingRead(s: Sim, l: Line, sent: Sent)
    requires Waiting(s, sent) && Read(s, l).Some?
    ensures var t := Read(s, l).value;
            if IsTerminalLine(l, sent.id)
            then AtRest(t) && AllEvents(t) && Post(t, sent, l.body.response.kind, t.outgoing == [])
                && (t.mode.V1? ==> !t.crc)
            else Waiting(t, sent)
  {
    var t := Read(s, l).value;
    assert forall i :: 0 <= i < |t.outgoing| ==> t.outgoing[i] == s.outgoing[i + 1];
    assert s.outgoing[0] == l;
  }

  lemma WaitingStep(s: Sim, a: Act, t: Sim, sent: Sent, protected: bool)
    requires Waiting(s, sent) && Step(s, a) == Some(t) && (a.Does? ==> Waits(a.io, sent.id, protected))
    ensures Waiting(t, sent)
  {
    match a
    case Advances(delta) => WaitingAdvance(s, s.now + delta, sent);
    case Closes =>
    case Does(io, _) => if io.Got? { WaitingRead(s, io.line, sent); }
  }

  lemma {:induction false} WaitingActs(s: Sim, acts: seq<Act>, t: Sim, sent: Sent, protected: bool)
    requires Waiting(s, sent) && Exec(s, acts) == Some(t) && AllWait(Trace(acts), sent.id, protected)
    ensures Waiting(t, sent)
    decreases |acts|
  {
    if acts != [] {
      TraceTail(acts);
      WaitingStep(s, acts[0], Step(s, acts[0]).value, sent, protected);
      WaitingActs(Step(s, acts[0]).value, acts[1..], t, sent, protected);
    }
  }

  /** Reading the terminal, which is then the last response the simulator has to give. */
  lemma TerminalEnds(s: Sim, acts: seq<Act>, t: Sim, sent: Sent, protected: bool)
    requires Waiting(s, sent) && Exec(s, acts) == Some(t) && |Trace(acts)| == 1
    requires IsTerminal(Trace(acts)[0], sent.id, protected)
    ensures AtRest(t) && AllEvents(t) && (t.mode.V1? ==> !t.crc)
    ensures Post(t, sent, Trace(acts)[0].line.body.response.kind, t.outgoing == [])
  {
    var a, front, d, b, rest := First(s, acts, t);
    WaitingActs(s, front, a, sent, protected);
    WaitingRead(a, Trace(acts)[0].line, sent);
    RestTicks(b, rest, t);
  }

  lemma ExchangeEnds(s: Sim, acts: seq<Act>, t: Sim, sent: Sent, protected: bool)
    requires Exchange(Trace(acts), sent, protected) && Idle(s, sent.protected) && Exec(s, acts) == Some(t)
    requires sent.id >= 1
    ensures AtRest(t) && AllEvents(t) && (t.mode.V1? ==> !t.crc)
    ensures Post(t, sent, Trace(acts)[|Trace(acts)| - 1].line.body.response.kind, t.outgoing == [])
  {
    var w := Trace(acts);
    var a, front, d, b, rest := First(s, acts, t);
    RestTicks(s, front, a);
    RequestAnswered(a, sent, d);
    assert w[1..][..|w| - 2] == w[1..|w| - 1];
    var m, before, after := Split(b, rest, t, |w| - 2);
    WaitingActs(b, before, m, sent, protected);
    TerminalEnds(m, after, t, sent, protected);
  }

  lemma QueriedEnds(s: Sim, acts: seq<Act>, t: Sim, crc: bool)
    requires Idle(s, crc) && Exec(s, acts) == Some(t) && Queried(Trace(acts), crc)
    ensures Resting(t, crc) && AllEvents(t)
  {
    var sent :| Exchange(Trace(acts), sent, crc) && sent.protected == crc && sent.id >= 1 && !Boundary(sent.command);
    ExchangeEnds(s, acts, t, sent, crc);
  }

  // ---------- the stop ----------

  /** A stop has been written: exactly one `stopped` is under way, as the last line. */
  predicate Stopping(s: Sim) {
    AtRest(s) && s.outgoing != [] && s.outgoing[|s.outgoing| - 1] == Stopped
    && forall i :: 0 <= i < |s.outgoing| - 1 ==> s.outgoing[i] != Stopped
  }

  lemma StopStarts(s: Sim)
    requires Stopped !in s.outgoing
    ensures Stopping(PriorityStop(s)) && PriorityStop(s).mode == s.mode && PriorityStop(s).crc == s.crc
  {
  }

  lemma {:induction false} StopOut(s: Sim, acts: seq<Act>, t: Sim)
    requires Stopping(s) && Exec(s, acts) == Some(t) && Trace(acts) != []
    requires Trace(acts)[|Trace(acts)| - 1] == Got(Stopped)
    requires forall i :: 0 <= i < |Trace(acts)| - 1 ==> Trace(acts)[i].Got? && Trace(acts)[i].line != Stopped
    ensures t.outgoing == [] && AtRest(t) && t.mode == s.mode && t.crc == s.crc
    decreases |Trace(acts)|
  {
    var a, front, d, b, rest := First(s, acts, t);
    RestTicks(s, front, a);
    var w := Trace(acts);
    if |w| == 1 {
      RestTicks(b, rest, t);
    } else {
      assert forall i :: 0 <= i < |b.outgoing| ==> b.outgoing[i] == a.outgoing[i + 1];
      StopOut(b, rest, t);
    }
  }

  lemma StopEnds(s: Sim, acts: seq<Act>, t: Sim)
    requires AtRest(s) && Stopped !in s.outgoing && Exec(s, acts) == Some(t) && StopExchange(Trace(acts))
    ensures t.outgoing == [] && AtRest(t) && t.mode == s.mode && t.crc == s.crc
  {
    var a, front, d, b, rest := First(s, acts, t);
    RestTicks(s, front, a);
    StopStarts(a);
    StopOut(b, rest, t);
  }

  /** While a request is awaited no `stopped` appears. */
  lemma NoStopRead(s: Sim, a: Act, t: Sim, sent: Sent, protected: bool)
    requires Waiting(s, sent) && Stopped !in s.outgoing && Step(s, a) == Some(t)
    requires a.Does? ==> Waits(a.io, sent.id, protected)
    ensures Stopped !in t.outgoing
  {
    match a
    case Advances(delta) => NoStopAdvance(s, s.now + delta, sent);
    case Closes =>
    case Does(io, _) =>
  }

  lemma {:induction false} NoStopAdvance(s: Sim, target: nat, sent: Sent)
    requires Waiting(s, sent) && Stopped !in s.outgoing
    ensures Stopped !in Advance(s, target).outgoing
    decreases |s.scheduled|
  {
    if s.scheduled != [] && s.scheduled[0].due <= target {
      var p, c := Popped(s), s.scheduled[0].callback;
      RunFacts(p, c);
      var t := Run(p, c);
      forall i | 0 <= i < |t.outgoing| ensures t.outgoing[i] != Stopped {
        if i < |s.outgoing| { assert t.outgoing[i] == s.outgoing[i]; }
      }
      WaitingRun(s, sent);
      RunKeepsSchedule(p, c);
      NoStopAdvance(t, target, sent);
    }
  }

  lemma {:induction false} NoStopActs(s: Sim, acts: seq<Act>, t: Sim, sent: Sent, protected: bool)
    requires Waiting(s, sent) && Stopped !in s.outgoing && Exec(s, acts) == Some(t)
    requires AllWait(Trace(acts), sent.id, protected)
    ensures Waiting(t, sent) && Stopped !in t.outgoing
    decreases |acts|
  {
    if acts != [] {
      TraceTail(acts);
      var m := Step(s, acts[0]).value;
      WaitingStep(s, acts[0], m, sent, protected);
      NoStopRead(s, acts[0], m, sent, protected);
      NoStopActs(m, acts[1..], t, sent, protected);
    }
  }

  /** The stop that cuts a request short: the movement in progress ends with it. */
  lemma StopCuts(s: Sim, acts: seq<Act>, t: Sim, sent: Sent, protected: bool)
    requires Waiting(s, sent) && Stopped !in s.outgoing && Exec(s, acts) == Some(t) && StopExchange(Trace(acts))
    requires !Boundary(sent.command)
    ensures t.outgoing == [] && Resting(t, sent.protected)
  {
    var a, front, d, b, rest := First(s, acts, t);
    NoStopActs(s, front, a, sent, protected);
    StopStarts(a);
    StopOut(b, rest, t);
  }

  lemma CutEnds(s: Sim, acts: seq<Act>, t: Sim, sent: Sent, k: nat)
    requires sent.Request? && !Boundary(sent.command) && sent.id >= 1
    requires Idle(s, sent.protected) && Stopped !in s.outgoing && Exec(s, acts) == Some(t)
    requires 1 <= k <= |Trace(acts)| && Trace(acts)[0] == Wrote(sent)
    requires WaitBetween(Trace(acts), 1, k, sent.id, sent.protected) && StopExchange(Trace(acts)[k..])
    ensures t.outgoing == [] && Resting(t, sent.protected)
  {
    var w := Trace(acts);
    var m, before, after := Split(s, acts, t, k);
    var a, front, d, b, rest := First(s, before, m);
    RestTicks(s, front, a);
    RequestAnswered(a, sent, d);
    assert w[..k][1..] == w[1..k];
    NoStopActs(b, rest, m, sent, sent.protected);
    StopCuts(m, after, t, sent, sent.protected);
  }

  lemma InterruptsEnd(s: Sim, acts: seq<Act>, t: Sim, crc: bool)
    requires Idle(s, crc) && Stopped !in s.outgoing && Exec(s, acts) == Some(t) && Interrupts(Trace(acts), crc)
    ensures t.outgoing == [] && Resting(t, crc)
  {
    var w := Trace(acts);
    var sent :| CutShort(w, sent, crc) && sent.protected == crc && sent.id >= 1 && !Boundary(sent.command);
    var k :| 1 <= k <= |w| && sent.Request? && w[0] == Wrote(sent) && WaitBetween(w, 1, k, sent.id, crc)
        && StopExchange(w[k..]);
    CutEnds(s, acts, t, sent, k);
  }

  // ---------- one-line exchanges ----------

  /** Two interactions, with whatever the simulator does on its own in between. */
  lemma Pair(s: Sim, acts: seq<Act>, t: Sim) returns (a: Sim, d: Delay, b: Sim, c: Sim)
    requires AtRest(s) && Exec(s, acts) == Some(t) && |Trace(acts)| == 2 && Trace(acts)[0].Wrote? && Trace(acts)[1].Got?
    ensures a == s.(now := a.now, closed := a.closed) && !a.closed && b == Handle(a, Trace(acts)[0].sent, d)
    ensures AtRest(b) ==> Read(b, Trace(acts)[1].line).Some? && t.outgoing == b.outgoing[1..]
    ensures AtRest(b) ==> t.mode == b.mode && t.crc == b.crc && AtRest(t)
  {
    var front, rest, front', rest', e, d';
    a, front, d, b, rest := First(s, acts, t);
    RestTicks(s, front, a);
    c, front', d', e, rest' := First(b, rest, t);
    if AtRest(b) {
      RestTicks(b, front', c);
      RestTicks(e, rest', t);
    }
  }

  predicate AllFrames(s: Sim) {
    forall i :: 0 <= i < |s.outgoing| ==> s.outgoing[i].Frame?
  }

  /** In v2 a plain line other than `stop` brings frames only. */
  lemma FramesOnly(s: Sim, p: Plain, delay: Delay)
    requires s.mode.V2? && AtRest(s) && AllFrames(s) && !p.StopLine?
    ensures AllFrames(Handle(s, PlainText(p), delay)) && AtRest(Handle(s, PlainText(p), delay))
  {
    if !s.crc { var n := PlainJunk(s, p, delay); }
  }

  /** A probe that got a v1 line as its answer was talking to a v1 controller with nothing under way. */
  lemma ProbeEnds(v: C.View, s: Sim, acts: seq<Act>, t: Sim, p: Plain, l: Line)
    requires Agree(v, s) && v.mode != C.Unsure && !p.StopLine? && !l.Frame? && l != Ready
    requires Exec(s, acts) == Some(t) && Trace(acts) == [Wrote(PlainText(p)), Got(l)]
    ensures v.mode == C.V1 && t.outgoing == [] && AtRest(t)
    ensures l == (match p
                  case PingLine => PingOk
                  case DiscoverLine => if s.config.v2Available then Available else LegacyOk
                  case _ => if s.config.v2Available then V2Ready else LegacyOk)
    ensures p != ActivateLine ==> Agree(v, t)
  {
    var a, d, b, c := Pair(s, acts, t);
    if v.mode == C.V2 { FramesOnly(a, p, d); }
  }
}

/**
 The client and the simulator agree after every client call, whatever times out, whichever
 adverse scenario is configured, and however the simulator's clock is driven.
 */
module Agreement {
  import opened Common
  import opened Link
  import opened Simulator
  import opened SimulatorFacts
  import opened Exchanges
  import C = Client

  lemma DiscoveryEnds(v: C.View, s: Sim, acts: seq<Act>, t: Sim)
    requires Agree(v, s) && v.mode != C.Unsure && Exec(s, acts) == Some(t) && Discovery(Trace(acts))
    ensures Agree(v, t)
  {
    var w := Trace(acts);
    if |w| == 2 {
      ProbeEnds(v, s, acts, t, DiscoverLine, w[1].line);
    } else {
      var m, before, after := Split(s, acts, t, 2);
      assert Trace(before) == [Wrote(PlainText(DiscoverLine)), Got(Busy)];
      ProbeEnds(v, s, before, m, DiscoverLine, Busy);
    }
  }

  /** A single read between calls: an event, the startup marker, or nothing. */
  lemma ReadEnds(v: C.View, s: Sim, acts: seq<Act>, t: Sim)
    requires Agree(v, s) && v.mode != C.Unsure && Exec(s, acts) == Some(t) && AllReads(Trace(acts))
    requires |Trace(acts)| <= 1
    ensures Agree(v, t)
  {
    if Trace(acts) == [] {
      RestTicks(s, acts, t);
    } else {
      var a, front, d, b, rest := First(s, acts, t);
      RestTicks(s, front, a);
      assert Agree(v, a);
      ReadAgrees(v, a, Trace(acts)[0], d, b);
      RestTicks(b, rest, t);
    }
  }

  lemma ReadAgrees(v: C.View, s: Sim, io: Io, d: Delay, t: Sim)
    requires Agree(v, s) && v.mode != C.Unsure && IsRead(io) && Step(s, Does(io, d)) == Some(t)
    ensures Agree(v, t)
  {
  }

  /** From any sane state, an exact `protocol:2 ready` means v2 without CRC and only junk under way. */
  lemma EnteredEnds(s: Sim, acts: seq<Act>, t: Sim)
    requires Sane(s) && Exec(s, acts) == Some(t) && Trace(acts) == ENTERED
    ensures Idle(t, false) && NoReady(t) && Sane(t)
  {
    var a, front, d, b, rest := First(s, acts, t);
    SanePlainRun(s, front, a);
    SanePlain(a, ActivateLine, d);
    var c, front', d', e, rest' := First(b, rest, t);
    SanePlainRun(b, front', c);
    assert c.outgoing[0] == V2Ready;
    assert forall i :: 0 <= i < |e.outgoing| ==> e.outgoing[i] == c.outgoing[i + 1] && Junk(e.outgoing[i]);
    assert AtRest(e);
    RestTicks(e, rest', t);
  }

  lemma ActivationEnds(s: Sim, acts: seq<Act>, t: Sim)
    requires Sane(s) && Exec(s, acts) == Some(t) && Activation(Trace(acts))
    ensures Resting(t, false) && AllEvents(t)
  {
    var w := Trace(acts);
    var a, b, c :| w == ENTERED + (a + b + c) && Queried(a, false) && Queried(b, false) && Queried(c, false);
    var m, f, r := SplitInTwo(s, acts, t, ENTERED, a + b + c);
    EnteredEnds(s, f, m);
    ThreeQueries(m, r, t, a, b, c);
  }

  lemma ThreeQueries(s: Sim, acts: seq<Act>, t: Sim, a: seq<Io>, b: seq<Io>, c: seq<Io>)
    requires Idle(s, false) && Exec(s, acts) == Some(t) && Trace(acts) == a + b + c
    requires Queried(a, false) && Queried(b, false) && Queried(c, false)
    ensures Resting(t, false) && AllEvents(t)
  {
    var m, f, r := SplitInTwo(s, acts, t, a + b, c);
    TwoQueries(s, f, m, a, b);
    QueriedEnds(m, r, t, false);
  }

  lemma TwoQueries(s: Sim, acts: seq<Act>, t: Sim, a: seq<Io>, b: seq<Io>)
    requires Idle(s, false) && Exec(s, acts) == Some(t) && Trace(acts) == a + b
    requires Queried(a, false) && Queried(b, false)
    ensures Resting(t, false) && AllEvents(t)
  {
    var m, f, r := SplitInTwo(s, acts, t, a, b);
    QueriedEnds(s, f, m, false);
    QueriedEnds(m, r, t, false);
  }

  /** Reset, `Ready`, `ping`, ` ok`: a fresh v1 controller, whatever was before. */
  lemma VerifiedEnds(s: Sim, acts: seq<Act>, t: Sim)
    requires Exec(s, acts) == Some(t) && Verified(Trace(acts))
    ensures Agree(C.View(C.V1, false), t)
  {
    var w := Trace(acts);
    var m, f, r := Split(s, acts, t, |w| - 4);
    var a, f1, d1, b, r1 := First(m, r, t);
    assert Trace(r1) == [Got(Ready), Wrote(PlainText(PingLine)), Got(PingOk)];
    var c, f2, d2, e, r2 := First(b, r1, t);
    RestTicks(b, f2, c);
    assert Agree(C.View(C.V1, false), e);
    assert Trace(r2) == [Wrote(PlainText(PingLine)), Got(PingOk)];
    ProbeEnds(C.View(C.V1, false), e, r2, t, PingLine, PingOk);
  }

  lemma SwitchEnds(v: C.View, s: Sim, acts: seq<Act>, t: Sim, command: Command, answer: bool)
    requires Agree(v, s) && v.mode == C.V2 && Exec(s, acts) == Some(t)
    requires Switched(Trace(acts), command, v.crc, answer) && Boundary(command)
    ensures match command
            case CrcOn => Agree(C.View(C.V2, true), t)
            case CrcOff => Agree(C.View(C.V2, false), t)
            case _ => Agree(C.View(C.V1, false), t)
  {
    AgreeIsSane(v, s);
    var sent :| Exchange(Trace(acts), sent, answer) && sent.protected == v.crc && sent.id >= 1
        && sent.command == command;
    ExchangeEnds(s, acts, t, sent, answer);
  }

  lemma LostEnds(v: C.View, s: Sim, acts: seq<Act>, t: Sim)
    requires Agree(v, s) && Exec(s, acts) == Some(t) && C.Lost(v, Trace(acts))
    ensures Sane(t)
  {
    AgreeIsSane(v, s);
    var w := Trace(acts);
    if PlainOnly(w) {
      SanePlainRun(s, acts, t);
    } else if v.mode == C.V2 && NoActivate(w) {
      SaneQuietRun(s, acts, t);
    } else {
      var m, f, r := Split(s, acts, t, 2);
      EnteredEnds(s, f, m);
      SaneQuietRun(m, r, t);
    }
  }

  lemma StopAgrees(v: C.View, s: Sim, acts: seq<Act>, t: Sim)
    requires Agree(v, s) && v.mode != C.Unsure && Exec(s, acts) == Some(t) && StopExchange(Trace(acts))
    ensures Agree(v, t)
  {
    StopEnds(s, acts, t);
  }

  /** A call that leaves an uncertain client uncertain wrote nothing but plain lines. */
  lemma StillUnsure(v: C.View, t: seq<Io>)
    requires v.mode == C.Unsure && (StopExchange(t) || Barrier(t) || Discovery(t) || (AllReads(t) && |t| <= 1))
    ensures PlainOnly(t)
  {
    if |t| == 6 && Discovery(t) {
      assert t[2] == t[2..4][0] && t[3] == t[2..4][1] && t[4] == t[4..][0] && t[5] == t[4..][1];
    }
  }

  /** One client call against the simulator. */
  lemma CallKeepsAgreement(v: C.View, s: Sim, acts: seq<Act>, w: C.View, t: Sim)
    requires Agree(v, s) && Exec(s, acts) == Some(t) && C.Call(v, Trace(acts), w)
    ensures Agree(w, t)
  {
    var io := Trace(acts);
    AgreeIsSane(v, s);
    if w == C.View(C.Unsure, false) && C.Lost(v, io) {
      LostEnds(v, s, acts, t);
    } else if w == C.View(C.V1, false) && Verified(io) {
      VerifiedEnds(s, acts, t);
    } else if w == C.View(C.V2, false) && Activation(io) {
      ActivationEnds(s, acts, t);
    } else if v.mode == C.V2 && w != v {
      if Switched(io, CrcOn, false, true) && w == C.View(C.V2, true) { SwitchEnds(v, s, acts, t, CrcOn, true); }
      else if Switched(io, CrcOff, true, true) && w == C.View(C.V2, false) { SwitchEnds(v, s, acts, t, CrcOff, true); }
      else { SwitchEnds(v, s, acts, t, Protocol1, v.crc); }
    } else if v.mode == C.Unsure {
      StillUnsure(v, io);
      SanePlainRun(s, acts, t);
    } else {
      SameBelief(v, s, acts, t);
    }
  }

  lemma SameBelief(v: C.View, s: Sim, acts: seq<Act>, t: Sim)
    requires Agree(v, s) && v.mode != C.Unsure && Exec(s, acts) == Some(t)
    requires var io := Trace(acts);
             || (AllReads(io) && |io| <= 1) || StopExchange(io) || Barrier(io) || Discovery(io)
             || (v.mode == C.V2 && (Queried(io, v.crc) || Interrupts(io, v.crc)))
    ensures Agree(v, t)
  {
    var io := Trace(acts);
    AgreeIsSane(v, s);
    if AllReads(io) && |io| <= 1 { ReadEnds(v, s, acts, t); }
    else if StopExchange(io) { StopAgrees(v, s, acts, t); }
    else if Barrier(io) { ProbeEnds(v, s, acts, t, PingLine, PingOk); }
    else if Discovery(io) { DiscoveryEnds(v, s, acts, t); }
    else if Queried(io, v.crc) { QueriedEnds(s, acts, t, v.crc); }
    else { InterruptsEnd(s, acts, t, v.crc); }
  }

  // ---------- whole sessions ----------

  /** One client call: what happened at the transport, and what the client believed afterwards. */
  datatype CallRecord = CallRecord(acts: seq<Act>, belief: C.View)

  ghost predicate Conversation(v: C.View, s: Sim, calls: seq<CallRecord>, w: C.View, t: Sim)
    decreases |calls|
  {
    if calls == [] then w == v && t == s
    else
      var c := calls[0];
      Exec(s, c.acts).Some? && C.Call(v, Trace(c.acts), c.belief)
          && Conversation(c.belief, Exec(s, c.acts).value, calls[1..], w, t)
  }

  lemma {:induction false} ConversationAgrees(v: C.View, s: Sim, calls: seq<CallRecord>, w: C.View, t: Sim)
    requires Agree(v, s) && Conversation(v, s, calls, w, t)
    ensures Agree(w, t)
    decreases |calls|
  {
    if calls != [] {
      var c := calls[0];
      var m := Exec(s, c.acts).value;
      CallKeepsAgreement(v, s, c.acts, c.belief, m);
      ConversationAgrees(c.belief, m, calls[1..], w, t);
    }
  }

  /**
   After any sequence of client calls against a freshly started simulator, a client that is
   not uncertain has the simulator's protocol mode, in v2 also its CRC setting, and no
   response is under way in v2.
   */
  lemma ClientAndSimulatorAgree(config: Config, calls: seq<CallRecord>, w: C.View, t: Sim)
    requires Conversation(C.View(C.V1, false), Boot(config), calls, w, t)
    ensures w.mode == C.V1 ==> t.mode.V1? && !t.crc && !w.crc
    ensures w.mode == C.V2 ==> t.mode.V2? && t.crc == w.crc
    ensures w.mode == C.V2 ==> t.active.None? && t.scheduled == [] && forall l :: l in t.outgoing ==> IsEvent(l)
  {
    ConversationAgrees(C.View(C.V1, false), Boot(config), calls, w, t);
  }
}
