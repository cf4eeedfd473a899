/**
 `ProtocolClient` against an arbitrary peer.

 The peer, the clock and the interrupt callback are a script of answers, one per
 consultation, chosen before the call and unknown to the client; when it runs out,
 everything fails or times out. The client records its interactions in `io`, and every
 contract speaks about what a call appended to it.
 */
module Client {
  import opened Common
  import opened Link
  import opened Decimal

  datatype Mode = V1 | V2 | Unsure

  datatype Reading = Read(line: Line) | BadLine | Raised | TimedOut

  /** One answer of the environment; each consultation uses the part it asks for. */
  datatype Answer = Answer(good: bool, reading: Reading, poll: Poll)

  datatype Poll = KeepGoing | Interrupt | PollRaised

  datatype Failure =
    | Recovery(recovered: bool)   // `RecoveryError`
    | Interrupted                 // `RequestInterruptedError`
    | Refused                     // raised before anything was written
    | Unacceptable                // the exchange completed, its content was not acceptable

  datatype Completion = Completion(id: nat, responses: seq<Response>)

  predicate Succeeded(c: Completion) {
    c.responses != [] && c.responses[|c.responses| - 1].kind.Done?
  }

  function TerminalFields(c: Completion): Fields {
    if c.responses == [] then map[] else c.responses[|c.responses| - 1].fields
  }

  /** The fields of all responses, later ones winning. */
  function MergedFields(rs: seq<Response>): Fields {
    if rs == [] then map[] else MergedFields(rs[..|rs| - 1]) + rs[|rs| - 1].fields
  }

  /** What the deadline and the interrupt callback say before a read. */
  datatype Consulted = GoOn | StopNow | GiveUp

  /** What one read brought: nothing yet, an acceptable frame, or something unsafe. */
  datatype Heard = Nothing | Heard(body: Body) | Unsafe

  /** How waiting for a terminal ended. */
  datatype Waited = Terminated(responses: seq<Response>) | MustStop | Broken

  /** What `format_request` makes of a command: refused, or a line of some length. */
  datatype Order = Order(command: Command, legal: bool, length: nat)

  const STOP := PlainText(StopLine)
  const PING := PlainText(PingLine)

  // ---------- what the typed queries accept ----------

  predicate IsUint(f: Fields, name: string, least: nat) {
    name in f && AllDigits(f[name]) && (f[name][0] == '0' ==> f[name] == "0") && Value(f[name]) >= least
  }

  predicate IsBit(f: Fields, name: string) {
    name in f && (f[name] == "0" || f[name] == "1")
  }

  predicate IsOneOf(f: Fields, name: string, values: set<string>) {
    name in f && f[name] in values
  }

  const PHASES := {
    "idle", "feed_wait", "feed_move", "feed_home", "sort_move", "sort_home", "settling", "airdrop", "diagnostic"}

  predicate Acceptable(c: Command, f: Fields) {
    match c
    case ProtocolVersion => IsOneOf(f, "protocol", {"2"})
    case Capabilities =>
      && IsOneOf(f, "protocol", {"2"}) && IsOneOf(f, "max_line", {"64"}) && IsOneOf(f, "crc", {"none", "optional"})
      && IsUint(f, "queue_depth", 1) && IsUint(f, "slot_max", 0) && IsUint(f, "slot_count", 0)
      && IsBit(f, "pwm") && IsBit(f, "airdrop") && IsBit(f, "feed_sensor") && IsBit(f, "feed_home")
      && IsBit(f, "sort_home")
    case Status =>
      && IsOneOf(f, "mode", {"running", "recovering", "stopped"}) && IsOneOf(f, "phase", PHASES)
      && IsBit(f, "feed_homed") && IsBit(f, "sort_homed") && IsBit(f, "motor_enabled")
      && (IsOneOf(f, "active_id", {"none"}) || (IsUint(f, "active_id", 0) && Value(f["active_id"]) <= 65535))
      && IsUint(f, "fault_code", 0) && IsUint(f, "queue_previous", 0) && IsUint(f, "queue_next", 0)
      && IsUint(f, "config_generation", 0)
    case Queue => IsUint(f, "queue_depth", 1) && IsUint(f, "queue_previous", 0) && IsUint(f, "queue_next", 0)
    case _ => true
  }

  /** What the client believes about the session. */
  datatype View = View(mode: Mode, crc: bool)

  /** What one call can leave in the trace, and what the client then believes. */
  ghost predicate Call(v: View, t: seq<Io>, w: View) {
    || (w == v && AllReads(t) && |t| <= 1)
    || (w == v && (StopExchange(t) || Barrier(t) || Discovery(t)))
    || (w == v && v.mode == V2 && (Queried(t, v.crc) || Interrupts(t, v.crc)))
    || (v == View(V2, false) && w == View(V2, true) && Switched(t, CrcOn, false, true))
    || (v == View(V2, true) && w == View(V2, false) && Switched(t, CrcOff, true, true))
    || (v.mode == V2 && w == View(V1, false) && Switched(t, Protocol1, v.crc, v.crc))
    || (w == View(V2, false) && Activation(t))
    || (w == View(V1, false) && Verified(t))
    || (w == View(Unsure, false) && Lost(v, t))
  }

  /** How a call can end in uncertainty. */
  predicate Lost(v: View, t: seq<Io>) {
    (v.mode == V2 && NoActivate(t)) || PlainOnly(t) || ActivationLost(t)
  }

  /** Steps from one identifier to another in cyclic order. */
  function Distance(start: int, id: int): int {
    if id >= start then id - start else id - start + 65535
  }

  class ProtocolClient {
    const hasReset: bool
    var mode: Mode
    var crc: bool
    var active: set<nat>        // `RequestTracker.active`
    var finished: set<nat>      // `RequestTracker.terminal_ids`
    var nextId: nat             // `RequestTracker._next`
    var io: seq<Io>
    var script: seq<Answer>

    ghost predicate Valid()
      reads this
    {
      1 <= nextId <= 65535
    }

    constructor (hasReset: bool, script: seq<Answer>)
      ensures Valid() && mode == V1 && !crc && active == {} && io == []
    {
      this.hasReset := hasReset;
      this.script := script;
      mode, crc, active, finished, nextId, io := V1, false, {}, {}, 1, [];
    }

    // ---------- the environment ----------

    method Ask() returns (a: Answer)
      modifies this`script
      ensures if old(script) == [] then script == [] && a == Answer(false, TimedOut, PollRaised)
              else a == old(script)[0] && script == old(script)[1..]
    {
      if script == [] { return Answer(false, TimedOut, PollRaised); }
      a := script[0];
      script := script[1..];
    }

    method Write(sent: Sent) returns (ok: bool)
      modifies this`script, this`io
      ensures io == old(io) + [if ok then Wrote(sent) else WriteFailed(sent)]
      ensures |script| <= |old(script)|
    {
      var a := Ask();
      ok := a.good;
      io := io + [if ok then Wrote(sent) else WriteFailed(sent)];
    }

    /** One `read_line`. */
    method ReadLine() returns (r: Reading)
      modifies this`script, this`io
      ensures io == old(io) + [Seen(r)] && IsRead(Seen(r))
      ensures |script| <= |old(script)| && (old(script) != [] ==> |script| < |old(script)|)
      ensures old(script) == [] ==> r == TimedOut
    {
      var a := Ask();
      r := a.reading;
      io := io + [Seen(r)];
    }

    static function Seen(r: Reading): (e: Io)
      ensures IsRead(e)
    {
      match r
      case Read(l) => Got(l)
      case BadLine => GotBad
      case Raised => ReadFault
      case TimedOut => Quiet
    }

    /** Has a deadline still to come? */
    method TimeLeft() returns (left: bool)
      modifies this`script
      ensures |script| <= |old(script)| && (left ==> |script| < |old(script)|)
    {
      var a := Ask();
      left := a.good;
    }

    // ---------- the request tracker ----------

    method ClearRequests()
      modifies this`active, this`finished, this`nextId
      ensures Valid() && active == {} && finished == {} && nextId == 1
    {
      active, finished, nextId := {}, {}, 1;
    }

    /** The next identifier in cyclic order that is not active. */
    method Allocate() returns (r: Option<nat>)
      requires Valid()
      modifies this`active, this`finished, this`nextId
      ensures Valid()
      ensures r.Some? ==>
                && 1 <= r.value <= 65535 && r.value !in old(active) && active == old(active) + {r.value}
                && r.value !in finished
      ensures r.None? ==> active == old(active) && forall id :: 1 <= id <= 65535 ==> id in old(active)
    {
      var tries := 0;
      ghost var start := nextId;
      while tries < 65535
        invariant Valid() && active == old(active) && finished == old(finished) && 0 <= tries <= 65535
        invariant nextId == if start + tries <= 65535 then start + tries else start + tries - 65535
        invariant forall id :: 1 <= id <= 65535 && Distance(start, id) < tries ==> id in active
        decreases 65535 - tries
      {
        var candidate := nextId;
        nextId := if candidate == 65535 then 1 else candidate + 1;
        if candidate !in active {
          active := active + {candidate};
          finished := finished - {candidate};
          return Some(candidate);
        }
        tries := tries + 1;
      }
      return None;
    }

    method Reserve(id: nat) returns (ok: bool)
      modifies this`active, this`finished
      ensures ok <==> 1 <= id <= 65535 && id !in old(active)
      ensures active == (if ok then old(active) + {id} else old(active)) && (ok ==> id !in finished)
    {
      if !(1 <= id <= 65535) || id in active { return false; }
      active := active + {id};
      finished := finished - {id};
      return true;
    }

    /** A response is accepted only for an active identifier; its terminal retires it. */
    method Observe(r: Response) returns (ok: bool)
      modifies this`active, this`finished
      ensures ok <==> r.id in old(active)
      ensures active == (if ok && TerminalKind(r.kind) then old(active) - {r.id} else old(active))
      ensures finished == (if ok && TerminalKind(r.kind) then old(finished) + {r.id} else old(finished))
    {
      if r.id !in active { return false; }
      if TerminalKind(r.kind) {
        active := active - {r.id};
        finished := finished + {r.id};
      }
      return true;
    }

    // ---------- recovery ----------

    /** Read until the exact `stopped`; any other ending is a failure. */
    method AwaitStopped() returns (ok: bool, ghost t: seq<Io>)
      modifies this`script, this`io
      ensures io == old(io) + t && AllReads(t) && |script| <= |old(script)|
      ensures ok ==> t != [] && t[|t| - 1] == Got(Stopped)
      ensures ok ==> forall i :: 0 <= i < |t| - 1 ==> t[i].Got? && t[i].line != Stopped
    {
      t := [];
      while true
        invariant io == old(io) + t && AllReads(t) && |script| <= |old(script)|
        invariant forall i :: 0 <= i < |t| ==> t[i].Got? && t[i].line != Stopped
        decreases |script|
      {
        var left := TimeLeft();
        if !left { return false, t; }
        var r := ReadLine();
        t := t + [Seen(r)];
        if !r.Read? { return false, t; }
        if r.line == Stopped { return true, t; }
      }
    }

    /** The two exact lines that prove a freshly reset v1 session. */
    method VerifyV1() returns (ok: bool, ghost t: seq<Io>)
      modifies this`io, this`script
      ensures io == old(io) + t && Harmless(t) && |script| <= |old(script)|
      ensures ok ==> t == [Got(Ready), Wrote(PING), Got(PingOk)]
    {
      t := [];
      var left := TimeLeft();
      if !left { return false, t; }
      var first := ReadLine();
      t := [Seen(first)];
      if first != Read(Ready) { return false, t; }
      var sending := Write(PING);
      t := t + [if sending then Wrote(PING) else WriteFailed(PING)];
      if !sending { return false, t; }
      left := TimeLeft();
      if !left { return false, t; }
      var second := ReadLine();
      t := t + [Seen(second)];
      return second == Read(PingOk), t;
    }

    /** The universal stop; a reset is authoritative even when it was not answered. */
    method TryStop() returns (ghost t: seq<Io>)
      modifies this`io, this`script
      ensures io == old(io) + t && Harmless(t) && |script| <= |old(script)|
    {
      var stopping := Write(STOP);
      t := [if stopping then Wrote(STOP) else WriteFailed(STOP)];
      if stopping {
        var _, u := AwaitStopped();
        HarmlessJoins(t, u);
        t := t + u;
      }
    }

    /** Stop, reset, then verify v1 with `Ready` and the ping barrier. */
    method RecoverToV1() returns (ok: bool, ghost t: seq<Io>)
      modifies this`mode, this`crc, this`active, this`finished, this`nextId, this`io, this`script
      ensures Valid() && !crc && active == {} && |script| <= |old(script)|
      ensures io == old(io) + t && Harmless(t)
      ensures if ok then mode == V1 && Verified(t) else mode == Unsure
    {
      ClearRequests();
      mode := Unsure;
      crc := false;
      t := TryStop();
      if !hasReset { return false, t; }
      var a := Ask();
      if !a.good {
        io := io + [ResetFailed];
        HarmlessJoins(t, [ResetFailed]);
        return false, t + [ResetFailed];
      }
      io := io + [DidReset];
      var verified, u := VerifyV1();
      ResetVerifies(t, u);
      if verified { mode := V1; }
      return verified, t + [DidReset] + u;
    }

    /** What a `RecoveryError` leaves behind: verified v1, or an admitted uncertainty. */
    ghost predicate FailedClosed(f: Failure)
      reads this
    {
      f.Recovery? && !crc && active == {} && mode == if f.recovered then V1 else Unsure
    }

    method FailRequest() returns (f: Failure, ghost t: seq<Io>)
      modifies this`mode, this`crc, this`active, this`finished, this`nextId, this`io, this`script
      ensures Valid() && FailedClosed(f) && |script| <= |old(script)|
      ensures io == old(io) + t && Harmless(t) && (f.recovered ==> Verified(t))
    {
      ClearRequests();
      var ok, u := RecoverToV1();
      return Recovery(ok), u;
    }

    /** The universal stop: confirmed by the exact `stopped`, or the session is given up. */
    method OutOfBandStop() returns (r: Option<Failure>, ghost t: seq<Io>)
      requires Valid()
      modifies this`mode, this`crc, this`active, this`finished, this`nextId, this`io, this`script
      ensures Valid() && |script| <= |old(script)| && io == old(io) + t && Harmless(t)
      ensures r.None? ==> StopExchange(t) && mode == old(mode) && crc == old(crc) && active == {}
      ensures r.Some? ==> FailedClosed(r.value) && (r.value.recovered ==> Verified(t))
    {
      var sending := Write(STOP);
      t := [if sending then Wrote(STOP) else WriteFailed(STOP)];
      if sending {
        var ok, u := AwaitStopped();
        HarmlessJoins(t, u);
        t := t + u;
        if ok {
          ClearRequests();
          return None, t;
        }
      }
      var f, v := FailRequest();
      HarmlessJoins(t, v);
      return Some(f), t + v;
    }

    /** Reserve an identifier and write the request; nothing is written when it is refused. */
    method Start(order: Order, chosen: Option<nat>)
      returns (r: Result<nat, Failure>, ghost t: seq<Io>, ghost sent: Sent)
      requires Valid()
      modifies this`mode, this`crc, this`active, this`finished, this`nextId, this`io, this`script
      ensures Valid() && |script| <= |old(script)| && io == old(io) + t
      ensures sent.Request? && sent.command == order.command && sent.protected == old(crc)
      ensures sent.length == order.length && 1 <= sent.id <= 65535
      ensures match r
              case Ok(id) =>
                && t == [Wrote(sent)] && sent.id == id && id in active
                && mode == V2 && old(mode) == V2 && crc == old(crc) && active == old(active) + {id}
              case Err(Refused) => t == [] && mode == old(mode) && crc == old(crc) && active == old(active)
              case Err(f) => FailedClosed(f) && old(mode) == V2 && GivenUp(t, sent) && (f.recovered ==> Verified(t))
    {
      t := [];
      sent := Request(1, order.command, crc, order.length);
      if mode != V2 { return Err(Refused), t, sent; }
      var id := 0;
      if chosen.None? {
        var a := Allocate();
        if a.None? { return Err(Refused), t, sent; }
        id := a.value;
      } else {
        var ok := Reserve(chosen.value);
        if !ok { return Err(Refused), t, sent; }
        id := chosen.value;
      }
      if !order.legal {
        active := active - {id};
        return Err(Refused), t, sent;
      }
      var line := Request(id, order.command, crc, order.length);
      sent := line;
      var sending := Write(line);
      t := [if sending then Wrote(sent) else WriteFailed(sent)];
      if sending { return Ok(id), t, sent; }
      var f, u := FailRequest();
      GivesUp(t, sent, u);
      return Err(f), t + u, sent;
    }

    /** What `parse_v2_line` makes of a line at a CRC boundary. */
    static function Parse(l: Line, required: bool): Option<Body> {
      if l.Frame? && l.protected == required then Some(l.body) else None
    }

    /** Take one line as an answer to request `id`; anything but an event or its own response is unsafe. */
    method Accept(reading: Reading, id: nat, required: bool) returns (r: Option<Body>)
      modifies this`active, this`finished
      ensures r.Some? ==> reading.Read? && Parse(reading.line, required) == r
      ensures r.Some? && r.value.Reply? ==> r.value.response.id == id && id in old(active)
      ensures r.Some? ==>
                active == if r.value.Reply? && TerminalKind(r.value.response.kind)
                          then old(active) - {id} else old(active)
    {
      if !reading.Read? { return None; }
      r := Parse(reading.line, required);
      if r.None? || r.value.Event? { return; }
      var known := Observe(r.value.response);
      if !known || r.value.response.id != id { return None; }
    }

    method Consult(interruptible: bool) returns (c: Consulted)
      modifies this`script
      ensures |script| <= |old(script)| && (c.GoOn? ==> |script| < |old(script)|) && (c.StopNow? ==> interruptible)
    {
      var left := TimeLeft();
      if !left { return GiveUp; }
      if !interruptible { return GoOn; }
      var a := Ask();
      if a.poll.PollRaised? { return GiveUp; }
      left := TimeLeft();
      return if !left then GiveUp else if a.poll.Interrupt? then StopNow else GoOn;
    }

    method Hear(id: nat, required: bool, interruptible: bool) returns (h: Heard, ghost e: Io)
      modifies this`active, this`finished, this`io, this`script
      ensures |script| <= |old(script)| && io == old(io) + [e] && IsRead(e)
      ensures h.Nothing? ==> e.Quiet? && active == old(active)
      ensures h.Heard? ==> e == Got(Frame(required, h.body))
      ensures h.Heard? && h.body.Reply? ==> h.body.response.id == id
      ensures h.Heard? ==>
                active == if h.body.Reply? && TerminalKind(h.body.response.kind)
                          then old(active) - {id} else old(active)
    {
      var reading := ReadLine();
      e := Seen(reading);
      if reading.TimedOut? && interruptible {
        var left := TimeLeft();
        if left { return Nothing, e; }
      }
      var body := Accept(reading, id, required);
      return if body.None? then Unsafe else Heard(body.value), e;
    }

    /** The read loop of a request, up to its terminal, an interruption, or anything unsafe. */
    method AwaitTerminal(id: nat, required: bool, interruptible: bool) returns (r: Waited, ghost w: seq<Io>)
      requires Valid() && id in active
      modifies this`active, this`finished, this`io, this`script
      ensures Valid() && |script| <= |old(script)| && io == old(io) + w && AllReads(w)
      ensures match r
              case Terminated(rs) =>
                && w != [] && AllWait(w[..|w| - 1], id, required) && IsTerminal(w[|w| - 1], id, required)
                && rs == Replies(w) && id !in active
              case MustStop => AllWait(w, id, required) && interruptible
              case Broken => true
    {
      w := [];
      var responses: seq<Response> := [];
      while true
        invariant Valid() && |script| <= |old(script)| && io == old(io) + w
        invariant AllReads(w) && AllWait(w, id, required) && responses == Replies(w)
        decreases |script|
      {
        var c := Consult(interruptible);
        if c.GiveUp? { return Broken, w; }
        if c.StopNow? { return MustStop, w; }
        var h, e := Hear(id, required, interruptible);
        RepliesAppend(w, e);
        ghost var v := w;
        w := w + [e];
        assert w[..|w| - 1] == v;
        if h.Unsafe? { return Broken, w; }
        if h.Nothing? || h.body.Event? { continue; }
        responses := responses + [h.body.response];
        if TerminalKind(h.body.response.kind) { return Terminated(responses), w; }
      }
    }

    /** From the written request to its end. */
    method Await(id: nat, required: bool, interruptible: bool, ghost sent: Sent)
      returns (r: Result<Completion, Failure>, ghost u: seq<Io>)
      requires Valid() && mode == V2 && sent.Request? && sent.id == id && id in active
      modifies this`mode, this`crc, this`active, this`finished, this`nextId, this`io, this`script
      ensures Valid() && |script| <= |old(script)| && io == old(io) + u
      ensures var t := [Wrote(sent)] + u;
              match r
              case Ok(c) => Exchange(t, sent, required) && c == Completion(id, Replies(t)) && mode == V2
                  && crc == old(crc) && id !in active
              case Err(f) =>
                if f.Interrupted? then CutShort(t, sent, required) && interruptible && mode == V2 && crc == old(crc)
                    && active == {}
                else FailedClosed(f) && GivenUp(t, sent) && (f.recovered ==> Verified(t))
    {
      var ended, w := AwaitTerminal(id, required, interruptible);
      match ended
      case Terminated(responses) =>
        Completes(sent, required, w);
        return Ok(Completion(id, responses)), w;
      case MustStop =>
        var failure, v := OutOfBandStop();
        if failure.Some? {
          GivesUpAfter(sent, w, v);
          return Err(failure.value), w + v;
        }
        CutsShortAfter(sent, required, w, v);
        return Err(Interrupted), w + v;
      case Broken =>
        var f, v := FailRequest();
        GivesUpAfter(sent, w, v);
        return Err(f), w + v;
    }

    /**
     One synchronous request. Whatever the peer does, it returns the correlated completion,
     reports a confirmed stop, or fails closed.
     */
    method DoRequest(order: Order, chosen: Option<nat>, responseCrc: Option<bool>, interruptible: bool)
      returns (r: Result<Completion, Failure>, ghost t: seq<Io>, ghost sent: Sent)
      requires Valid()
      modifies this`mode, this`crc, this`active, this`finished, this`nextId, this`io, this`script
      ensures Valid() && |script| <= |old(script)| && io == old(io) + t
      ensures sent.Request? && sent.command == order.command && sent.protected == old(crc) && 1 <= sent.id <= 65535
      ensures var protected := if responseCrc.Some? then responseCrc.value else old(crc);
              match r
              case Ok(c) =>
                && Exchange(t, sent, protected) && c == Completion(sent.id, Replies(t))
                && mode == V2 && old(mode) == V2 && crc == old(crc) && c.id !in active
              case Err(Refused) => t == [] && mode == old(mode) && crc == old(crc) && active == old(active)
              case Err(Interrupted) =>
                CutShort(t, sent, protected) && interruptible && mode == V2 && old(mode) == V2 && crc == old(crc)
                    && active == {}
              case Err(Recovery(_)) => FailedClosed(r.error) && old(mode) == V2 && GivenUp(t, sent)
                  && (r.error.recovered ==> Verified(t))
              case Err(Unacceptable) => false
    {
      var started, begun, line := Start(order, chosen);
      t, sent := begun, line;
      if started.Err? { return Err(started.error), t, sent; }
      var required := if responseCrc.Some? then responseCrc.value else crc;
      var answer, u := Await(started.value, required, interruptible, sent);
      return answer, t + u, sent;
    }

    function Belief(): View
      reads this
    {
      View(mode, crc)
    }

    method Recover() returns (ok: bool, ghost t: seq<Io>)
      requires Valid()
      modifies this`mode, this`crc, this`active, this`finished, this`nextId, this`io, this`script
      ensures Valid() && io == old(io) + t && Call(old(Belief()), t, Belief())
      ensures if ok then mode == V1 && Verified(t) else mode == Unsure
    {
      ok, t := RecoverToV1();
    }

    /** Abandon a v1 exchange that wrote only plain lines. */
    method Abandon(ghost t: seq<Io>) returns (f: Failure, ghost u: seq<Io>)
      requires Valid() && PlainOnly(t)
      modifies this`mode, this`crc, this`active, this`finished, this`nextId, this`io, this`script
      ensures Valid() && io == old(io) + u && FailedClosed(f) && PlainOnly(t + u) && (f.recovered ==> Verified(t + u))
    {
      var g, v := FailRequest();
      if g.recovered { assert (t + v)[|t + v| - 4..] == v[|v| - 4..]; }
      return g, v;
    }

    method Stop() returns (r: Option<Failure>, ghost t: seq<Io>)
      requires Valid()
      modifies this`mode, this`crc, this`active, this`finished, this`nextId, this`io, this`script
      ensures Valid() && io == old(io) + t && Call(old(Belief()), t, Belief())
      ensures r.None? ==> StopExchange(t) && Belief() == old(Belief())
    {
      r, t := OutOfBandStop();
    }

    /** The startup marker; a wrong or missing line changes nothing. */
    method WaitReady() returns (ok: bool, ghost t: seq<Io>)
      requires Valid()
      modifies this`io, this`script
      ensures Valid() && io == old(io) + t && Call(old(Belief()), t, Belief()) && Belief() == old(Belief())
      ensures ok <==> t == [Got(Ready)]
    {
      var r := ReadLine();
      return r == Read(Ready), [Seen(r)];
    }

    /** Write one plain line and read its one-line answer. */
    method Probe(p: Plain) returns (r: Option<Line>, ghost t: seq<Io>)
      requires Valid()
      modifies this`io, this`script
      ensures Valid() && io == old(io) + t && PlainOnly(t) && (p != ActivateLine ==> Harmless(t))
      ensures r.Some? ==> t == [Wrote(PlainText(p)), Got(r.value)]
    {
      var sending := Write(PlainText(p));
      t := [if sending then Wrote(PlainText(p)) else WriteFailed(PlainText(p))];
      if !sending { return None, t; }
      var reading := ReadLine();
      t := t + [Seen(reading)];
      return if reading.Read? then Some(reading.line) else None, t;
    }

    method PingBarrier() returns (r: Option<Failure>, ghost t: seq<Io>)
      requires Valid()
      modifies this`mode, this`crc, this`active, this`finished, this`nextId, this`io, this`script
      ensures Valid() && io == old(io) + t && PlainOnly(t) && Call(old(Belief()), t, Belief())
      ensures r.None? ==> Barrier(t) && Belief() == old(Belief())
      ensures r.Some? ==> FailedClosed(r.value) && (r.value.recovered ==> Verified(t))
    {
      var line, u := Probe(PingLine);
      if line == Some(PingOk) { return None, u; }
      var f, v := Abandon(u);
      return Some(f), u + v;
    }

    /** Is v2 available? A busy controller is asked once more behind a ping barrier. */
    method Discover() returns (r: Result<bool, Failure>, ghost t: seq<Io>)
      requires Valid()
      modifies this`mode, this`crc, this`active, this`finished, this`nextId, this`io, this`script
      ensures Valid() && io == old(io) + t && Call(old(Belief()), t, Belief())
      ensures r.Ok? ==>
                && Discovery(t) && Belief() == old(Belief())
                && t[|t| - 1] == Got(if r.value then Available else LegacyOk)
      ensures r.Err? ==> FailedClosed(r.error) && (r.error.recovered ==> Verified(t))
    {
      var line, u := Probe(DiscoverLine);
      if line == Some(Busy) {
        var again, v := DiscoverAgain(u);
        return again, u + v;
      }
      var f, w := Classify(line, u);
      return f, u + w;
    }

    /** `classify_discovery`: only the two exact replies are safe. */
    method Classify(line: Option<Line>, ghost t: seq<Io>) returns (r: Result<bool, Failure>, ghost u: seq<Io>)
      requires Valid() && PlainOnly(t)
      modifies this`mode, this`crc, this`active, this`finished, this`nextId, this`io, this`script
      ensures Valid() && io == old(io) + u && PlainOnly(t + u)
      ensures r.Ok? ==> u == [] && Belief() == old(Belief()) && line == Some(if r.value then Available else LegacyOk)
      ensures r.Err? ==> FailedClosed(r.error) && (r.error.recovered ==> Verified(t + u))
    {
      if line == Some(Available) || line == Some(LegacyOk) { return Ok(line == Some(Available)), []; }
      var f, v := Abandon(t);
      return Err(f), v;
    }

    /** The second attempt, behind a ping barrier. */
    method DiscoverAgain(ghost t: seq<Io>) returns (r: Result<bool, Failure>, ghost u: seq<Io>)
      requires Valid() && t == [Wrote(PlainText(DiscoverLine)), Got(Busy)]
      modifies this`mode, this`crc, this`active, this`finished, this`nextId, this`io, this`script
      ensures Valid() && io == old(io) + u && PlainOnly(t + u)
      ensures r.Ok? ==>
                && Discovery(t + u) && Belief() == old(Belief())
                && (t + u)[|t + u| - 1] == Got(if r.value then Available else LegacyOk)
      ensures r.Err? ==> FailedClosed(r.error) && (r.error.recovered ==> Verified(t + u))
    {
      var failed, v := PingBarrier();
      PlainJoins(t, v);
      if failed.Some? { return Err(failed.value), v; }
      var line, w := Probe(DiscoverLine);
      PlainJoins(t + v, w);
      var answer, x := Classify(line, t + v + w);
      if answer.Ok? {
        AsksTwice(t, v, w);
        return answer, v + w;
      }
      Regroup(t, v, w, x);
      return answer, v + w + x;
    }

    /** A typed query: a completed request whose fields are acceptable. */
    method Fetch(order: Order) returns (r: Result<Fields, Failure>, ghost t: seq<Io>)
      requires Valid() && !Boundary(order.command)
      modifies this`mode, this`crc, this`active, this`finished, this`nextId, this`io, this`script
      ensures Valid() && io == old(io) + t && Call(old(Belief()), t, Belief())
      ensures r.Ok? || r == Err(Unacceptable) ==> Queried(t, old(crc)) && Belief() == old(Belief()) && mode == V2
      ensures r.Ok? ==> r.value == MergedFields(Replies(t)) && Acceptable(order.command, r.value)
      ensures r.Err? && r.error.Recovery? ==>
                && FailedClosed(r.error) && NoActivate(t)
                && (r.error.recovered ==> Verified(t))
      ensures r == Err(Refused) ==> t == [] && Belief() == old(Belief())
      ensures r != Err(Interrupted)
    {
      var c, u := Command(order, None, false);
      t := u;
      if c.Err? { return Err(c.error), t; }
      var fields := MergedFields(c.value.responses);
      if !Succeeded(c.value) || !Acceptable(order.command, fields) { return Err(Unacceptable), t; }
      return Ok(fields), t;
    }

    /** One of the queries that follow an activation. */
    method FetchNext(order: Order, ghost before: seq<Io>) returns (r: Option<Failure>, ghost t: seq<Io>)
      requires Valid() && mode == V2 && !crc && !Boundary(order.command) && NoActivate(before)
      modifies this`mode, this`crc, this`active, this`finished, this`nextId, this`io, this`script
      ensures Valid() && io == old(io) + t && NoActivate(before + t)
      ensures r.None? ==> Queried(t, false) && mode == V2 && !crc
      ensures r.Some? && r.value.Recovery? ==> FailedClosed(r.value) && (r.value.recovered ==> Verified(before + t))
    {
      var x, u := Fetch(order);
      if x.Ok? || x == Err(Unacceptable) { QueriedNoActivate(u, false); }
      NoActivateJoins(before, u);
      return if x.Ok? then None else Some(x.error), u;
    }

    /** Protocol version, capabilities and status, in this order. */
    method Introduce(version: Order, capabilities: Order, status: Order)
      returns (r: Option<Failure>, ghost t: seq<Io>, ghost a: seq<Io>, ghost b: seq<Io>, ghost c: seq<Io>)
      requires Valid() && mode == V2 && !crc
      requires version.command == ProtocolVersion && capabilities.command == Capabilities && status.command == Status
      modifies this`mode, this`crc, this`active, this`finished, this`nextId, this`io, this`script
      ensures Valid() && io == old(io) + t && NoActivate(t)
      ensures r.None? ==>
                && t == a + b + c && Queried(a, false) && Queried(b, false) && Queried(c, false) && mode == V2
                && !crc
      ensures r.Some? && r.value.Recovery? ==> FailedClosed(r.value) && (r.value.recovered ==> Verified(t))
    {
      a, b, c := [], [], [];
      r, a := FetchNext(version, []);
      t := [] + a;
      if r.Some? { return; }
      r, b := FetchNext(capabilities, t);
      t := t + b;
      if r.Some? { return; }
      r, c := FetchNext(status, t);
      t := t + c;
    }

    /** The queries of an activation; whatever they raise is recovered to v1. */
    method Settle(version: Order, capabilities: Order, status: Order) returns (r: Option<Failure>, ghost w: seq<Io>)
      requires Valid() && mode == V2 && !crc
      requires version.command == ProtocolVersion && capabilities.command == Capabilities && status.command == Status
      modifies this`mode, this`crc, this`active, this`finished, this`nextId, this`io, this`script
      ensures Valid() && io == old(io) + w && NoActivate(w)
      ensures r.None? ==> Activation(ENTERED + w) && mode == V2 && !crc
      ensures r.Some? ==> FailedClosed(r.value) && (r.value.recovered ==> Verified(w))
    {
      var failed, t, a, b, c := Introduce(version, capabilities, status);
      w := t;
      if failed.None? || failed.value.Recovery? { return failed, w; }
      var f, v := FailRequest();
      NoActivateJoins(w, v);
      return Some(f), w + v;
    }

    /** Enter v2 after an exact confirmation; every uncertainty is recovered to v1. */
    method ActivateKnownAvailable(version: Order, capabilities: Order, status: Order)
      returns (r: Option<Failure>, ghost t: seq<Io>)
      requires Valid()
      requires version.command == ProtocolVersion && capabilities.command == Capabilities && status.command == Status
      modifies this`mode, this`crc, this`active, this`finished, this`nextId, this`io, this`script
      ensures Valid() && io == old(io) + t && Call(old(Belief()), t, Belief())
      ensures r.None? ==> Activation(t) && mode == V2 && !crc
      ensures r.Some? ==> FailedClosed(r.value)
    {
      var line, u := Probe(ActivateLine);
      if line != Some(V2Ready) {
        var f, v := Abandon(u);
        return Some(f), u + v;
      }
      mode, crc := V2, false;
      ClearRequests();
      var failed, w := Settle(version, capabilities, status);
      EnteringIsACall(old(Belief()), w, Belief());
      return failed, ENTERED + w;
    }

    /** An ordinary request: every command but those that move a boundary. */
    method Command(order: Order, chosen: Option<nat>, interruptible: bool)
      returns (r: Result<Completion, Failure>, ghost t: seq<Io>)
      requires Valid() && !Boundary(order.command)
      modifies this`mode, this`crc, this`active, this`finished, this`nextId, this`io, this`script
      ensures Valid() && io == old(io) + t && Call(old(Belief()), t, Belief())
      ensures r.Ok? ==>
                && Queried(t, old(crc)) && Belief() == old(Belief()) && mode == V2
                && r.value.responses == Replies(t)
      ensures r.Err? && r.error.Recovery? ==> FailedClosed(r.error) && (r.error.recovered ==> Verified(t))
      ensures r.Err? && r.error.Recovery? ==> NoActivate(t)
      ensures r.Err? && !r.error.Recovery? ==> Belief() == old(Belief())
      ensures r == Err(Refused) ==> t == []
      ensures r == Err(Interrupted) ==> interruptible
      ensures r.Err? ==> r.error != Unacceptable
    {
      var x, u, sent := DoRequest(order, chosen, None, interruptible);
      t := u;
      if x.Err? && x.error.Recovery? { GivenUpNoActivate(t, sent); }
      return x, t;
    }

    /** A boundary request and the field its terminal must carry; an unconfirmed one is not acceptable. */
    method Confirm(command: Command, length: nat, responseCrc: Option<bool>)
      returns (r: Result<Completion, Failure>, ghost t: seq<Io>)
      requires Valid() && Boundary(command)
      modifies this`mode, this`crc, this`active, this`finished, this`nextId, this`io, this`script
      ensures Valid() && io == old(io) + t && r != Err(Interrupted)
      ensures r.Ok? || r == Err(Refused) || r == Err(Unacceptable) ==> Belief() == old(Belief())
      ensures r.Ok? ==>
                && mode == V2
                && Switched(t, command, old(crc), if responseCrc.Some? then responseCrc.value else old(crc))
      ensures r == Err(Refused) ==> t == []
      ensures r == Err(Unacceptable) ==> mode == V2 && NoActivate(t)
      ensures r.Err? && r.error.Recovery? ==>
                && FailedClosed(r.error) && old(mode) == V2 && NoActivate(t)
                && (r.error.recovered ==> Verified(t))
    {
      ghost var answer := if responseCrc.Some? then responseCrc.value else crc;
      var x, u, sent := DoRequest(Order(command, true, length), None, responseCrc, false);
      t := u;
      if x.Err? {
        if x.error.Recovery? { GivenUpNoActivate(t, sent); }
        return x, t;
      }
      LastReply(t, sent, answer);
      var (key, value) := Confirmation(command);
      if Succeeded(x.value) && key in TerminalFields(x.value) && TerminalFields(x.value)[key] == value { return x, t; }
      ExchangeNoActivate(t, sent, answer);
      return Err(Unacceptable), t;
    }

    method EnableCrc(length: nat) returns (r: Result<Completion, Failure>, ghost t: seq<Io>)
      requires Valid()
      modifies this`mode, this`crc, this`active, this`finished, this`nextId, this`io, this`script
      ensures Valid() && io == old(io) + t && Call(old(Belief()), t, Belief())
      ensures r.Ok? ==> mode == V2 && crc && Switched(t, CrcOn, false, true)
    {
      if crc { return Err(Refused), []; }
      r, t := Confirm(CrcOn, length, Some(true));
      if r == Err(Unacceptable) {
        var f, v := FailRequest();
        EndsBadly(old(Belief()), t, v, Belief());
        return Err(f), t + v;
      }
      if r.Ok? { crc := true; }
    }

    method DisableCrc(length: nat) returns (r: Result<Completion, Failure>, ghost t: seq<Io>)
      requires Valid()
      modifies this`mode, this`crc, this`active, this`finished, this`nextId, this`io, this`script
      ensures Valid() && io == old(io) + t && Call(old(Belief()), t, Belief())
      ensures r.Ok? ==> mode == V2 && !crc && Switched(t, CrcOff, true, true)
    {
      if !crc { return Err(Refused), []; }
      r, t := Confirm(CrcOff, length, None);
      if r == Err(Unacceptable) {
        var f, v := FailRequest();
        EndsBadly(old(Belief()), t, v, Belief());
        return Err(f), t + v;
      }
      if r.Ok? { crc := false; }
    }

    /** Back to v1 through the correlated `protocol:1`; outside v2 the refusal itself leads to recovery. */
    method LeaveV2(length: nat) returns (r: Result<Completion, Failure>, ghost t: seq<Io>)
      requires Valid()
      modifies this`mode, this`crc, this`active, this`finished, this`nextId, this`io, this`script
      ensures Valid() && io == old(io) + t && Call(old(Belief()), t, Belief())
      ensures r.Ok? ==> mode == V1 && !crc && active == {} && Switched(t, Protocol1, old(crc), old(crc))
      ensures r.Err? ==> FailedClosed(r.error)
    {
      r, t := Confirm(Protocol1, length, None);
      if r.Ok? {
        mode := V1;
        crc := false;
        ClearRequests();
        return;
      }
      if r.error.Recovery? { return; }
      var f, v := FailRequest();
      EndsBadly(old(Belief()), t, v, Belief());
      return Err(f), t + v;
    }
  }

  lemma AsksTwice(u: seq<Io>, v: seq<Io>, w: seq<Io>)
    requires u == [Wrote(PlainText(DiscoverLine)), Got(Busy)] && Barrier(v)
    ensures u + v + w == u + (v + w)
    ensures Asked(w) ==> Discovery(u + (v + w))
    ensures w != [] ==> (u + (v + w))[|u + (v + w)| - 1] == w[|w| - 1]
  {
    var t := u + (v + w);
    assert t[2..4] == v && t[4..] == w;
  }

  lemma Regroup(t: seq<Io>, v: seq<Io>, w: seq<Io>, x: seq<Io>)
    ensures t + v + w + x == t + (v + w + x)
  {
  }

  /** A reset and the two exact lines after it verify the session. */
  lemma ResetVerifies(t: seq<Io>, u: seq<Io>)
    requires Harmless(t) && Harmless(u)
    ensures Harmless(t + [DidReset] + u)
    ensures u == [Got(Ready), Wrote(PING), Got(PingOk)] ==> Verified(t + [DidReset] + u)
  {
    HarmlessJoins(t, [DidReset]);
    HarmlessJoins(t + [DidReset], u);
    var all := t + [DidReset] + u;
    if u == [Got(Ready), Wrote(PING), Got(PingOk)] { assert all[|all| - 4..] == [DidReset] + u; }
  }

  lemma EnteringIsACall(v: View, w: seq<Io>, after: View)
    requires NoActivate(w)
    requires || (after == View(V2, false) && Activation(ENTERED + w))
             || (after == View(V1, false) && Verified(w))
             || after == View(Unsure, false)
    ensures Call(v, ENTERED + w, after)
  {
    AfterEntering(w);
  }

  /** A session given up after an exchange, or after nothing was written. */
  lemma EndsBadly(v: View, t: seq<Io>, u: seq<Io>, w: View)
    requires (t == [] || (v.mode == V2 && NoActivate(t))) && Harmless(u)
    requires (w == View(V1, false) && Verified(u)) || w == View(Unsure, false)
    ensures Call(v, t + u, w)
  {
    if t == [] { assert t + u == u; }
    NoActivateJoins(t, u);
  }

  lemma PlainJoins(a: seq<Io>, b: seq<Io>)
    requires PlainOnly(a) && PlainOnly(b)
    ensures PlainOnly(a + b) && (Verified(b) ==> Verified(a + b))
  {
    if Verified(b) { assert (a + b)[|a + b| - 4..] == b[|b| - 4..]; }
  }

  lemma QueriedNoActivate(t: seq<Io>, crc: bool)
    requires Queried(t, crc)
    ensures NoActivate(t)
  {
    var sent :| Exchange(t, sent, crc) && sent.protected == crc && sent.id >= 1 && !Boundary(sent.command);
    ExchangeNoActivate(t, sent, crc);
  }

  lemma LastReply(t: seq<Io>, sent: Sent, protected: bool)
    requires Exchange(t, sent, protected)
    ensures Replies(t) != [] && Replies(t)[|Replies(t)| - 1] == t[|t| - 1].line.body.response
  {
    assert t == t[..|t| - 1] + [t[|t| - 1]];
    RepliesAppend(t[..|t| - 1], t[|t| - 1]);
  }

  lemma {:induction false} RepliesAfterWrite(sent: Sent, w: seq<Io>)
    ensures Replies([Wrote(sent)] + w) == Replies(w)
  {
    if w == [] {
      RepliesAppend([], Wrote(sent));
      assert [Wrote(sent)] + w == [] + [Wrote(sent)];
    } else {
      var v, e := w[..|w| - 1], w[|w| - 1];
      RepliesAfterWrite(sent, v);
      assert [Wrote(sent)] + w == ([Wrote(sent)] + v) + [e] && w == v + [e];
      RepliesAppend([Wrote(sent)] + v, e);
      RepliesAppend(v, e);
    }
  }

  lemma CompletesExchange(sent: Sent, protected: bool, w: seq<Io>)
    requires sent.Request? && w != [] && AllWait(w[..|w| - 1], sent.id, protected)
    requires IsTerminal(w[|w| - 1], sent.id, protected)
    ensures Exchange([Wrote(sent)] + w, sent, protected)
  {
    var t := [Wrote(sent)] + w;
    forall i | 1 <= i < |t| - 1 ensures Waits(t[i], sent.id, protected) { assert t[i] == w[..|w| - 1][i - 1]; }
    assert t[|t| - 1] == w[|w| - 1];
  }

  lemma Completes(sent: Sent, protected: bool, w: seq<Io>)
    requires sent.Request? && w != [] && AllWait(w[..|w| - 1], sent.id, protected)
    requires IsTerminal(w[|w| - 1], sent.id, protected)
    ensures Exchange([Wrote(sent)] + w, sent, protected) && Replies([Wrote(sent)] + w) == Replies(w)
  {
    CompletesExchange(sent, protected, w);
    RepliesAfterWrite(sent, w);
  }

  lemma GivesUpAfter(sent: Sent, w: seq<Io>, v: seq<Io>)
    requires AllReads(w) && Harmless(v)
    ensures GivenUp([Wrote(sent)] + (w + v), sent) && (Verified(v) ==> Verified([Wrote(sent)] + (w + v)))
  {
    var t := [Wrote(sent)] + w;
    assert t[1..] == w;
    GivesUp(t, sent, v);
    assert t + v == [Wrote(sent)] + (w + v);
  }

  lemma CutsShortAfter(sent: Sent, protected: bool, w: seq<Io>, v: seq<Io>)
    requires sent.Request? && AllWait(w, sent.id, protected) && StopExchange(v)
    ensures CutShort([Wrote(sent)] + (w + v), sent, protected)
  {
    var t := [Wrote(sent)] + (w + v);
    var k := 1 + |w|;
    forall i | 1 <= i < k ensures Waits(t[i], sent.id, protected) { assert t[i] == w[i - 1]; }
    assert t[k..] == v;
  }
}
