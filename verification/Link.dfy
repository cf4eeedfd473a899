/** Decimal numerals as both ends print and read them. */
module Decimal {

  predicate IsDigit(c: char) {
    '0' <= c <= '9'
  }

  function DigitChar(d: nat): (c: char)
    requires d < 10
    ensures IsDigit(c) && c as int - '0' as int == d
  {
    ['0', '1', '2', '3', '4', '5', '6', '7', '8', '9'][d]
  }

  function Print(n: nat): (s: string)
    ensures s != [] && forall c :: c in s ==> IsDigit(c)
    ensures s[0] == '0' ==> s == "0"
  {
    if n < 10 then [DigitChar(n)] else Print(n / 10) + [DigitChar(n % 10)]
  }

  predicate AllDigits(s: string) {
    s != [] && forall c :: c in s ==> IsDigit(c)
  }

  function Value(s: string): nat
    requires forall c :: c in s ==> IsDigit(c)
  {
    if s == [] then 0
    else
      var last := s[|s| - 1];
      assert IsDigit(last);
      10 * Value(s[..|s| - 1]) + (last as int - '0' as int)
  }

  /** Reading what was printed gives the number back. */
  lemma {:induction false} ValueOfPrint(n: nat)
    ensures Value(Print(n)) == n
  {
    if n >= 10 {
      ValueOfPrint(n / 10);
      var s := Print(n);
      assert s[..|s| - 1] == Print(n / 10);
    } else {
      assert Print(n)[..0] == [];
    }
  }

  /** A prefix of a numeral is worth no more than the numeral. */
  lemma {:induction false} ValueGrows(s: string, k: nat)
    requires AllDigits(s) && k <= |s|
    ensures Value(s[..k]) <= Value(s)
    decreases |s| - k
  {
    if k < |s| {
      assert s[..k + 1][..k] == s[..k] && s[..k + 1][k] == s[k] && s[k] in s;
      assert Value(s[..k + 1]) >= 10 * Value(s[..k]);
      ValueGrows(s, k + 1);
    } else {
      assert s[..k] == s;
    }
  }

  function Digits(n: nat): nat {
    if n < 10 then 1 else 1 + Digits(n / 10)
  }

  lemma {:induction false} PrintLength(n: nat)
    ensures |Print(n)| == Digits(n)
  {
    if n >= 10 { PrintLength(n / 10); }
  }
}

/**
 What travels between the host and the controller, one line at a time. Lines are kept in
 parsed form: `Wire`, `Crc` and `Framing` relate that form to bytes.
 */
module Link {

  type Fields = map<string, string>

  datatype Kind = Accepted | Progress | Data | Done | Error

  predicate TerminalKind(k: Kind) {
    k.Done? || k.Error?
  }

  datatype Response = Response(id: nat, kind: Kind, fields: Fields)

  datatype Notice = StateNotice(mode: string, phase: string) | FaultNotice(code: nat) | RejectNotice(code: nat)

  datatype Body = Reply(response: Response) | Event(sequence: nat, notice: Notice)

  /** A line from the controller. */
  datatype Line =
    | Ready                               // `Ready`
    | PingOk                              // ` ok`, with its leading space
    | Available                           // `protocol:2 available`
    | LegacyOk                            // `ok`
    | Busy                                // `error:busy`
    | V2Ready                             // `protocol:2 ready`
    | Stopped                             // `stopped`
    | Frame(protected: bool, body: Body)  // a well-formed v2 frame, with or without CRC
    | OtherText                           // any other readable line
    | Malformed                           // a line the v2 framer rejects

  datatype Plain = StopLine | PingLine | DiscoverLine | ActivateLine

  datatype Command =
    | ProtocolVersion | Capabilities | Status | Queue | Ping | Version
    | CrcOn | CrcOff | Protocol1
    | StopCommand
    | SortTo(argument: string)
    | HomeFeeder | HomeSorter | HomeAll
    | OtherCommand(text: string)

  /** Commands that move the protocol mode or the CRC boundary. */
  predicate Boundary(c: Command) {
    c.CrcOn? || c.CrcOff? || c.Protocol1?
  }

  /** A line from the host; `length` is the length of the whole line. */
  datatype Sent = PlainText(plain: Plain) | Request(id: nat, command: Command, protected: bool, length: nat)

  /** One interaction of the client with its transport. */
  datatype Io =
    | Wrote(sent: Sent)
    | WriteFailed(sent: Sent)
    | Got(line: Line)
    | GotBad            // a line that violates framing
    | ReadFault         // the transport raised
    | Quiet             // nothing complete arrived in time
    | DidReset
    | ResetFailed

  predicate IsRead(e: Io) {
    e.Got? || e.GotBad? || e.ReadFault? || e.Quiet?
  }

  predicate IsWriteOf(e: Io, sent: Sent) {
    e == Wrote(sent) || e == WriteFailed(sent)
  }

  // ---------- what a client call leaves in the trace ----------

  predicate AllReads(t: seq<Io>) {
    forall i :: 0 <= i < |t| ==> IsRead(t[i])
  }

  /** Waiting for the terminal of `id`: only events and non-terminal responses of that request. */
  predicate Waits(e: Io, id: nat, protected: bool) {
    || e.Quiet?
    || (e.Got? && e.line.Frame? && e.line.protected == protected
        && (e.line.body.Event? || (e.line.body.response.id == id && !TerminalKind(e.line.body.response.kind))))
  }

  predicate AllWait(t: seq<Io>, id: nat, protected: bool) {
    forall i :: 0 <= i < |t| ==> Waits(t[i], id, protected)
  }

  predicate WaitBetween(t: seq<Io>, a: int, b: int, id: nat, protected: bool)
    requires 0 <= a && b <= |t|
  {
    forall i :: a <= i < b ==> Waits(t[i], id, protected)
  }

  /** The responses among the lines read, in order. */
  function Replies(t: seq<Io>): seq<Response> {
    if t == [] then []
    else
      var e := t[|t| - 1];
      Replies(t[..|t| - 1]) + if e.Got? && e.line.Frame? && e.line.body.Reply? then [e.line.body.response] else []
  }

  predicate IsTerminal(e: Io, id: nat, protected: bool) {
    e.Got? && e.line.Frame? && e.line.protected == protected && e.line.body.Reply?
    && e.line.body.response.id == id && TerminalKind(e.line.body.response.kind)
  }

  /** A completed request: it was written once, and its sole terminal is the last line read. */
  predicate Exchange(t: seq<Io>, sent: Sent, protected: bool) {
    && |t| >= 2 && sent.Request? && t[0] == Wrote(sent)
    && WaitBetween(t, 1, |t| - 1, sent.id, protected)
    && IsTerminal(t[|t| - 1], sent.id, protected)
  }

  /** The exact `stop` was written and the exact `stopped` is the last line read. */
  predicate StopExchange(t: seq<Io>) {
    && |t| >= 2 && t[0] == Wrote(PlainText(StopLine)) && t[|t| - 1] == Got(Stopped)
    && forall i :: 0 < i < |t| - 1 ==> t[i].Got? && t[i].line != Stopped
  }

  /** A reset that succeeded, then exactly `Ready`, `ping` and ` ok`. */
  predicate Verified(t: seq<Io>) {
    |t| >= 4 && t[|t| - 4..] == [DidReset, Got(Ready), Wrote(PlainText(PingLine)), Got(PingOk)]
  }

  /** Nothing was written but lines that no protocol mode takes for a mode change. */
  predicate Harmless(t: seq<Io>) {
    forall i :: 0 <= i < |t| && (t[i].Wrote? || t[i].WriteFailed?) ==>
      t[i].sent.PlainText? && !t[i].sent.plain.ActivateLine?
  }

  lemma HarmlessJoins(a: seq<Io>, b: seq<Io>)
    requires Harmless(a) && (Harmless(b) || AllReads(b))
    ensures Harmless(a + b)
    ensures Verified(b) ==> Verified(a + b)
  {
    if Verified(b) { assert (a + b)[|a + b| - 4..] == b[|b| - 4..]; }
  }

  lemma RepliesAppend(t: seq<Io>, e: Io)
    ensures Replies(t + [e]) ==
            Replies(t) + if e.Got? && e.line.Frame? && e.line.body.Reply? then [e.line.body.response] else []
  {
    assert (t + [e])[..|t|] == t;
  }

  /** A request that a confirmed out-of-band stop cut short. */
  ghost predicate CutShort(t: seq<Io>, sent: Sent, protected: bool) {
    exists k :: 1 <= k <= |t| && sent.Request? && t[0] == Wrote(sent) && WaitBetween(t, 1, k, sent.id, protected)
        && StopExchange(t[k..])
  }

  /** A request after which the session was given up. */
  predicate GivenUp(t: seq<Io>, sent: Sent) {
    t != [] && IsWriteOf(t[0], sent) && Harmless(t[1..])
  }

  lemma GivesUp(t: seq<Io>, sent: Sent, u: seq<Io>)
    requires t != [] && IsWriteOf(t[0], sent) && AllReads(t[1..]) && Harmless(u)
    ensures GivenUp(t + u, sent) && (Verified(u) ==> Verified(t + u))
  {
    assert (t + u)[1..] == t[1..] + u;
    assert Harmless(t[1..]);
    HarmlessJoins(t[1..], u);
    if Verified(u) { assert (t + u)[|t + u| - 4..] == u[|u| - 4..]; }
  }

  lemma {:induction false} WaitingReplies(w: seq<Io>, sent: Sent, protected: bool)
    requires sent.Request? && AllWait(w, sent.id, protected)
    ensures forall i :: 0 <= i < |Replies([Wrote(sent)] + w)| ==>
              var r := Replies([Wrote(sent)] + w)[i]; r.id == sent.id && !TerminalKind(r.kind)
  {
    if w == [] {
      assert [Wrote(sent)] + w == [] + [Wrote(sent)];
      RepliesAppend([], Wrote(sent));
    } else {
      var v, e := w[..|w| - 1], w[|w| - 1];
      WaitingReplies(v, sent, protected);
      assert [Wrote(sent)] + w == ([Wrote(sent)] + v) + [e];
      RepliesAppend([Wrote(sent)] + v, e);
    }
  }

  /** Every response of a completed request carries its identifier, and exactly the last one is terminal. */
  lemma SoleTerminal(t: seq<Io>, sent: Sent, protected: bool)
    requires Exchange(t, sent, protected)
    ensures Replies(t) != []
    ensures forall i :: 0 <= i < |Replies(t)| ==>
              Replies(t)[i].id == sent.id && (TerminalKind(Replies(t)[i].kind) <==> i == |Replies(t)| - 1)
  {
    var w, e := t[1..|t| - 1], t[|t| - 1];
    assert t == ([Wrote(sent)] + w) + [e];
    WaitingReplies(w, sent, protected);
    RepliesAppend([Wrote(sent)] + w, e);
  }

  // ---------- the shapes of whole calls ----------

  predicate NoActivate(t: seq<Io>) {
    forall i :: 0 <= i < |t| && (t[i].Wrote? || t[i].WriteFailed?) ==> t[i].sent != PlainText(ActivateLine)
  }

  predicate PlainOnly(t: seq<Io>) {
    forall i :: 0 <= i < |t| && (t[i].Wrote? || t[i].WriteFailed?) ==> t[i].sent.PlainText?
  }

  /** A completed request that moves no boundary. */
  ghost predicate Queried(t: seq<Io>, crc: bool) {
    exists sent :: Exchange(t, sent, crc) && sent.protected == crc && sent.id >= 1 && !Boundary(sent.command)
  }

  /** The field by which the terminal of a boundary request confirms it. */
  function Confirmation(command: Command): (string, string) {
    match command
    case CrcOn => ("crc", "on")
    case CrcOff => ("crc", "off")
    case _ => ("protocol", "1")
  }

  predicate Confirms(r: Response, command: Command) {
    var (key, value) := Confirmation(command);
    r.kind.Done? && key in r.fields && r.fields[key] == value
  }

  /** A completed boundary request whose terminal is `done` and carries the confirming field. */
  ghost predicate Switched(t: seq<Io>, command: Command, crc: bool, answer: bool) {
    && |t| >= 1 && t[|t| - 1].Got? && t[|t| - 1].line.Frame? && t[|t| - 1].line.body.Reply?
    && Confirms(t[|t| - 1].line.body.response, command)
    && exists sent :: Exchange(t, sent, answer) && sent.protected == crc && sent.id >= 1 && sent.command == command
  }

  /** An ordinary request that a confirmed stop cut short. */
  ghost predicate Interrupts(t: seq<Io>, crc: bool) {
    exists sent :: CutShort(t, sent, crc) && sent.protected == crc && sent.id >= 1 && !Boundary(sent.command)
  }

  predicate Barrier(t: seq<Io>) {
    t == [Wrote(PlainText(PingLine)), Got(PingOk)]
  }

  predicate Asked(t: seq<Io>) {
    |t| == 2 && t[0] == Wrote(PlainText(DiscoverLine)) && (t[1] == Got(Available) || t[1] == Got(LegacyOk))
  }

  predicate Discovery(t: seq<Io>) {
    || Asked(t)
    || (|t| == 6 && t[0] == Wrote(PlainText(DiscoverLine)) && t[1] == Got(Busy) && Barrier(t[2..4]) && Asked(t[4..]))
  }

  const ENTERED: seq<Io> := [Wrote(PlainText(ActivateLine)), Got(V2Ready)]

  /** `protocol:2`, its exact confirmation, then three completed queries. */
  ghost predicate Activation(t: seq<Io>) {
    exists a, b, c :: t == ENTERED + (a + b + c) && Queried(a, false) && Queried(b, false) && Queried(c, false)
  }

  predicate ActivationLost(t: seq<Io>) {
    |t| >= 2 && t[..2] == ENTERED && NoActivate(t[2..])
  }

  lemma ExchangeNoActivate(t: seq<Io>, sent: Sent, protected: bool)
    requires Exchange(t, sent, protected)
    ensures NoActivate(t)
  {
    forall i | 0 <= i < |t| ensures t[i].Wrote? || t[i].WriteFailed? ==> t[i].sent != PlainText(ActivateLine) {
      if 0 < i < |t| - 1 { assert Waits(t[i], sent.id, protected); }
    }
  }

  lemma GivenUpNoActivate(t: seq<Io>, sent: Sent)
    requires GivenUp(t, sent) && sent.Request?
    ensures NoActivate(t)
  {
    forall i | 0 <= i < |t| && (t[i].Wrote? || t[i].WriteFailed?) ensures t[i].sent != PlainText(ActivateLine) {
      if i > 0 { assert t[i] == t[1..][i - 1]; }
    }
  }

  lemma NoActivateJoins(a: seq<Io>, b: seq<Io>)
    requires NoActivate(a) && NoActivate(b)
    ensures NoActivate(a + b)
    ensures Verified(b) ==> Verified(a + b)
  {
    if Verified(b) { assert (a + b)[|a + b| - 4..] == b[|b| - 4..]; }
  }

  lemma AfterEntering(w: seq<Io>)
    ensures (ENTERED + w)[..2] == ENTERED && (ENTERED + w)[2..] == w
    ensures NoActivate(w) ==> ActivationLost(ENTERED + w)
    ensures Verified(w) ==> Verified(ENTERED + w)
  {
    if Verified(w) { assert (ENTERED + w)[|ENTERED + w| - 4..] == w[|w| - 4..]; }
  }
}
