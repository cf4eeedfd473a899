/**
 Line framing on both ends of the link: the host's `LineReader`, the firmware's v2
 `V2FrameParser` and its v1 `CommandParser`.
 */
module Framing {
  import opened Common

  type Byte = n: nat | n < 256

  const LF: Byte := 10
  const CR: Byte := 13
  const NUL: Byte := 0

  predicate Printable(b: Byte) {
    0x20 <= b <= 0x7E
  }

  /** What a complete line turned out to be. */
  datatype Frame = Accepted(text: seq<Byte>) | Overflow | Invalid

  // ---------- the host reader ----------

  const V2_LIMIT: nat := 64
  const V1_LIMIT: nat := 4096

  /** `_line` and `_discarded_reason`. */
  datatype Reader = Reader(line: seq<Byte>, discarded: Option<Frame>)

  const EMPTY := Reader([], None)

  function DropCr(line: seq<Byte>): seq<Byte> {
    if line != [] && line[|line| - 1] == CR then line[..|line| - 1] else line
  }

  /** One byte: the new state, and the line it completed. */
  function ReadByte(r: Reader, b: Byte, v2: bool): (Reader, Option<Frame>) {
    if b == LF then
      if r.discarded.Some? then (EMPTY, r.discarded)
      else
        var payload := DropCr(r.line);
        (EMPTY, Some(if forall i :: 0 <= i < |payload| ==> payload[i] < 128 then Accepted(payload) else Invalid))
    else if r.discarded.Some? then (r, None)
    else if v2 && r.line != [] && r.line[|r.line| - 1] == CR then (r.(discarded := Some(Invalid)), None)
    else if v2 && b != CR && !Printable(b) then (r.(discarded := Some(Invalid)), None)
    else if |r.line| >= (if v2 then V2_LIMIT else V1_LIMIT) && (!v2 || b != CR) then
      (r.(discarded := Some(Overflow)), None)
    else (r.(line := r.line + [b]), None)
  }

  /** A whole stream: the state it leaves and every line it completed. */
  function ReadAll(r: Reader, bytes: seq<Byte>, v2: bool): (Reader, seq<Frame>) {
    if bytes == [] then (r, [])
    else
      var n := |bytes| - 1;
      var (s, frames) := ReadAll(r, bytes[..n], v2);
      var (t, f) := ReadByte(s, bytes[n], v2);
      (t, frames + Optional(f))
  }

  function Optional(f: Option<Frame>): seq<Frame> {
    if f.Some? then [f.value] else []
  }

  lemma ReadMore(r: Reader, bytes: seq<Byte>, b: Byte, v2: bool)
    ensures ReadAll(r, bytes + [b], v2).0 == ReadByte(ReadAll(r, bytes, v2).0, b, v2).0
    ensures ReadAll(r, bytes + [b], v2).1 == ReadAll(r, bytes, v2).1 +
            Optional(ReadByte(ReadAll(r, bytes, v2).0, b, v2).1)
  {
    assert (bytes + [b])[..|bytes|] == bytes;
  }

  /** What one `stream.read(1)` brings: a byte, nothing yet, or the end of the caller's patience. */
  datatype Arrival = Came(b: Byte) | NothingYet | TooLate

  /** The bytes among the arrivals, in order. */
  function Bytes(arrivals: seq<Arrival>): seq<Byte> {
    if arrivals == [] then []
    else
      var n := |arrivals| - 1;
      if arrivals[n].Came? then Bytes(arrivals[..n]) + [arrivals[n].b] else Bytes(arrivals[..n])
  }

  lemma BytesMore(arrivals: seq<Arrival>, a: Arrival)
    ensures Bytes(arrivals + [a]) == if a.Came? then Bytes(arrivals) + [a.b] else Bytes(arrivals)
  {
    assert (arrivals + [a])[..|arrivals|] == arrivals;
  }

  lemma {:induction false} BytesJoin(a: seq<Arrival>, b: seq<Arrival>)
    ensures Bytes(a + b) == Bytes(a) + Bytes(b)
  {
    if b == [] {
      assert a + b == a;
    } else {
      var n := |b| - 1;
      BytesJoin(a, b[..n]);
      assert a + b == (a + b[..n]) + [b[n]];
      BytesMore(a + b[..n], b[n]);
    }
  }

  /** Reading these arrivals leaves this state and completes at most this one line. */
  predicate Reaches(start: Reader, taken: seq<Arrival>, v2: bool, r: Reader, f: Option<Frame>) {
    ReadAll(start, Bytes(taken), v2) == (r, Optional(f))
  }

  /** One arrival: only a byte changes anything. */
  function Arrive(r: Reader, a: Arrival, v2: bool): (Reader, Option<Frame>) {
    if a.Came? then ReadByte(r, a.b, v2) else (r, None)
  }

  lemma ArrivalReaches(start: Reader, all: seq<Arrival>, n: nat, v2: bool, r: Reader)
    requires n < |all| && Reaches(start, all[..n], v2, r, None)
    ensures Reaches(start, all[..n + 1], v2, Arrive(r, all[n], v2).0, Arrive(r, all[n], v2).1)
  {
    assert all[..n + 1] == all[..n] + [all[n]];
    NextReaches(start, all[..n], all[n], v2, r);
  }

  lemma NextReaches(start: Reader, taken: seq<Arrival>, a: Arrival, v2: bool, r: Reader)
    requires Reaches(start, taken, v2, r, None)
    ensures Reaches(start, taken + [a], v2, Arrive(r, a, v2).0, Arrive(r, a, v2).1)
  {
    BytesMore(taken, a);
    if a.Came? {
      ReadMore(start, Bytes(taken), a.b, v2);
      assert [] + Optional(ReadByte(r, a.b, v2).1) == Optional(ReadByte(r, a.b, v2).1);
    }
  }

  class LineReader {
    var line: seq<Byte>
    var discarded: Option<Frame>
    var arrivals: seq<Arrival>

    constructor (arrivals: seq<Arrival>)
      ensures Contents() == EMPTY && this.arrivals == arrivals
    {
      line, discarded := [], None;
      this.arrivals := arrivals;
    }

    function Contents(): Reader
      reads this
    {
      Reader(line, discarded)
    }

    method Take(b: Byte, v2: bool) returns (f: Option<Frame>)
      modifies this`line, this`discarded
      ensures (Contents(), f) == ReadByte(old(Contents()), b, v2)
    {
      var limit := if v2 then V2_LIMIT else V1_LIMIT;
      if b == LF {
        if discarded.Some? {
          f := discarded;
          line, discarded := [], None;
          return;
        }
        var payload := line;
        line := [];
        if payload != [] && payload[|payload| - 1] == CR { payload := payload[..|payload| - 1]; }
        var ascii := forall i :: 0 <= i < |payload| ==> payload[i] < 128;
        return Some(if ascii then Accepted(payload) else Invalid);
      }
      if discarded.None? {
        if v2 && line != [] && line[|line| - 1] == CR {
          discarded := Some(Invalid);
        } else if v2 && b != CR && !Printable(b) {
          discarded := Some(Invalid);
        } else if |line| >= limit && (!v2 || b != CR) {
          discarded := Some(Overflow);
        } else {
          line := line + [b];
        }
      }
      return None;
    }

    /**
     One `read_line`. It takes arrivals from the front, reads exactly the bytes among them, and
     returns the first line they complete. It gives up only when time runs out or nothing is left
     to arrive, and then keeps everything it has read for the next call.
     */
    method ReadLine(v2: bool) returns (f: Option<Frame>, ghost taken: seq<Arrival>)
      modifies this
      ensures old(arrivals) == taken + arrivals && (old(arrivals) != [] ==> taken != [])
      ensures Reaches(old(Contents()), taken, v2, Contents(), f)
      ensures f.None? ==> arrivals == [] || (taken != [] && taken[|taken| - 1].TooLate?)
      ensures forall i :: 0 <= i < |taken| - 1 ==> !taken[i].TooLate?
    {
      ghost var start, all, n := Contents(), arrivals, 0;
      while arrivals != []
        invariant 0 <= n <= |all| && arrivals == all[n..]
        invariant Reaches(start, all[..n], v2, Contents(), None)
        invariant forall i :: 0 <= i < n ==> !all[i].TooLate?
        decreases |arrivals|
      {
        ArrivalReaches(start, all, n, v2, Contents());
        var late;
        f, late := Next(v2);
        n := n + 1;
        if late || f.Some? { return f, all[..n]; }
      }
      return None, all[..n];
    }

    /** One arrival. */
    method Next(v2: bool) returns (f: Option<Frame>, late: bool)
      requires arrivals != []
      modifies this
      ensures arrivals == old(arrivals)[1..] && late == old(arrivals)[0].TooLate?
      ensures (Contents(), f) == Arrive(old(Contents()), old(arrivals)[0], v2)
    {
      var a := arrivals[0];
      arrivals := arrivals[1..];
      f, late := None, a.TooLate?;
      if a.Came? { f := Take(a.b, v2); }
    }

    /**
     `read_line` called again and again until nothing is left to arrive. However often and
     wherever the calls time out, the lines are those of the bytes read at once.
     */
    method ReadToTheEnd(v2: bool) returns (frames: seq<Frame>)
      modifies this
      ensures arrivals == []
      ensures ReadAll(old(Contents()), Bytes(old(arrivals)), v2) == (Contents(), frames)
      ensures v2 && old(Contents()) == EMPTY ==> frames == V2All(V2_RESET, Bytes(old(arrivals))).1
      decreases |arrivals|
    {
      if arrivals == [] { return []; }
      ghost var start, all := Contents(), arrivals;
      var f, more := ReadLine(v2);
      ghost var between, rest := Contents(), arrivals;
      var later := ReadToTheEnd(v2);
      frames := Optional(f) + later;
      PiecesJoin(start, more, between, f, rest, Contents(), later, v2);
      V2FramersAgree(Bytes(all));
    }
  }

  /** What the first call took and what the later calls took, read one after the other. */
  lemma PiecesJoin(
    start: Reader, taken: seq<Arrival>, between: Reader, f: Option<Frame>,
    rest: seq<Arrival>, end: Reader, frames: seq<Frame>, v2: bool)
    requires Reaches(start, taken, v2, between, f) && ReadAll(between, Bytes(rest), v2) == (end, frames)
    ensures ReadAll(start, Bytes(taken + rest), v2) == (end, Optional(f) + frames)
  {
    BytesJoin(taken, rest);
    ReadAllJoins(start, Bytes(taken), Bytes(rest), v2);
  }

  function Front(b: seq<Byte>): seq<Byte>
    requires b != []
  {
    b[..|b| - 1]
  }

  lemma FrontAndLast(a: seq<Byte>, b: seq<Byte>)
    requires b != []
    ensures Front(b) + [b[|b| - 1]] == b && a + Front(b) + [b[|b| - 1]] == a + b
  {
  }

  lemma Regroup(a: seq<Frame>, b: seq<Frame>, c: seq<Frame>)
    ensures (a + b) + c == a + (b + c) && a + [] == a
  {
  }

  lemma ReadAllJoinsMore(r: Reader, a: seq<Byte>, b: seq<Byte>, last: Byte, v2: bool)
    requires ReadAll(r, a + b, v2).0 == ReadAll(ReadAll(r, a, v2).0, b, v2).0
    requires ReadAll(r, a + b, v2).1 == ReadAll(r, a, v2).1 + ReadAll(ReadAll(r, a, v2).0, b, v2).1
    ensures ReadAll(r, a + b + [last], v2).0 == ReadAll(ReadAll(r, a, v2).0, b + [last], v2).0
    ensures ReadAll(r, a + b + [last], v2).1 == ReadAll(r, a, v2).1 + ReadAll(ReadAll(r, a, v2).0, b + [last], v2).1
  {
    var s := ReadAll(r, a, v2).0;
    ReadMore(r, a + b, last, v2);
    ReadMore(s, b, last, v2);
    Regroup(ReadAll(r, a, v2).1, ReadAll(s, b, v2).1, Optional(ReadByte(ReadAll(s, b, v2).0, last, v2).1));
  }

  /** Reading in pieces, wherever the timeouts cut, gives the same lines as reading at once. */
  lemma {:induction false} ReadAllJoins(r: Reader, a: seq<Byte>, b: seq<Byte>, v2: bool)
    ensures ReadAll(r, a + b, v2).0 == ReadAll(ReadAll(r, a, v2).0, b, v2).0
    ensures ReadAll(r, a + b, v2).1 == ReadAll(r, a, v2).1 + ReadAll(ReadAll(r, a, v2).0, b, v2).1
  {
    if b == [] {
      assert a + b == a;
    } else {
      ReadAllJoins(r, a, Front(b), v2);
      ReadAllJoinsMore(r, a, Front(b), b[|b| - 1], v2);
      FrontAndLast(a, b);
    }
  }

  // ---------- the firmware's v2 parser ----------

  datatype V2State = V2State(buffer: seq<Byte>, discarded: Option<Frame>, pendingCr: bool)

  const V2_RESET := V2State([], None, false)

  /** One byte; after a ready frame the caller resets the parser. */
  function V2Consume(p: V2State, b: Byte): (V2State, Option<Frame>) {
    if p.discarded.Some? then if b == LF then (V2_RESET, p.discarded) else (p, None)
    else if b == LF then (p.(pendingCr := false), Some(Accepted(p.buffer)))
    else if p.pendingCr then (p.(discarded := Some(Invalid), pendingCr := false), None)
    else if b == CR then (p.(pendingCr := true), None)
    else if !Printable(b) then (p.(discarded := Some(Invalid), pendingCr := false), None)
    else if |p.buffer| == V2_LIMIT then (p.(discarded := Some(Overflow), pendingCr := false), None)
    else (p.(buffer := p.buffer + [b]), None)
  }

  class V2FrameParser {
    const buffer: array<Byte>
    var length: nat
    var discarded: Option<Frame>
    var pendingCr: bool

    ghost predicate Valid()
      reads this
    {
      buffer.Length == V2_LIMIT + 1 && length <= V2_LIMIT
    }

    function Contents(): V2State
      reads this, buffer
      requires Valid()
    {
      V2State(buffer[..length], discarded, pendingCr)
    }

    constructor ()
      ensures Valid() && Contents() == V2_RESET && fresh(buffer)
    {
      buffer := new Byte[V2_LIMIT + 1](_ => NUL);
      length, discarded, pendingCr := 0, None, false;
    }

    method Reset()
      requires Valid()
      modifies this, buffer
      ensures Valid() && Contents() == V2_RESET
    {
      buffer[0] := NUL;
      length, discarded, pendingCr := 0, None, false;
    }

    method Consume(b: Byte) returns (f: Option<Frame>)
      requires Valid()
      modifies this, buffer
      ensures Valid() && (Contents(), f) == V2Consume(old(Contents()), b)
    {
      if discarded.Some? {
        if b == LF {
          f := discarded;
          Reset();
          return;
        }
        return None;
      }
      if b == LF {
        pendingCr := false;
        buffer[length] := NUL;
        return Some(Accepted(buffer[..length]));
      }
      if pendingCr {
        discarded, pendingCr := Some(Invalid), false;
        return None;
      }
      if b == CR {
        pendingCr := true;
        return None;
      }
      if !Printable(b) {
        discarded, pendingCr := Some(Invalid), false;
        return None;
      }
      if length == V2_LIMIT {
        discarded, pendingCr := Some(Overflow), false;
        return None;
      }
      ghost var before := buffer[..length];
      buffer[length] := b;
      length := length + 1;
      assert buffer[..length] == before + [b];
      buffer[length] := NUL;
      return None;
    }
  }

  /** The parser with its caller, which resets it after every ready frame. */
  function V2Byte(p: V2State, b: Byte): (V2State, Option<Frame>) {
    var (q, f) := V2Consume(p, b);
    (if f.Some? && f.value.Accepted? then V2_RESET else q, f)
  }

  function V2All(p: V2State, bytes: seq<Byte>): (V2State, seq<Frame>) {
    if bytes == [] then (p, [])
    else
      var n := |bytes| - 1;
      var (q, frames) := V2All(p, bytes[..n]);
      var (s, f) := V2Byte(q, bytes[n]);
      (s, frames + Optional(f))
  }

  /** The two v2 framers hold the same partial line. */
  predicate Alike(r: Reader, p: V2State) {
    && r.discarded == p.discarded
    && (r.discarded.None? ==>
          && r.line == p.buffer + (if p.pendingCr then [CR] else [])
          && |p.buffer| <= V2_LIMIT && forall i :: 0 <= i < |p.buffer| ==> Printable(p.buffer[i]))
  }

  lemma AlikeStep(r: Reader, p: V2State, b: Byte)
    requires Alike(r, p)
    ensures Alike(ReadByte(r, b, true).0, V2Byte(p, b).0) && ReadByte(r, b, true).1 == V2Byte(p, b).1
  {
    if r.discarded.None? {
      if p.pendingCr {
        assert r.line[|r.line| - 1] == CR && r.line[..|r.line| - 1] == p.buffer;
      } else {
        assert r.line == p.buffer;
        assert r.line != [] ==> Printable(r.line[|r.line| - 1]);
      }
      assert DropCr(r.line) == p.buffer;
      assert forall i :: 0 <= i < |p.buffer| ==> Printable(p.buffer[i]) && p.buffer[i] < 128;
    }
  }

  lemma {:induction false} AlikeAll(r: Reader, p: V2State, bytes: seq<Byte>)
    requires Alike(r, p)
    ensures Alike(ReadAll(r, bytes, true).0, V2All(p, bytes).0) && ReadAll(r, bytes, true).1 == V2All(p, bytes).1
  {
    if bytes != [] {
      var n := |bytes| - 1;
      AlikeAll(r, p, bytes[..n]);
      AlikeStep(ReadAll(r, bytes[..n], true).0, V2All(p, bytes[..n]).0, bytes[n]);
    }
  }

  /** On every byte stream the host and the firmware accept the same v2 frames and reject the others alike. */
  lemma V2FramersAgree(bytes: seq<Byte>)
    ensures ReadAll(EMPTY, bytes, true).1 == V2All(V2_RESET, bytes).1
  {
    AlikeAll(EMPTY, V2_RESET, bytes);
  }

  // ---------- the firmware's v1 parser ----------

  const COMMAND_LIMIT: nat := 40

  datatype V1State = V1State(buffer: seq<Byte>, overflowed: bool, invalid: bool, pendingCr: bool)

  const V1_RESET := V1State([], false, false, false)

  function Append(p: V1State, b: Byte): V1State {
    if |p.buffer| == COMMAND_LIMIT then p.(overflowed := true) else p.(buffer := p.buffer + [b])
  }

  function V1Consume(p: V1State, b: Byte): (V1State, Option<Frame>) {
    if p.overflowed then if b == LF then (V1_RESET, Some(Overflow)) else (p, None)
    else if p.invalid then if b == LF then (V1_RESET, Some(Invalid)) else (p, None)
    else if b == LF then (p.(pendingCr := false), Some(Accepted(p.buffer)))
    else
      var q := if p.pendingCr then Append(p, CR).(pendingCr := false) else p;
      if q.overflowed then (q, None)
      else if b == CR then (q.(pendingCr := true), None)
      else if b == NUL then (q.(invalid := true), None)
      else (Append(q, b), None)
  }

  class CommandParser {
    const buffer: array<Byte>
    var length: nat
    var overflowed: bool
    var invalid: bool
    var pendingCr: bool

    ghost predicate Valid()
      reads this
    {
      buffer.Length == COMMAND_LIMIT + 1 && length <= COMMAND_LIMIT
    }

    function Contents(): V1State
      reads this, buffer
      requires Valid()
    {
      V1State(buffer[..length], overflowed, invalid, pendingCr)
    }

    constructor ()
      ensures Valid() && Contents() == V1_RESET && fresh(buffer)
    {
      buffer := new Byte[COMMAND_LIMIT + 1](_ => NUL);
      length, overflowed, invalid, pendingCr := 0, false, false, false;
    }

    method Reset()
      requires Valid()
      modifies this, buffer
      ensures Valid() && Contents() == V1_RESET
    {
      buffer[0] := NUL;
      length, overflowed, invalid, pendingCr := 0, false, false, false;
    }

    method Put(b: Byte)
      requires Valid()
      modifies this`length, this`overflowed, buffer
      ensures Valid() && Contents() == Append(old(Contents()), b)
    {
      if length == COMMAND_LIMIT {
        overflowed := true;
        return;
      }
      ghost var before := buffer[..length];
      buffer[length] := b;
      length := length + 1;
      assert buffer[..length] == before + [b];
      buffer[length] := NUL;
    }

    method Consume(b: Byte) returns (f: Option<Frame>)
      requires Valid()
      modifies this, buffer
      ensures Valid() && (Contents(), f) == V1Consume(old(Contents()), b)
    {
      if overflowed {
        if b == LF { Reset(); return Some(Overflow); }
        return None;
      }
      if invalid {
        if b == LF { Reset(); return Some(Invalid); }
        return None;
      }
      if b == LF {
        pendingCr := false;
        buffer[length] := NUL;
        return Some(Accepted(buffer[..length]));
      }
      if pendingCr {
        Put(CR);
        pendingCr := false;
        if overflowed { return None; }
      }
      if b == CR {
        pendingCr := true;
      } else if b == NUL {
        invalid := true;
      } else {
        Put(b);
      }
      return None;
    }
  }

  /** Where the first NUL of a line is, or its length. */
  function FirstNul(line: seq<Byte>): (k: nat)
    ensures k <= |line| && (k < |line| ==> line[k] == NUL) && forall i :: 0 <= i < k ==> line[i] != NUL
  {
    if line == [] || line[0] == NUL then 0 else 1 + FirstNul(line[1..])
  }

  /** The specification of one v1 line: drop one trailing CR, then the first of NUL or byte 41 decides. */
  function V1Line(line: seq<Byte>): Frame {
    Judge(DropCr(line))
  }

  function Judge(text: seq<Byte>): Frame {
    if FirstNul(text) < |text| && FirstNul(text) <= COMMAND_LIMIT then Invalid
    else if |text| > COMMAND_LIMIT then Overflow
    else Accepted(text)
  }

  function V1Byte(p: V1State, b: Byte): (V1State, Option<Frame>) {
    var (q, f) := V1Consume(p, b);
    (if f.Some? && f.value.Accepted? then V1_RESET else q, f)
  }

  function V1All(p: V1State, bytes: seq<Byte>): (V1State, seq<Frame>) {
    if bytes == [] then (p, [])
    else
      var n := |bytes| - 1;
      var (q, frames) := V1All(p, bytes[..n]);
      var (s, f) := V1Byte(q, bytes[n]);
      (s, frames + Optional(f))
  }

  predicate OneLine(line: seq<Byte>) {
    forall i :: 0 <= i < |line| ==> line[i] != LF
  }

  /** What the parser knows after the bytes of a line so far. */
  predicate Tracks(p: V1State, line: seq<Byte>) {
    match V1Line(line)
    case Invalid => p.invalid && !p.overflowed
    case Overflow => p.overflowed
    case Accepted(text) => p == V1State(text, false, false, line != [] && line[|line| - 1] == CR)
  }

  lemma FirstNulAppend(line: seq<Byte>, b: Byte)
    ensures FirstNul(line + [b]) ==
            if FirstNul(line) < |line| then FirstNul(line) else if b == NUL then |line| else |line| + 1
  {
    NulIsFirst(line + [b], if FirstNul(line) < |line| then FirstNul(line) else if b == NUL then |line| else |line| + 1);
  }

  lemma NulIsFirst(line: seq<Byte>, m: nat)
    requires m <= |line| && (m < |line| ==> line[m] == NUL) && forall i :: 0 <= i < m ==> line[i] != NUL
    ensures FirstNul(line) == m
  {
    var k := FirstNul(line);
    assert !(k < m) && !(m < k);
  }

  /** One more byte decides only what was still open. */
  lemma JudgeMore(text: seq<Byte>, b: Byte)
    ensures Judge(text + [b]) ==
            if !Judge(text).Accepted? then Judge(text)
            else if b == NUL then Invalid
            else if |text| == COMMAND_LIMIT then Overflow
            else Accepted(text + [b])
  {
    FirstNulAppend(text, b);
  }

  lemma DropMore(line: seq<Byte>, b: Byte)
    ensures DropCr(line + [b]) == if b == CR then line else line + [b]
  {
    assert (line + [b])[..|line|] == line;
  }

  /** No CR is pending: the byte is judged behind the bytes so far. */
  lemma TracksPlain(p: V1State, line: seq<Byte>, b: Byte)
    requires Tracks(p, line) && b != LF && DropCr(line) == line
    ensures V1Byte(p, b).1 == None && Tracks(V1Byte(p, b).0, line + [b])
  {
    DropMore(line, b);
    JudgeMore(line, b);
    match Judge(line)
    case Invalid =>
    case Overflow =>
    case Accepted(_) =>
  }

  /** A CR is pending: it turns out to be text before the byte is judged. */
  lemma TracksPending(p: V1State, text: seq<Byte>, b: Byte)
    requires Tracks(p, text + [CR]) && b != LF
    ensures V1Byte(p, b).1 == None && Tracks(V1Byte(p, b).0, text + [CR] + [b])
  {
    DropMore(text, CR);
    DropMore(text + [CR], b);
    JudgeMore(text, CR);
    JudgeMore(text + [CR], b);
    match Judge(text)
    case Invalid =>
    case Overflow =>
    case Accepted(_) =>
  }

  lemma TracksStep(p: V1State, line: seq<Byte>, b: Byte)
    requires Tracks(p, line) && b != LF
    ensures V1Byte(p, b).1 == None && Tracks(V1Byte(p, b).0, line + [b])
  {
    if DropCr(line) == line {
      TracksPlain(p, line, b);
    } else {
      assert line == DropCr(line) + [CR];
      TracksPending(p, DropCr(line), b);
    }
  }

  lemma TracksMore(line: seq<Byte>, b: Byte)
    requires V1All(V1_RESET, line).1 == [] && Tracks(V1All(V1_RESET, line).0, line) && b != LF
    ensures V1All(V1_RESET, line + [b]).1 == [] && Tracks(V1All(V1_RESET, line + [b]).0, line + [b])
  {
    TracksStep(V1All(V1_RESET, line).0, line, b);
    V1More(V1_RESET, line, b);
  }

  /** A line, byte by byte: the parser says nothing until LF and then exactly what the specification says. */
  lemma {:induction false} TracksLine(line: seq<Byte>)
    requires OneLine(line)
    ensures V1All(V1_RESET, line).1 == [] && Tracks(V1All(V1_RESET, line).0, line)
  {
    if line != [] {
      TracksLine(Front(line));
      TracksMore(Front(line), line[|line| - 1]);
      FrontAndLast([], line);
    }
  }

  lemma LineEnds(p: V1State, line: seq<Byte>)
    requires Tracks(p, line)
    ensures V1Byte(p, LF) == (V1_RESET, Some(V1Line(line)))
  {
  }

  // ---------- a whole stream ----------

  lemma V1More(p: V1State, bytes: seq<Byte>, b: Byte)
    ensures V1All(p, bytes + [b]).0 == V1Byte(V1All(p, bytes).0, b).0
    ensures V1All(p, bytes + [b]).1 == V1All(p, bytes).1 + Optional(V1Byte(V1All(p, bytes).0, b).1)
  {
    assert (bytes + [b])[..|bytes|] == bytes;
  }

  lemma V1AllJoinsMore(p: V1State, a: seq<Byte>, b: seq<Byte>, last: Byte)
    requires V1All(p, a + b).0 == V1All(V1All(p, a).0, b).0
    requires V1All(p, a + b).1 == V1All(p, a).1 + V1All(V1All(p, a).0, b).1
    ensures V1All(p, a + b + [last]).0 == V1All(V1All(p, a).0, b + [last]).0
    ensures V1All(p, a + b + [last]).1 == V1All(p, a).1 + V1All(V1All(p, a).0, b + [last]).1
  {
    var q := V1All(p, a).0;
    V1More(p, a + b, last);
    V1More(q, b, last);
    Regroup(V1All(p, a).1, V1All(q, b).1, Optional(V1Byte(V1All(q, b).0, last).1));
  }

  lemma {:induction false} V1AllJoins(p: V1State, a: seq<Byte>, b: seq<Byte>)
    ensures V1All(p, a + b).0 == V1All(V1All(p, a).0, b).0
    ensures V1All(p, a + b).1 == V1All(p, a).1 + V1All(V1All(p, a).0, b).1
  {
    if b == [] {
      assert a + b == a;
    } else {
      V1AllJoins(p, a, Front(b));
      V1AllJoinsMore(p, a, Front(b), b[|b| - 1]);
      FrontAndLast(a, b);
    }
  }

  /** The stream split at LF, each line read by the specification; an unfinished last line yields nothing. */
  function V1Spec(lines: seq<seq<Byte>>): (seq<Byte>, seq<Frame>) {
    if lines == [] then ([], [])
    else
      var n := |lines| - 1;
      var (bytes, frames) := V1Spec(lines[..n]);
      (bytes + lines[n] + [LF], frames + [V1Line(lines[n])])
  }

  /** `CommandParser` equals its specification on every stream: complete lines, then a rest without LF. */
  lemma {:induction false} CommandParserMeetsSpec(lines: seq<seq<Byte>>, rest: seq<Byte>)
    requires OneLine(rest) && forall i :: 0 <= i < |lines| ==> OneLine(lines[i])
    ensures V1All(V1_RESET, V1Spec(lines).0 + rest).1 == V1Spec(lines).1
  {
    LinesMeetSpec(lines);
    V1AllJoins(V1_RESET, V1Spec(lines).0, rest);
    TracksLine(rest);
  }

  lemma {:induction false} LinesMeetSpec(lines: seq<seq<Byte>>)
    requires forall i :: 0 <= i < |lines| ==> OneLine(lines[i])
    ensures V1All(V1_RESET, V1Spec(lines).0) == (V1_RESET, V1Spec(lines).1)
  {
    if lines != [] {
      var n := |lines| - 1;
      var (bytes, frames) := V1Spec(lines[..n]);
      LinesMeetSpec(lines[..n]);
      TracksLine(lines[n]);
      V1AllJoins(V1_RESET, bytes, lines[n]);
      LineEnds(V1All(V1_RESET, lines[n]).0, lines[n]);
      V1More(V1_RESET, bytes + lines[n], LF);
      assert frames + [] == frames;
    }
  }

  lemma LineCompletes(lines: seq<seq<Byte>>, rest: seq<Byte>)
    ensures V1Spec(lines + [rest]).0 == V1Spec(lines).0 + rest + [LF]
  {
    assert (lines + [rest])[..|lines|] == lines;
  }

  /** One more byte completes the rest or makes it longer. */
  lemma SplitsFurther(bytes: seq<Byte>, lines: seq<seq<Byte>>, rest: seq<Byte>, b: Byte)
    returns (more: seq<seq<Byte>>, left: seq<Byte>)
    requires OneLine(rest) && (forall i :: 0 <= i < |lines| ==> OneLine(lines[i])) && bytes == V1Spec(lines).0 + rest
    ensures OneLine(left) && (forall i :: 0 <= i < |more| ==> OneLine(more[i])) && bytes + [b] == V1Spec(more).0 + left
  {
    if b == LF {
      LineCompletes(lines, rest);
      more, left := lines + [rest], [];
      assert V1Spec(more).0 + [] == V1Spec(more).0;
    } else {
      more, left := lines, rest + [b];
      assert bytes + [b] == V1Spec(lines).0 + (rest + [b]);
    }
  }

  /** Every byte stream is complete lines and a rest. */
  lemma {:induction false} EveryStreamSplits(bytes: seq<Byte>) returns (lines: seq<seq<Byte>>, rest: seq<Byte>)
    ensures OneLine(rest) && (forall i :: 0 <= i < |lines| ==> OneLine(lines[i])) && bytes == V1Spec(lines).0 + rest
  {
    if bytes == [] {
      lines, rest := [], [];
    } else {
      lines, rest := EveryStreamSplits(Front(bytes));
      lines, rest := SplitsFurther(Front(bytes), lines, rest, bytes[|bytes| - 1]);
      FrontAndLast([], bytes);
    }
  }

  // ---------- the raw stop detector ----------

  const STOP: seq<Byte> := [115, 116, 111, 112]

  /** `RawStopLineDetector`: states 0 to 4 count matched letters, 5 follows `stop` CR, 6 waits for LF. */
  class RawStopLineDetector {
    var state: nat

    constructor ()
      ensures state == 0
    {
      state := 0;
    }

    method Consume(b: Byte) returns (exact: bool)
      modifies this
      ensures exact == (b == LF && (old(state) == 4 || old(state) == 5))
      ensures state == if b == LF then 0 else NextState(old(state), b)
    {
      if state == 5 {
        state := 0;
        return b == LF;
      }
      if b == LF {
        exact := state == 4;
        state := 0;
        return;
      }
      if state == 4 && b == CR {
        state := 5;
        return false;
      }
      state := if state < 4 && b == STOP[state] then state + 1 else 6;
      return false;
    }
  }

  function NextState(state: nat, b: Byte): nat {
    if state == 5 then 0
    else if state == 4 && b == CR then 5
    else if state < 4 && b == STOP[state] then state + 1
    else 6
  }

  /** The state after the bytes of a line. */
  function Detect(state: nat, line: seq<Byte>): nat
    decreases |line|
  {
    if line == [] then state else Detect(NextState(state, line[0]), line[1..])
  }

  /** The lines the detector fires on: `stop`, optional CR, behind any number of `stop` CR and one more byte. */
  predicate Fires(line: seq<Byte>)
    decreases |line|
  {
    || line == STOP
    || line == STOP + [CR]
    || (|line| >= 6 && line[..5] == STOP + [CR] && Fires(line[6..]))
  }

  lemma {:induction false} DeadStays(line: seq<Byte>)
    ensures Detect(6, line) == 6
    decreases |line|
  {
    if line != [] { DeadStays(line[1..]); }
  }

  /** Matching the rest of `stop` from a state that has seen its first letters. */
  lemma {:induction false} MatchRest(state: nat, line: seq<Byte>)
    requires state <= 4
    ensures line == STOP[state..] ==> Detect(state, line) == 4
    ensures line == STOP[state..] + [CR] ==> Detect(state, line) == 5
    ensures |line| >= 6 - state && line[..5 - state] == STOP[state..] + [CR]
            ==> Detect(state, line) == Detect(0, line[6 - state..])
    ensures Detect(state, line) == 4 || Detect(state, line) == 5 ==>
              || line == STOP[state..]
              || line == STOP[state..] + [CR]
              || (|line| >= 6 - state && line[..5 - state] == STOP[state..] + [CR])
    decreases 4 - state
  {
    if line != [] {
      DeadStays(line[1..]);
      if state < 4 {
        if line[0] == STOP[state] { MatchRest(state + 1, line[1..]); }
        MatchShift(state, line);
      } else if line[0] == CR {
        if |line| > 1 {
          assert Detect(4, line) == Detect(0, line[1..][1..]);
          assert line[2..] == line[1..][1..];
        }
      }
    }
  }

  lemma MatchShift(state: nat, line: seq<Byte>)
    requires state < 4 && line != []
    ensures line == STOP[state..] <==> line[0] == STOP[state] && line[1..] == STOP[state + 1..]
    ensures line == STOP[state..] + [CR] <==> line[0] == STOP[state] && line[1..] == STOP[state + 1..] + [CR]
    ensures |line| >= 6 - state ==>
              (line[..5 - state] == STOP[state..] + [CR] <==>
                && line[0] == STOP[state]
                && line[1..][..4 - state] == STOP[state + 1..] + [CR])
    ensures |line| >= 6 - state ==> line[6 - state..] == line[1..][5 - state..]
  {
    assert STOP[state..] == [STOP[state]] + STOP[state + 1..];
    assert line == [line[0]] + line[1..];
    if |line| >= 6 - state {
      var head, tail := line[1..][..4 - state], STOP[state + 1..] + [CR];
      assert line[..5 - state] == [line[0]] + head && STOP[state..] + [CR] == [STOP[state]] + tail;
      SameCons(line[0], head, STOP[state], tail);
    }
  }

  lemma SameCons(a: Byte, x: seq<Byte>, b: Byte, y: seq<Byte>)
    ensures [a] + x == [b] + y <==> a == b && x == y
  {
    if [a] + x == [b] + y {
      assert ([a] + x)[0] == a && ([a] + x)[1..] == x && ([b] + y)[0] == b && ([b] + y)[1..] == y;
    }
  }

  /** At the end of every line the detector fires exactly on the lines of `Fires`. */
  lemma {:induction false} DetectorFires(line: seq<Byte>)
    ensures Detect(0, line) == 4 || Detect(0, line) == 5 <==> Fires(line)
    decreases |line|
  {
    MatchRest(0, line);
    assert STOP[0..] == STOP;
    if |line| >= 6 && line[..5] == STOP + [CR] { DetectorFires(line[6..]); }
  }

  /** It never misses an exact stop line, and it also fires on `stop` CR `X` `stop`. */
  lemma StopIsNeverMissed()
    ensures Fires(STOP) && Fires(STOP + [CR])
    ensures Fires(STOP + [CR, 88] + STOP)
  {
    var line := STOP + [CR, 88] + STOP;
    assert line[..5] == STOP + [CR] && line[6..] == STOP;
  }
}
