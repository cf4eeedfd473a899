/**
 CRC-16/CCITT-FALSE, computed once on the host and once in the firmware, its hexadecimal
 suffix, and the CRC boundary of a frame. Text is a sequence of bytes.
 */
module Crc {
  import opened Common

  type byte = bv8

  // ---------- the specification ----------

  /** One bit of the polynomial division by x^16 + x^12 + x^5 + 1. */
  function Shift(c: bv16): bv16 {
    if c & 0x8000 != 0 then (c << 1) ^ 0x1021 else c << 1
  }

  function Shifts(c: bv16, n: nat): bv16 {
    if n == 0 then c else Shift(Shifts(c, n - 1))
  }

  const BITS: nat := 8

  function Xor(x: bv16, y: bv16): bv16 {
    x ^ y
  }

  /** A byte in the high half of a word. */
  function High(b: byte): bv16 {
    (b as bv16) << 8
  }

  function Update(c: bv16, b: byte): bv16 {
    Shifts(Xor(c, High(b)), BITS)
  }

  function Continue(c: bv16, data: seq<byte>): bv16 {
    if data == [] then c else Update(Continue(c, data[..|data| - 1]), data[|data| - 1])
  }

  function Checksum(data: seq<byte>): bv16 {
    Continue(0xFFFF, data)
  }

  // ---------- the two implementations ----------

  function Wide(c: bv16): bv32 {
    c as bv32
  }

  /** The inner loop of the host; its accumulator is unbounded and masked, and 32 bits hold every value. */
  function HostShift(c: bv32): bv32 {
    if c & 0x8000 != 0 then ((c << 1) ^ 0x1021) & 0xFFFF else (c << 1) & 0xFFFF
  }

  method HostMix(c: bv32, b: byte, ghost narrow: bv16) returns (r: bv32)
    requires c == Wide(narrow)
    ensures r == Wide(Xor(narrow, High(b)))
  {
    WideXor(narrow, b);
    r := c ^ ((b as bv32) << 8);
  }

  method HostUpdate(c: bv32, b: byte, ghost narrow: bv16) returns (r: bv32)
    requires c == Wide(narrow)
    ensures r == Wide(Update(narrow, b))
  {
    r := HostMix(c, b, narrow);
    ghost var start := Xor(narrow, High(b));
    for k := 0 to BITS
      invariant r == Wide(Shifts(start, k))
    {
      HostBit(Shifts(start, k));
      r := HostShift(r);
    }
  }

  lemma WideXor(c: bv16, b: byte)
    ensures Wide(c) ^ ((b as bv32) << 8) == Wide(Xor(c, High(b)))
  {
  }

  method HostChecksum(data: seq<byte>) returns (crc: bv32)
    ensures crc == Wide(Checksum(data))
  {
    crc := 0xFFFF;
    for i := 0 to |data|
      invariant crc == Wide(Continue(0xFFFF, data[..i]))
    {
      assert data[..i + 1][..i] == data[..i];
      crc := HostUpdate(crc, data[i], Continue(0xFFFF, data[..i]));
    }
    assert data[..|data|] == data;
  }

  lemma HostBit(c: bv16)
    ensures HostShift(Wide(c)) == Wide(Shift(c))
  {
    WideTop(c);
    if c & 0x8000 != 0 { WideSet(c); } else { WideClear(c); }
  }

  lemma WideTop(c: bv16)
    ensures Wide(c) & 0x8000 != 0 <==> c & 0x8000 != 0
  {
  }

  lemma WideSet(c: bv16)
    ensures ((Wide(c) << 1) ^ 0x1021) & 0xFFFF == Wide((c << 1) ^ 0x1021)
  {
  }

  lemma WideClear(c: bv16)
    ensures (Wide(c) << 1) & 0xFFFF == Wide(c << 1)
  {
  }

  /** The firmware's accumulator wraps at 16 bits. */
  method FirmwareShift(c: bv16) returns (r: bv16)
    ensures r == Shift(c)
  {
    if c & 0x8000 != 0 { r := (c << 1) ^ 0x1021; } else { r := c << 1; }
  }

  method FirmwareUpdateByte(crc: bv16, b: byte) returns (r: bv16)
    ensures r == Update(crc, b)
  {
    r := Xor(crc, High(b));
    ghost var start := r;
    for bit := 0 to BITS
      invariant r == Shifts(start, bit)
    {
      r := FirmwareShift(r);
    }
  }

  method FirmwareChecksum(bytes: array<byte>, length: nat) returns (crc: bv16)
    requires length <= bytes.Length
    ensures crc == Checksum(bytes[..length])
  {
    crc := 0xFFFF;
    for index := 0 to length
      invariant crc == Continue(0xFFFF, bytes[..index])
    {
      assert bytes[..index + 1][..index] == bytes[..index];
      crc := FirmwareUpdateByte(crc, bytes[index]);
    }
  }

  // ---------- a change is noticed ----------

  /** Undoing one shift: the low bit tells whether the polynomial was added. */
  function Unshift(d: bv16): bv16 {
    if d & 1 == 1 then ((d ^ 0x1021) >> 1) | 0x8000 else d >> 1
  }

  lemma UnshiftShift(c: bv16)
    ensures Unshift(Shift(c)) == c
  {
    if c & 0x8000 != 0 { TopSet(c); } else { TopClear(c); }
  }

  lemma TopSet(c: bv16)
    requires c & 0x8000 != 0
    ensures ((c << 1) ^ 0x1021) & 1 == 1 && ((((c << 1) ^ 0x1021) ^ 0x1021) >> 1) | 0x8000 == c
  {
  }

  lemma TopClear(c: bv16)
    requires c & 0x8000 == 0
    ensures (c << 1) & 1 == 0 && (c << 1) >> 1 == c
  {
  }

  function Unshifts(d: bv16, n: nat): bv16
    decreases n
  {
    if n == 0 then d else Unshifts(Unshift(d), n - 1)
  }

  lemma {:induction false} UnshiftsShifts(c: bv16, n: nat)
    ensures Unshifts(Shifts(c, n), n) == c
  {
    if n > 0 {
      UnshiftShift(Shifts(c, n - 1));
      UnshiftsShifts(c, n - 1);
    }
  }

  lemma ShiftsInjective(x: bv16, y: bv16)
    requires Shifts(x, BITS) == Shifts(y, BITS)
    ensures x == y
  {
    UnshiftsShifts(x, BITS);
    UnshiftsShifts(y, BITS);
  }

  lemma XorFacts(c: bv16, a: byte, d: bv16, b: byte)
    requires Xor(c, High(a)) == Xor(d, High(b))
    ensures a == b ==> c == d
    ensures c == d ==> a == b
  {
  }

  /** A step never merges two checksums, and never two bytes. */
  lemma UpdateInjective(c: bv16, a: byte, d: bv16, b: byte)
    requires Update(c, a) == Update(d, b)
    ensures a == b ==> c == d
    ensures c == d ==> a == b
  {
    ShiftsInjective(Xor(c, High(a)), Xor(d, High(b)));
    XorFacts(c, a, d, b);
  }

  lemma {:induction false} ContinueInjective(c: bv16, d: bv16, data: seq<byte>)
    requires Continue(c, data) == Continue(d, data)
    ensures c == d
  {
    if data != [] {
      var n := |data| - 1;
      UpdateInjective(Continue(c, data[..n]), data[n], Continue(d, data[..n]), data[n]);
      ContinueInjective(c, d, data[..n]);
    }
  }

  lemma {:induction false} ContinueJoins(c: bv16, a: seq<byte>, b: seq<byte>)
    ensures Continue(c, a + b) == Continue(Continue(c, a), b)
  {
    if b == [] {
      assert a + b == a;
    } else {
      var n := |b| - 1;
      assert (a + b)[..|a| + n] == a + b[..n];
      ContinueJoins(c, a, b[..n]);
    }
  }

  /** Changing one byte, anywhere in a body of any length, changes the checksum. */
  lemma OneByteChanges(front: seq<byte>, a: byte, b: byte, back: seq<byte>)
    requires a != b
    ensures Checksum(front + [a] + back) != Checksum(front + [b] + back)
  {
    var c := Continue(0xFFFF, front);
    ContinueJoins(0xFFFF, front + [a], back);
    ContinueJoins(0xFFFF, front + [b], back);
    assert (front + [a])[..|front|] == front && (front + [b])[..|front|] == front;
    if Checksum(front + [a] + back) == Checksum(front + [b] + back) {
      ContinueInjective(Update(c, a), Update(c, b), back);
      UpdateInjective(c, a, c, b);
    }
  }

  lemma ShiftLinear(p: bv16, q: bv16)
    ensures Shift(Xor(p, q)) == Xor(Shift(p), Shift(q))
  {
    if p & 0x8000 != 0 {
      if q & 0x8000 != 0 { BothSet(p, q); } else { FirstSet(p, q); }
    } else {
      if q & 0x8000 != 0 { SecondSet(p, q); } else { NoneSet(p, q); }
    }
  }

  lemma BothSet(p: bv16, q: bv16)
    requires p & 0x8000 != 0 && q & 0x8000 != 0
    ensures Shift(Xor(p, q)) == Xor(Shift(p), Shift(q))
  {
  }

  lemma FirstSet(p: bv16, q: bv16)
    requires p & 0x8000 != 0 && q & 0x8000 == 0
    ensures Shift(Xor(p, q)) == Xor(Shift(p), Shift(q))
  {
  }

  lemma SecondSet(p: bv16, q: bv16)
    requires p & 0x8000 == 0 && q & 0x8000 != 0
    ensures Shift(Xor(p, q)) == Xor(Shift(p), Shift(q))
  {
  }

  lemma NoneSet(p: bv16, q: bv16)
    requires p & 0x8000 == 0 && q & 0x8000 == 0
    ensures Shift(Xor(p, q)) == Xor(Shift(p), Shift(q))
  {
  }

  lemma {:induction false} ShiftsLinear(p: bv16, q: bv16, n: nat)
    ensures Shifts(Xor(p, q), n) == Xor(Shifts(p, n), Shifts(q, n))
  {
    if n > 0 {
      ShiftsLinear(p, q, n - 1);
      ShiftLinear(Shifts(p, n - 1), Shifts(q, n - 1));
    }
  }

  function Twice(x: bv16): bv16 {
    x << 1
  }

  function Up(d: bv16, n: nat): bv16 {
    if n == 0 then d else Twice(Up(d, n - 1))
  }

  /** While nothing is shifted out, a shift is a doubling. */
  lemma {:induction false} ShiftsAreUp(d: bv16, n: nat)
    requires forall k :: 0 <= k < n ==> TopFree(Up(d, k))
    ensures Shifts(d, n) == Up(d, n)
  {
    if n > 0 {
      ShiftsAreUp(d, n - 1);
      ShiftTwice(Up(d, n - 1));
    }
  }

  predicate TopFree(x: bv16) {
    x & 0x8000 == 0
  }

  lemma ShiftTwice(x: bv16)
    requires TopFree(x)
    ensures Shift(x) == Twice(x)
  {
  }

  lemma EightUp(d: bv16, n: nat)
    requires d & 0xFF00 == 0 && n == 8
    ensures forall k :: 0 <= k < n ==> TopFree(Up(d, k))
    ensures Up(d, n) == d << 8
  {
    assert Up(d, n - 8) == d && Up(d, n - 7) == d << 1 && Up(d, n - 6) == d << 2 && Up(d, n - 5) == d << 3;
    assert Up(d, n - 4) == d << 4 && Up(d, n - 3) == d << 5 && Up(d, n - 2) == d << 6 && Up(d, n - 1) == d << 7;
  }

  predicate LowClear(x: bv16) {
    x & 0xFF == 0
  }

  function Lower(x: bv16): bv16 {
    x >> 8
  }

  /** A word that fits the low byte moves up unchanged in eight shifts. */
  lemma MovesUp(e: bv16)
    requires LowClear(e)
    ensures Shifts(Lower(e), BITS) == e
  {
    LowerFits(e);
    EightUp(Lower(e), BITS);
    ShiftsAreUp(Lower(e), BITS);
  }

  lemma LowerFits(e: bv16)
    requires LowClear(e)
    ensures Lower(e) & 0xFF00 == 0 && Lower(e) << 8 == e
  {
  }

  lemma BothHalves(d: bv16, e: bv16)
    requires LowClear(d) && d == Lower(e)
    ensures d == 0
  {
  }

  lemma XorZero(p: bv16, q: bv16)
    requires Xor(p, q) == 0
    ensures p == q
  {
  }

  /** Two words with equal low bytes whose eight-fold shifts have equal low bytes are equal. */
  lemma ShiftsTell(p: bv16, q: bv16)
    requires LowClear(Xor(Shifts(p, BITS), Shifts(q, BITS))) && LowClear(Xor(p, q))
    ensures p == q
  {
    var d, e := Xor(p, q), Xor(Shifts(p, BITS), Shifts(q, BITS));
    ShiftsLinear(p, q, BITS);
    MovesUp(e);
    ShiftsInjective(d, Lower(e));
    BothHalves(d, e);
    XorZero(p, q);
  }

  lemma LowBytesAgree(x: bv16, b: byte, y: bv16, b': byte)
    requires Xor(x, High(b)) == Xor(y, High(b'))
    ensures LowClear(Xor(x, y))
  {
  }

  lemma SameLowByte(c: bv16, a: byte, a': byte)
    ensures LowClear(Xor(Xor(c, High(a)), Xor(c, High(a'))))
  {
  }

  /** From one checksum, two bytes in a row determine the next. */
  lemma PairInjective(c: bv16, a: byte, b: byte, a': byte, b': byte)
    requires Update(Update(c, a), b) == Update(Update(c, a'), b')
    ensures a == a' && b == b'
  {
    var x, y := Update(c, a), Update(c, a');
    ShiftsInjective(Xor(x, High(b)), Xor(y, High(b')));
    LowBytesAgree(x, b, y, b');
    SameLowByte(c, a, a');
    ShiftsTell(Xor(c, High(a)), Xor(c, High(a')));
    XorFacts(c, a, c, a');
    XorFacts(x, b, y, b');
  }

  /** Changing two adjacent bytes, anywhere in a body of any length, changes the checksum. */
  lemma TwoBytesChange(front: seq<byte>, a: byte, b: byte, a': byte, b': byte, back: seq<byte>)
    requires a != a' || b != b'
    ensures Checksum(front + [a, b] + back) != Checksum(front + [a', b'] + back)
  {
    var c := Continue(0xFFFF, front);
    ContinueJoins(0xFFFF, front + [a, b], back);
    ContinueJoins(0xFFFF, front + [a', b'], back);
    PairContinues(front, a, b);
    PairContinues(front, a', b');
    if Checksum(front + [a, b] + back) == Checksum(front + [a', b'] + back) {
      ContinueInjective(Update(Update(c, a), b), Update(Update(c, a'), b'), back);
      PairInjective(c, a, b, a', b');
    }
  }

  lemma PairContinues(front: seq<byte>, a: byte, b: byte)
    ensures Continue(0xFFFF, front + [a, b]) == Update(Update(Continue(0xFFFF, front), a), b)
  {
    var all := front + [a, b];
    assert all[..|front| + 1] == front + [a] && (front + [a])[..|front|] == front;
  }

  // ---------- hexadecimal ----------

  const STAR: byte := 0x2A

  /** The four-bit groups of a word, most significant first. */
  function Nibble(c: bv16, k: nat): bv16
    requires k < 4
  {
    if k == 0 then (c >> 12) & 0xF else if k == 1 then (c >> 8) & 0xF else if k == 2 then (c >> 4) & 0xF else c & 0xF
  }

  function HexDigit(n: bv16): (d: byte)
    requires n & 0xFFF0 == 0
    ensures d != STAR
  {
    if n < 10 then 0x30 + (n as bv8) else 0x37 + (n as bv8)
  }

  function HexValue(d: byte): (r: Option<bv16>)
    ensures r.Some? ==> r.value & 0xFFF0 == 0
  {
    if 0x30 <= d <= 0x39 then Some((d - 0x30) as bv16)
    else if 0x41 <= d <= 0x46 then Some((d - 0x37) as bv16)
    else None
  }

  lemma HexInverse(n: bv16)
    requires n & 0xFFF0 == 0
    ensures HexValue(HexDigit(n)) == Some(n)
  {
  }

  lemma HexOnto(d: byte)
    requires HexValue(d).Some?
    ensures HexDigit(HexValue(d).value) == d
  {
  }

  function FormatCrc(c: bv16): (t: seq<byte>)
    ensures |t| == 4 && forall i :: 0 <= i < 4 ==> t[i] != STAR
  {
    NibblesFit(c);
    [HexDigit(Nibble(c, 0)), HexDigit(Nibble(c, 1)), HexDigit(Nibble(c, 2)), HexDigit(Nibble(c, 3))]
  }

  lemma NibblesFit(c: bv16)
    ensures forall k :: 0 <= k < 4 ==> Nibble(c, k) & 0xFFF0 == 0
  {
  }

  function Join(a: bv16, n: bv16): bv16 {
    (a << 4) | n
  }

  predicate IsHex(t: seq<byte>) {
    |t| == 4 && forall i :: 0 <= i < 4 ==> HexValue(t[i]).Some?
  }

  /** The firmware's reader: exactly four digits, most significant first. */
  function ParseCrc(t: seq<byte>): Option<bv16> {
    if IsHex(t) then Some(Joined(t, 4)) else None
  }

  method ReadCrc(t: seq<byte>) returns (r: Option<bv16>)
    ensures r == ParseCrc(t)
  {
    if |t| != 4 { return None; }
    var parsed: bv16 := 0;
    var i := 0;
    while i < 4
      invariant 0 <= i <= 4
      invariant forall k :: 0 <= k < i ==> HexValue(t[k]).Some?
      invariant parsed == Joined(t, i)
    {
      var nibble := HexValue(t[i]);
      if nibble.None? { return None; }
      parsed := Join(parsed, nibble.value);
      i := i + 1;
    }
    return Some(parsed);
  }

  function Joined(t: seq<byte>, n: nat): bv16
    requires n <= |t| && forall k :: 0 <= k < n ==> HexValue(t[k]).Some?
  {
    if n == 0 then 0 else Join(Joined(t, n - 1), HexValue(t[n - 1]).value)
  }

  lemma JoinedFour(t: seq<byte>)
    requires IsHex(t)
    ensures ParseCrc(t) ==
            Some(Join(Join(Join(Join(0, HexValue(t[0]).value), HexValue(t[1]).value),
                           HexValue(t[2]).value), HexValue(t[3]).value))
  {
    assert Joined(t, 0) == 0 && Joined(t, 1) == Join(0, HexValue(t[0]).value);
    assert Joined(t, 2) == Join(Joined(t, 1), HexValue(t[1]).value);
    assert Joined(t, 3) == Join(Joined(t, 2), HexValue(t[2]).value);
  }

  lemma NibblesJoin(c: bv16)
    ensures Join(Join(Join(Join(0, Nibble(c, 0)), Nibble(c, 1)), Nibble(c, 2)), Nibble(c, 3)) == c
  {
  }

  lemma NibblesOfJoin(p: bv16, q: bv16, r: bv16, s: bv16)
    requires p & 0xFFF0 == 0 && q & 0xFFF0 == 0 && r & 0xFFF0 == 0 && s & 0xFFF0 == 0
    ensures var c := Join(Join(Join(Join(0, p), q), r), s);
            Nibble(c, 0) == p && Nibble(c, 1) == q && Nibble(c, 2) == r && Nibble(c, 3) == s
  {
  }

  /** Reading what was formatted gives the checksum back. */
  lemma FormatParses(c: bv16)
    ensures ParseCrc(FormatCrc(c)) == Some(c)
  {
    NibblesFit(c);
    HexInverse(Nibble(c, 0));
    HexInverse(Nibble(c, 1));
    HexInverse(Nibble(c, 2));
    HexInverse(Nibble(c, 3));
    JoinedFour(FormatCrc(c));
    NibblesJoin(c);
  }

  /** Every accepted text is the formatting of what was read. */
  lemma ParseFormats(t: seq<byte>)
    requires ParseCrc(t).Some?
    ensures FormatCrc(ParseCrc(t).value) == t
  {
    JoinedFour(t);
    NibblesOfJoin(HexValue(t[0]).value, HexValue(t[1]).value, HexValue(t[2]).value, HexValue(t[3]).value);
    HexOnto(t[0]);
    HexOnto(t[1]);
    HexOnto(t[2]);
    HexOnto(t[3]);
  }

  lemma FormatInjective(c: bv16, d: bv16)
    requires FormatCrc(c) == FormatCrc(d)
    ensures c == d
  {
    FormatParses(c);
    FormatParses(d);
  }

  // ---------- the CRC boundary of a frame ----------

  datatype Fault = Absent | Present | BadSuffix | Mismatch

  function AppendCrc(frame: seq<byte>): seq<byte> {
    frame + [STAR] + FormatCrc(Checksum(frame))
  }

  /** Position of the last star. */
  function LastStar(frame: seq<byte>): (k: nat)
    requires STAR in frame
    ensures k < |frame| && frame[k] == STAR && forall i :: k < i < |frame| ==> frame[i] != STAR
  {
    if frame[|frame| - 1] == STAR then |frame| - 1 else LastStar(frame[..|frame| - 1])
  }

  function RemoveCrc(frame: seq<byte>, required: bool): Result<seq<byte>, Fault> {
    if STAR !in frame then if required then Err(Absent) else Ok(frame)
    else if !required then Err(Present)
    else
      var k := LastStar(frame);
      var body, supplied := frame[..k], frame[k + 1..];
      if !IsHex(supplied) then Err(BadSuffix)
      else if supplied != FormatCrc(Checksum(body)) then Err(Mismatch)
      else Ok(body)
  }

  lemma StarIsLast(g: seq<byte>, m: nat)
    requires m < |g| && g[m] == STAR && forall i :: m < i < |g| ==> g[i] != STAR
    ensures STAR in g && LastStar(g) == m
  {
    assert !(LastStar(g) < m);
  }

  lemma {:induction false} StarOf(body: seq<byte>, suffix: seq<byte>)
    requires forall i :: 0 <= i < |suffix| ==> suffix[i] != STAR
    ensures STAR in body + [STAR] + suffix
    ensures LastStar(body + [STAR] + suffix) == |body|
  {
    var g := body + [STAR] + suffix;
    forall i | |body| < i < |g| ensures g[i] != STAR { assert g[i] == suffix[i - |body| - 1]; }
    assert g[|body|] == STAR;
    StarIsLast(g, |body|);
  }

  lemma FormatIsHex(c: bv16)
    ensures IsHex(FormatCrc(c))
  {
    FormatParses(c);
  }

  /** Removing and verifying undoes appending, for every body, even one that contains stars. */
  lemma RemoveAppended(frame: seq<byte>)
    ensures RemoveCrc(AppendCrc(frame), true) == Ok(frame)
    ensures RemoveCrc(AppendCrc(frame), false) == Err(Present)
  {
    var g := AppendCrc(frame);
    var suffix := FormatCrc(Checksum(frame));
    StarOf(frame, suffix);
    FormatIsHex(Checksum(frame));
    assert g[..|frame|] == frame && g[|frame| + 1..] == suffix;
  }

  /** With CRC required, exactly the appended frames are accepted. */
  lemma AcceptsOnlyAppended(frame: seq<byte>, body: seq<byte>)
    ensures RemoveCrc(frame, true) == Ok(body) <==> frame == AppendCrc(body)
  {
    if RemoveCrc(frame, true) == Ok(body) {
      var k := LastStar(frame);
      assert frame == frame[..k] + [STAR] + frame[k + 1..];
    }
    RemoveAppended(body);
  }

  /** A protected frame whose body was damaged in one byte or in two adjacent bytes is rejected. */
  lemma DamageIsRejected(body: seq<byte>, damaged: seq<byte>)
    requires Checksum(damaged) != Checksum(body)
    ensures RemoveCrc(damaged + [STAR] + FormatCrc(Checksum(body)), true) == Err(Mismatch)
  {
    var suffix := FormatCrc(Checksum(body));
    var g := damaged + [STAR] + suffix;
    StarOf(damaged, suffix);
    FormatIsHex(Checksum(body));
    assert g[..|damaged|] == damaged && g[|damaged| + 1..] == suffix;
    if suffix == FormatCrc(Checksum(damaged)) { FormatInjective(Checksum(body), Checksum(damaged)); }
  }

  lemma DamagedByteIsRejected(front: seq<byte>, a: byte, b: byte, back: seq<byte>)
    requires a != b
    ensures RemoveCrc(front + [b] + back + [STAR] + FormatCrc(Checksum(front + [a] + back)), true) == Err(Mismatch)
  {
    OneByteChanges(front, a, b, back);
    DamageIsRejected(front + [a] + back, front + [b] + back);
  }

  lemma DamagedPairIsRejected(front: seq<byte>, a: byte, b: byte, a': byte, b': byte, back: seq<byte>)
    requires a != a' || b != b'
    ensures RemoveCrc(front + [a', b'] + back + [STAR] + FormatCrc(Checksum(front + [a, b] + back)), true) ==
            Err(Mismatch)
  {
    TwoBytesChange(front, a, b, a', b', back);
    DamageIsRejected(front + [a, b] + back, front + [a', b'] + back);
  }
}
