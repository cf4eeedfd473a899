/**
 The printed form of v2 requests, responses and events, without CRC: what one language
 prints the other one reads back.
 */
module Wire {
  import opened Common
  import opened Decimal

  const MAX_LINE: nat := 64

  predicate PrintableChar(c: char) {
    ' ' <= c <= '~'
  }

  predicate PrintableText(s: string) {
    forall i :: 0 <= i < |s| ==> PrintableChar(s[i])
  }

  predicate StartsWith(s: string, p: string) {
    |p| <= |s| && s[..|p|] == p
  }

  // ---------- requests: host to firmware ----------

  predicate LegalCommand(c: string) {
    c != [] && c[0] != ' ' && c[|c| - 1] != ' ' && '*' !in c && PrintableText(c)
  }

  /** `format_request` with CRC off. */
  function FormatRequest(id: nat, command: string): Option<string> {
    if !(1 <= id <= 65535) || !LegalCommand(command) then None
    else
      var frame := "@" + Print(id) + " " + command;
      if |frame| > MAX_LINE then None else Some(frame)
  }

  datatype Envelope = BadFrame | BadId | Envelope(id: nat, payload: string, explicitId: bool)

  /** The digits from position `i`; `None` once the value exceeds 16 bits. */
  function Scan(frame: string, i: nat, value: nat): Option<(nat, nat)>
    requires i <= |frame|
    decreases |frame| - i
  {
    if i < |frame| && IsDigit(frame[i]) then
      var v := value * 10 + (frame[i] as int - '0' as int);
      if v > 65535 then None else Scan(frame, i + 1, v)
    else Some((value, i))
  }

  /** `parseV2RequestEnvelope`. */
  function ParseEnvelope(frame: string): Envelope {
    if frame == [] || |frame| > MAX_LINE || !PrintableText(frame) then BadFrame
    else if frame[0] != '@' then
      if frame[0] == ' ' || frame[|frame| - 1] == ' ' then BadFrame else Envelope(0, frame, false)
    else match Scan(frame, 1, 0)
      case None => BadId
      case Some((value, i)) =>
        if i == 1 || value == 0 || i >= |frame| || frame[i] != ' ' then BadId
        else if i + 1 == |frame| || frame[i + 1] == ' ' || frame[|frame| - 1] == ' ' then BadFrame
        else Envelope(value, frame[i + 1..], true)
  }

  /** The scanning loop as the firmware runs it; its accumulator never exceeds 655359. */
  method ScanId(frame: string) returns (r: Option<(nat, nat)>)
    requires 1 <= |frame|
    ensures r == Scan(frame, 1, 0)
  {
    var value: nat, index: nat := 0, 1;
    while index < |frame| && IsDigit(frame[index])
      invariant 1 <= index <= |frame| && value <= 65535
      invariant Scan(frame, 1, 0) == Scan(frame, index, value)
    {
      value := value * 10 + (frame[index] as int - '0' as int);
      assert value <= 655359;
      if value > 65535 { return None; }
      index := index + 1;
    }
    return Some((value, index));
  }

  /** Scanning a printed number that a non-digit ends reads that number. */
  lemma {:induction false} ScanRun(frame: string, start: nat, digits: string, k: nat)
    requires AllDigits(digits) && k <= |digits| && start + |digits| <= |frame|
    requires frame[start..start + |digits|] == digits
    requires start + |digits| < |frame| ==> !IsDigit(frame[start + |digits|])
    requires Value(digits) <= 65535
    ensures Scan(frame, start + k, Value(digits[..k])) == Some((Value(digits), start + |digits|))
    decreases |digits| - k
  {
    if k < |digits| {
      assert frame[start + k] == digits[k] && digits[k] in digits;
      assert digits[..k + 1][..k] == digits[..k];
      ValueGrows(digits, k + 1);
      ScanRun(frame, start, digits, k + 1);
    } else {
      assert digits[..k] == digits;
    }
  }

  /** The firmware recovers exactly the identifier and the command the host printed. */
  lemma RequestRoundTrip(id: nat, command: string)
    requires FormatRequest(id, command).Some?
    ensures ParseEnvelope(FormatRequest(id, command).value) == Envelope(id, command, true)
  {
    var digits := Print(id);
    var frame := "@" + digits + " " + command;
    var n := |digits|;
    assert frame[1..1 + n] == digits && frame[1 + n] == ' ' && frame[n + 2..] == command;
    forall i | 0 <= i < |frame| ensures PrintableChar(frame[i]) {
      if 1 <= i <= n { assert frame[i] == digits[i - 1] && digits[i - 1] in digits; }
      else if i > n + 1 { assert frame[i] == command[i - n - 2]; }
    }
    ValueOfPrint(id);
    ScanRun(frame, 1, digits, 0);
    assert digits[..0] == [];
    assert frame[n + 2] == command[0] && frame[|frame| - 1] == command[|command| - 1];
  }

  /** `format_request` accepts exactly the legal commands that fit. */
  lemma FormatAccepts(id: nat, command: string)
    ensures FormatRequest(id, command).Some? <==>
            1 <= id <= 65535 && LegalCommand(command) && 2 + Digits(id) + |command| <= MAX_LINE
  {
    PrintLength(id);
  }

  // ---------- splitting and joining ----------

  function Split(s: string, c: char): (r: seq<string>)
    ensures r != []
  {
    if s == [] then [[]]
    else if s[0] == c then [[]] + Split(s[1..], c)
    else var rest := Split(s[1..], c); [[s[0]] + rest[0]] + rest[1..]
  }

  function Join(tokens: seq<string>, c: char): string
    requires tokens != []
  {
    if |tokens| == 1 then tokens[0] else tokens[0] + [c] + Join(tokens[1..], c)
  }

  lemma {:induction false} SplitPlain(s: string, c: char)
    requires c !in s
    ensures Split(s, c) == [s]
  {
    if s != [] {
      SplitPlain(s[1..], c);
      assert s[0] in s && s == [s[0]] + s[1..];
    }
  }

  lemma {:induction false} SplitAt(a: string, c: char, b: string)
    requires c !in a
    ensures Split(a + [c] + b, c) == [a] + Split(b, c)
  {
    if a == [] {
      assert (a + [c] + b)[1..] == b;
    } else {
      var s := a + [c] + b;
      assert s[1..] == a[1..] + [c] + b && s[0] == a[0] && a[0] in a;
      SplitAt(a[1..], c, b);
      assert a == [a[0]] + a[1..];
      assert ([a[1..]] + Split(b, c))[1..] == Split(b, c);
    }
  }

  lemma {:induction false} SplitJoin(tokens: seq<string>, c: char)
    requires tokens != [] && forall i :: 0 <= i < |tokens| ==> c !in tokens[i]
    ensures Split(Join(tokens, c), c) == tokens
  {
    if |tokens| == 1 {
      SplitPlain(tokens[0], c);
    } else {
      SplitJoin(tokens[1..], c);
      SplitAt(tokens[0], c, Join(tokens[1..], c));
      assert tokens == [tokens[0]] + tokens[1..];
    }
  }

  // ---------- fields ----------

  predicate IsLetter(c: char) {
    'a' <= c <= 'z' || 'A' <= c <= 'Z'
  }

  predicate IsName(s: string) {
    s != [] && IsLetter(s[0]) && forall i :: 0 <= i < |s| ==> IsLetter(s[i]) || IsDigit(s[i]) || s[i] == '_'
  }

  predicate IsValue(s: string) {
    s != [] && ' ' !in s
  }

  datatype Field = Field(key: string, value: string)

  function ParseToken(token: string): Option<Field> {
    var parts := Split(token, '=');
    if |parts| == 2 && IsName(parts[0]) && IsValue(parts[1]) then Some(Field(parts[0], parts[1])) else None
  }

  /** The dictionary of a list of tokens; `None` on a malformed token or a repeated key. */
  function ParseTokens(tokens: seq<string>): Option<map<string, string>> {
    if tokens == [] then Some(map[])
    else
      var n := |tokens| - 1;
      match (ParseTokens(tokens[..n]), ParseToken(tokens[n]))
      case (Some(m), Some(f)) => if f.key in m then None else Some(m[f.key := f.value])
      case _ => None
  }

  function ParseFields(text: string): Option<map<string, string>> {
    if text == [] then Some(map[]) else ParseTokens(Split(text, ' '))
  }

  /** `parse_fields` as the host runs it. */
  method ReadFields(text: string) returns (r: Option<map<string, string>>)
    ensures r == ParseFields(text)
  {
    if text == [] { return Some(map[]); }
    var tokens := Split(text, ' ');
    var fields: map<string, string> := map[];
    for i := 0 to |tokens|
      invariant ParseTokens(tokens[..i]) == Some(fields)
    {
      assert tokens[..i + 1][..i] == tokens[..i];
      var f := ParseToken(tokens[i]);
      if f.None? || f.value.key in fields {
        TokensFail(tokens, i + 1);
        return None;
      }
      fields := fields[f.value.key := f.value.value];
    }
    assert tokens[..|tokens|] == tokens;
    return Some(fields);
  }

  lemma {:induction false} TokensFail(tokens: seq<string>, i: nat)
    requires i <= |tokens| && ParseTokens(tokens[..i]).None?
    ensures ParseTokens(tokens).None?
    decreases |tokens| - i
  {
    if i == |tokens| {
      assert tokens[..i] == tokens;
    } else {
      assert tokens[..i + 1][..i] == tokens[..i];
      TokensFail(tokens, i + 1);
    }
  }

  predicate WellFormed(f: Field) {
    IsName(f.key) && IsValue(f.value) && '=' !in f.value && '*' !in f.value && PrintableText(f.value)
  }

  predicate WellFormedList(fs: seq<Field>) {
    && (forall i :: 0 <= i < |fs| ==> WellFormed(fs[i]))
    && (forall i, j :: 0 <= i < j < |fs| ==> fs[i].key != fs[j].key)
  }

  function Token(f: Field): string {
    f.key + "=" + f.value
  }

  function Tokens(fs: seq<Field>): (ts: seq<string>)
    ensures |ts| == |fs| && forall i :: 0 <= i < |ts| ==> ts[i] == Token(fs[i])
  {
    seq(|fs|, i requires 0 <= i < |fs| => Token(fs[i]))
  }

  /** The text of a field list. */
  function FieldText(fs: seq<Field>): string {
    if fs == [] then "" else Join(Tokens(fs), ' ')
  }

  function AsMap(fs: seq<Field>): (m: map<string, string>)
    ensures forall k :: k in m <==> exists i :: 0 <= i < |fs| && fs[i].key == k
  {
    if fs == [] then map[] else AsMap(fs[..|fs| - 1])[fs[|fs| - 1].key := fs[|fs| - 1].value]
  }

  lemma NameIsClean(s: string)
    requires IsName(s)
    ensures '=' !in s && ' ' !in s && '*' !in s && ':' !in s && PrintableText(s)
  {
  }

  lemma TokenParses(f: Field)
    requires WellFormed(f)
    ensures ParseToken(Token(f)) == Some(f) && ' ' !in Token(f)
  {
    NameIsClean(f.key);
    SplitAt(f.key, '=', f.value);
    SplitPlain(f.value, '=');
  }

  lemma {:induction false} TokensParse(fs: seq<Field>)
    requires WellFormedList(fs)
    ensures ParseTokens(Tokens(fs)) == Some(AsMap(fs))
  {
    if fs != [] {
      var n := |fs| - 1;
      TokensParse(fs[..n]);
      assert Tokens(fs)[..n] == Tokens(fs[..n]);
      TokenParses(fs[n]);
      KeyIsNew(fs);
    }
  }

  lemma KeyIsNew(fs: seq<Field>)
    requires fs != [] && WellFormedList(fs)
    ensures fs[|fs| - 1].key !in AsMap(fs[..|fs| - 1])
  {
  }

  /** Fields survive printing and reading. */
  lemma FieldsRoundTrip(fs: seq<Field>)
    requires WellFormedList(fs)
    ensures ParseFields(FieldText(fs)) == Some(AsMap(fs))
    ensures fs != [] ==> FieldText(fs) != []
  {
    if fs != [] {
      forall i | 0 <= i < |fs| ensures ' ' !in Tokens(fs)[i] { TokenParses(fs[i]); }
      SplitJoin(Tokens(fs), ' ');
      TokensParse(fs);
      assert |Tokens(fs)[0]| > 0;
    }
  }

  // ---------- responses and events: firmware to host ----------

  datatype Kind = Accepted | Progress | Data | Done | Error

  datatype Notice = State | Fault | Reject

  datatype Parsed =
    | Response(id: nat, kind: Kind, fields: map<string, string>, code: nat, name: string)
    | Event(sequence: nat, notice: Notice, fields: map<string, string>, code: nat, name: string)
    | StoppedLine
    | Bad

  /** `uint`: a canonical decimal in a range. */
  function Uint(s: string, least: nat, most: nat): Option<nat> {
    if AllDigits(s) && (s[0] == '0' ==> s == "0") && least <= Value(s) <= most then Some(Value(s)) else None
  }

  function DigitsEnd(s: string, i: nat): (k: nat)
    requires i <= |s|
    ensures i <= k <= |s| && (forall j :: i <= j < k ==> IsDigit(s[j])) && (k < |s| ==> !IsDigit(s[k]))
    decreases |s| - i
  {
    if i < |s| && IsDigit(s[i]) then DigitsEnd(s, i + 1) else i
  }

  /** `<mark><digits> <body>`. */
  function Numbered(line: string): Option<(string, string)>
    requires line != []
  {
    var k := DigitsEnd(line, 1);
    if k > 1 && k + 1 < |line| && line[k] == ' ' then Some((line[1..k], line[k + 1..])) else None
  }

  function NonEmptyFields(text: string): Option<map<string, string>> {
    if text == [] then None else ParseFields(text)
  }

  /** `_error`: `<word>:<code>:<name>`, then optional fields after the first space. */
  function ErrorForm(text: string): Option<(nat, string, map<string, string>)> {
    var (head, rest) := SplitOnce(text);
    var detail := Split(head, ':');
    if |detail| != 3 || !(detail[0] == "error" || detail[0] == "fault" || detail[0] == "reject")
        || !IsName(detail[2]) then None
    else match (Uint(detail[1], 1, 65535), ParseFields(rest))
      case (Some(code), Some(fields)) => Some((code, detail[2], fields))
      case _ => None
  }

  /** `split(" ", 1)`, a missing second part read as empty. */
  function SplitOnce(s: string): (string, string) {
    if s == [] then ("", "")
    else if s[0] == ' ' then ("", s[1..])
    else var (a, b) := SplitOnce(s[1..]); ([s[0]] + a, b)
  }

  function WithFields(id: nat, kind: Kind, fields: Option<map<string, string>>): Parsed {
    match fields case None => Bad case Some(m) => Response(id, kind, m, 0, "")
  }

  function ResponseBody(id: nat, body: string): Parsed {
    if body == "accepted" then Response(id, Accepted, map[], 0, "")
    else if StartsWith(body, "accepted:") then WithFields(id, Accepted, NonEmptyFields(body[9..]))
    else if StartsWith(body, "progress:") then WithFields(id, Progress, NonEmptyFields(body[9..]))
    else if StartsWith(body, "data:") then WithFields(id, Data, NonEmptyFields(body[5..]))
    else if StartsWith(body, "done:") then WithFields(id, Done, NonEmptyFields(body[5..]))
    else if body == "done" then Response(id, Done, map[], 0, "")
    else if StartsWith(body, "error:") then
      match ErrorForm(body) case None => Bad case Some((code, name, m)) => Response(id, Error, m, code, name)
    else Bad
  }

  function EventBody(sequence: nat, body: string): Parsed {
    if StartsWith(body, "state:") then
      match NonEmptyFields(body[6..]) case None => Bad case Some(m) => Event(sequence, State, m, 0, "")
    else if StartsWith(body, "fault:") || StartsWith(body, "reject:") then
      match ErrorForm(body)
      case None => Bad
      case Some((code, name, m)) => Event(sequence, if StartsWith(body, "fault:") then Fault else Reject, m, code, name)
    else Bad
  }

  /** `parse_v2_line` with CRC off. */
  function ParseLine(line: string): Parsed {
    if line == [] || |line| > MAX_LINE || !PrintableText(line) then Bad
    else if line == "stopped" then StoppedLine
    else if '*' in line then Bad
    else if line[0] == '@' then
      match Numbered(line)
      case None => Bad
      case Some((digits, body)) =>
        (match Uint(digits, 0, 65535) case None => Bad case Some(id) => ResponseBody(id, body))
    else if line[0] == '!' then
      match Numbered(line)
      case None => Bad
      case Some((digits, body)) =>
        (match Uint(digits, 1, 65535) case None => Bad case Some(n) => EventBody(n, body))
    else Bad
  }

  /** What `formatV2Response` puts behind the identifier. */
  function ResponseText(kind: Kind, detail: string): Option<string> {
    match kind
    case Accepted => Some(if detail == "" then "accepted" else "accepted:" + detail)
    case Done => Some(if detail == "" then "done" else "done:" + detail)
    case Progress => if detail == "" then None else Some("progress:" + detail)
    case Data => if detail == "" then None else Some("data:" + detail)
    case Error => if detail == "" then None else Some("error:" + detail)
  }

  function Line(mark: char, n: nat, body: string): string {
    [mark] + Print(n) + " " + body
  }

  /** `formatV2Response`, without its final LF. */
  function FormatResponse(id: nat, kind: Kind, detail: string): Option<string> {
    match ResponseText(kind, detail)
    case None => None
    case Some(body) =>
      if PrintableText(detail) && |Line('@', id, body)| <= MAX_LINE then Some(Line('@', id, body)) else None
  }

  /** `formatV2Event`, without its final LF. */
  function FormatEvent(sequence: nat, detail: string): Option<string> {
    if sequence == 0 || detail == "" || !PrintableText(detail) || |Line('!', sequence, detail)| > MAX_LINE then None
    else Some(Line('!', sequence, detail))
  }

  /** `appendV2Unsigned`: the digits are produced backwards and written forwards. */
  method PrintUnsigned(n: nat) returns (r: string)
    ensures r == Print(n)
  {
    var value := n;
    r := "";
    while value >= 10
      invariant Print(n) == Print(value) + r
    {
      r := [DigitChar(value % 10)] + r;
      value := value / 10;
    }
    r := [DigitChar(value)] + r;
  }

  /** The code and name of an error, fault or reject, and its fields. */
  function ErrorText(code: nat, name: string, fs: seq<Field>): string {
    Print(code) + ":" + name + if fs == [] then "" else " " + FieldText(fs)
  }

  // ---------- reading back ----------

  lemma {:induction false} JoinIsClean(tokens: seq<string>)
    requires tokens != [] && forall i :: 0 <= i < |tokens| ==> PrintableText(tokens[i]) && '*' !in tokens[i]
    ensures PrintableText(Join(tokens, ' ')) && '*' !in Join(tokens, ' ')
  {
    if |tokens| > 1 { JoinIsClean(tokens[1..]); }
  }

  lemma FieldTextIsClean(fs: seq<Field>)
    requires WellFormedList(fs)
    ensures PrintableText(FieldText(fs)) && '*' !in FieldText(fs)
  {
    if fs != [] {
      forall i | 0 <= i < |fs| ensures PrintableText(Tokens(fs)[i]) && '*' !in Tokens(fs)[i] { NameIsClean(fs[i].key); }
      JoinIsClean(Tokens(fs));
    }
  }

  lemma DigitsAreClean(n: nat)
    ensures PrintableText(Print(n)) && '*' !in Print(n) && ':' !in Print(n) && ' ' !in Print(n)
  {
    forall i | 0 <= i < |Print(n)|
      ensures PrintableChar(Print(n)[i]) && Print(n)[i] != '*' && Print(n)[i] != ':' && Print(n)[i] != ' '
    {
      assert Print(n)[i] in Print(n);
    }
  }

  lemma UintOfPrint(n: nat, least: nat, most: nat)
    requires least <= n <= most
    ensures Uint(Print(n), least, most) == Some(n)
  {
    ValueOfPrint(n);
  }

  /** A marked line is taken apart into its number and its body. */
  lemma NumberedLine(mark: char, n: nat, body: string)
    requires body != ""
    ensures Numbered(Line(mark, n, body)) == Some((Print(n), body))
  {
    var line, d := Line(mark, n, body), |Print(n)|;
    forall j | 1 <= j < 1 + d ensures IsDigit(line[j]) {
      assert line[j] == Print(n)[j - 1] && Print(n)[j - 1] in Print(n);
    }
    assert line[1 + d] == ' ';
    EndOfDigits(line, 1, 1 + d);
    assert line[1..1 + d] == Print(n) && line[d + 2..] == body;
  }

  lemma EndOfDigits(s: string, i: nat, k: nat)
    requires i <= k < |s| && (forall j :: i <= j < k ==> IsDigit(s[j])) && !IsDigit(s[k])
    ensures DigitsEnd(s, i) == k
  {
    var m := DigitsEnd(s, i);
    assert !(m < k) && !(k < m);
  }

  lemma LineIsClean(mark: char, n: nat, body: string)
    requires (mark == '@' || mark == '!') && PrintableText(body) && '*' !in body
    ensures PrintableText(Line(mark, n, body)) && '*' !in Line(mark, n, body)
  {
    DigitsAreClean(n);
  }

  /** The firmware's response line reaches the response reader with its identifier and body. */
  lemma ResponseReaches(id: nat, body: string)
    requires id <= 65535 && body != "" && PrintableText(body) && '*' !in body && |Line('@', id, body)| <= MAX_LINE
    ensures ParseLine(Line('@', id, body)) == ResponseBody(id, body)
  {
    LineIsClean('@', id, body);
    NumberedLine('@', id, body);
    UintOfPrint(id, 0, 65535);
    assert Line('@', id, body)[0] != "stopped"[0];
  }

  lemma EventReaches(n: nat, body: string)
    requires 1 <= n <= 65535 && body != "" && PrintableText(body) && '*' !in body && |Line('!', n, body)| <= MAX_LINE
    ensures ParseLine(Line('!', n, body)) == EventBody(n, body)
  {
    LineIsClean('!', n, body);
    NumberedLine('!', n, body);
    UintOfPrint(n, 1, 65535);
    assert Line('!', n, body)[0] != "stopped"[0];
  }

  lemma Prefixed(word: string, rest: string)
    ensures StartsWith(word + rest, word) && (word + rest)[|word|..] == rest
  {
  }

  lemma DiffersAt(s: string, p: string, i: nat)
    requires i < |s| && i < |p| && s[i] != p[i]
    ensures !StartsWith(s, p) && s != p
  {
    assert |p| <= |s| ==> s[..|p|][i] == s[i];
  }

  lemma PlainBody(id: nat, kind: Kind, fs: seq<Field>)
    requires WellFormedList(fs) && !kind.Error? && ResponseText(kind, FieldText(fs)).Some?
    ensures ResponseBody(id, ResponseText(kind, FieldText(fs)).value) == Response(id, kind, AsMap(fs), 0, "")
  {
    FieldsRoundTrip(fs);
    var text := FieldText(fs);
    var body := ResponseText(kind, text).value;
    match kind
    case Accepted =>
      if text != "" { Prefixed("accepted:", text); assert |body| > 8; }
    case Progress => Prefixed("progress:", text); DiffersAt(body, "accepted", 0); DiffersAt(body, "accepted:", 0);
    case Data =>
      Prefixed("data:", text);
      DiffersAt(body, "accepted", 0); DiffersAt(body, "accepted:", 0); DiffersAt(body, "progress:", 0);
    case Done =>
      DiffersAt(body, "accepted", 0); DiffersAt(body, "accepted:", 0);
      DiffersAt(body, "progress:", 0); DiffersAt(body, "data:", 1);
      if text != "" { Prefixed("done:", text); }
  }

  /** Every accepted, progress, data and done line with well-formed fields is read back exactly. */
  lemma ResponseRoundTrip(id: nat, kind: Kind, fs: seq<Field>)
    requires id <= 65535 && !kind.Error? && WellFormedList(fs) && FormatResponse(id, kind, FieldText(fs)).Some?
    ensures ParseLine(FormatResponse(id, kind, FieldText(fs)).value) == Response(id, kind, AsMap(fs), 0, "")
  {
    var body := ResponseText(kind, FieldText(fs)).value;
    FieldTextIsClean(fs);
    BodyIsClean(kind, FieldText(fs));
    ResponseReaches(id, body);
    PlainBody(id, kind, fs);
  }

  lemma BodyIsClean(kind: Kind, detail: string)
    requires PrintableText(detail) && '*' !in detail && ResponseText(kind, detail).Some?
    ensures var body := ResponseText(kind, detail).value; body != "" && PrintableText(body) && '*' !in body
  {
  }

  lemma {:induction false} SplitOnceAt(a: string, b: string)
    requires ' ' !in a
    ensures SplitOnce(a + " " + b) == (a, b)
  {
    if a == "" {
      assert a + " " + b == " " + b;
    } else {
      assert (a + " " + b)[1..] == a[1..] + " " + b;
      SplitOnceAt(a[1..], b);
      assert a[0] in a && a == [a[0]] + a[1..];
    }
  }

  lemma {:induction false} SplitOnceNowhere(a: string)
    requires ' ' !in a
    ensures SplitOnce(a) == (a, "")
  {
    if a != "" {
      SplitOnceNowhere(a[1..]);
      assert a[0] in a && a == [a[0]] + a[1..];
    }
  }

  lemma HeadSplits(word: string, code: nat, name: string)
    requires ':' !in word && IsName(name)
    ensures Split(word + ":" + Print(code) + ":" + name, ':') == [word, Print(code), name]
  {
    NameIsClean(name);
    DigitsAreClean(code);
    var rest := Print(code) + ":" + name;
    assert word + ":" + Print(code) + ":" + name == word + ":" + rest;
    SplitAt(word, ':', rest);
    SplitAt(Print(code), ':', name);
    SplitPlain(name, ':');
    assert [word] + ([Print(code)] + [name]) == [word, Print(code), name];
  }

  function Head(word: string, code: nat, name: string): string {
    word + ":" + Print(code) + ":" + name
  }

  lemma HeadIsClean(word: string, code: nat, name: string)
    requires ' ' !in word && IsName(name)
    ensures ' ' !in Head(word, code, name)
  {
    NameIsClean(name);
    DigitsAreClean(code);
  }

  lemma HeadReads(text: string, word: string, code: nat, name: string, rest: string, m: map<string, string>)
    requires word == "error" || word == "fault" || word == "reject"
    requires 1 <= code <= 65535 && IsName(name)
    requires SplitOnce(text) == (Head(word, code, name), rest) && ParseFields(rest) == Some(m)
    ensures ErrorForm(text) == Some((code, name, m))
  {
    HeadSplits(word, code, name);
    UintOfPrint(code, 1, 65535);
  }

  lemma Regroup(word: string, digits: string, name: string, tail: string)
    ensures word + ":" + (digits + ":" + name + tail) == (word + ":" + digits + ":" + name) + tail
  {
  }

  lemma ErrorTextSplits(word: string, code: nat, name: string, fs: seq<Field>)
    requires ' ' !in word && IsName(name)
    ensures SplitOnce(word + ":" + ErrorText(code, name, fs)) == (Head(word, code, name), FieldText(fs))
  {
    var head := Head(word, code, name);
    HeadIsClean(word, code, name);
    if fs == [] {
      Regroup(word, Print(code), name, "");
      assert head + "" == head;
      SplitOnceNowhere(head);
    } else {
      Regroup(word, Print(code), name, " " + FieldText(fs));
      assert head + (" " + FieldText(fs)) == head + " " + FieldText(fs);
      SplitOnceAt(head, FieldText(fs));
    }
  }

  /** Code, name and fields of an error, fault or reject are read back exactly. */
  lemma ErrorReads(word: string, code: nat, name: string, fs: seq<Field>)
    requires word == "error" || word == "fault" || word == "reject"
    requires 1 <= code <= 65535 && IsName(name) && WellFormedList(fs)
    ensures ErrorForm(word + ":" + ErrorText(code, name, fs)) == Some((code, name, AsMap(fs)))
  {
    FieldsRoundTrip(fs);
    ErrorTextSplits(word, code, name, fs);
    HeadReads(word + ":" + ErrorText(code, name, fs), word, code, name, FieldText(fs), AsMap(fs));
  }

  lemma ErrorTextIsClean(code: nat, name: string, fs: seq<Field>)
    requires IsName(name) && WellFormedList(fs)
    ensures PrintableText(ErrorText(code, name, fs)) && '*' !in ErrorText(code, name, fs)
    ensures ErrorText(code, name, fs) != ""
  {
    NameIsClean(name);
    DigitsAreClean(code);
    FieldTextIsClean(fs);
  }

  lemma ErrorRoundTrip(id: nat, code: nat, name: string, fs: seq<Field>)
    requires id <= 65535 && 1 <= code <= 65535 && IsName(name) && WellFormedList(fs)
    requires FormatResponse(id, Error, ErrorText(code, name, fs)).Some?
    ensures ParseLine(FormatResponse(id, Error, ErrorText(code, name, fs)).value) ==
            Response(id, Error, AsMap(fs), code, name)
  {
    var detail := ErrorText(code, name, fs);
    ErrorTextIsClean(code, name, fs);
    BodyIsClean(Error, detail);
    var body := "error:" + detail;
    ResponseReaches(id, body);
    DiffersAt(body, "accepted", 0); DiffersAt(body, "accepted:", 0); DiffersAt(body, "progress:", 0);
    DiffersAt(body, "data:", 0); DiffersAt(body, "done:", 0); DiffersAt(body, "done", 0);
    Prefixed("error:", detail);
    assert body == "error" + ":" + detail;
    ErrorReads("error", code, name, fs);
  }

  /** State events are read back exactly. */
  lemma StateRoundTrip(n: nat, fs: seq<Field>)
    requires 1 <= n <= 65535 && fs != [] && WellFormedList(fs) && FormatEvent(n, "state:" + FieldText(fs)).Some?
    ensures ParseLine(FormatEvent(n, "state:" + FieldText(fs)).value) == Event(n, State, AsMap(fs), 0, "")
  {
    var body := "state:" + FieldText(fs);
    FieldTextIsClean(fs);
    FieldsRoundTrip(fs);
    EventReaches(n, body);
    Prefixed("state:", FieldText(fs));
  }

  function Word(notice: Notice): string {
    match notice
    case State => "state"
    case Fault => "fault"
    case Reject => "reject"
  }

  lemma FaultBody(n: nat, notice: Notice, code: nat, name: string, fs: seq<Field>)
    requires 1 <= code <= 65535 && IsName(name) && WellFormedList(fs) && !notice.State?
    ensures EventBody(n, Word(notice) + ":" + ErrorText(code, name, fs)) == Event(n, notice, AsMap(fs), code, name)
  {
    var detail := ErrorText(code, name, fs);
    var body := Word(notice) + ":" + detail;
    ErrorReads(Word(notice), code, name, fs);
    DiffersAt(body, "state:", 0);
    if notice.Fault? {
      assert body == "fault:" + detail;
      Prefixed("fault:", detail);
    } else {
      assert body == "reject:" + detail;
      DiffersAt(body, "fault:", 0);
      Prefixed("reject:", detail);
    }
  }

  /** Fault and reject events are read back exactly. */
  lemma FaultRoundTrip(n: nat, notice: Notice, code: nat, name: string, fs: seq<Field>)
    requires 1 <= n <= 65535 && 1 <= code <= 65535 && IsName(name) && WellFormedList(fs) && !notice.State?
    requires FormatEvent(n, Word(notice) + ":" + ErrorText(code, name, fs)).Some?
    ensures ParseLine(FormatEvent(n, Word(notice) + ":" + ErrorText(code, name, fs)).value) ==
            Event(n, notice, AsMap(fs), code, name)
  {
    ErrorTextIsClean(code, name, fs);
    var body := Word(notice) + ":" + ErrorText(code, name, fs);
    WordIsClean(notice, ErrorText(code, name, fs));
    EventReaches(n, body);
    FaultBody(n, notice, code, name, fs);
  }

  lemma WordIsClean(notice: Notice, detail: string)
    requires PrintableText(detail) && '*' !in detail
    ensures PrintableText(Word(notice) + ":" + detail) && '*' !in Word(notice) + ":" + detail
  {
  }
}
