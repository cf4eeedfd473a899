/** The firmware's decimal parsers, in machine integers: `logic.cpp`. */
module Logic {
  import opened Common
  import opened Decimal

  newtype uint32 = n: int | 0 <= n < 0x1_0000_0000
  newtype int32 = n: int | -0x8000_0000 <= n < 0x8000_0000

  function Digit(c: char): (d: uint32)
    requires IsDigit(c)
    ensures d < 10
  {
    (c as int - '0' as int) as uint32
  }

  /**
   Exactly the non-empty digit strings up to `maximum` are accepted, whatever the maximum, and
   no intermediate value leaves 32 bits.
   */
  method ParseUint32(text: string, maximum: uint32) returns (r: Option<uint32>)
    ensures r.Some? <==> AllDigits(text) && Value(text) <= maximum as int
    ensures r.Some? ==> r.value as int == Value(text)
  {
    if text == [] { return None; }
    var parsed: uint32 := 0;
    for i := 0 to |text|
      invariant forall k :: 0 <= k < i ==> IsDigit(text[k])
      invariant forall c :: c in text[..i] ==> IsDigit(c)
      invariant parsed as int == Value(text[..i]) && parsed <= maximum
    {
      assert text[..i + 1][..i] == text[..i] && text[..i + 1][i] == text[i];
      if !IsDigit(text[i]) {
        assert text[i] in text;
        return None;
      }
      var digit := Digit(text[i]);
      assert forall c :: c in text[..i + 1] ==> IsDigit(c);
      assert Value(text[..i + 1]) == 10 * Value(text[..i]) + digit as int;
      if parsed > maximum / 10 || (parsed == maximum / 10 && digit > maximum % 10) {
        TooLarge(parsed as int, digit as int, maximum as int);
        if AllDigits(text) { ValueGrows(text, i + 1); }
        return None;
      }
      parsed := parsed * 10 + digit;
    }
    assert text[..|text|] == text;
    return Some(parsed);
  }

  lemma TooLarge(parsed: int, digit: int, maximum: int)
    requires 0 <= digit < 10 && maximum >= 0
    requires parsed > maximum / 10 || (parsed == maximum / 10 && digit > maximum % 10)
    ensures 10 * parsed + digit > maximum
  {
  }

  /** The digits of a signed numeral. */
  function Magnitude(text: string): string {
    if text != [] && (text[0] == '-' || text[0] == '+') then text[1..] else text
  }

  function SignedValue(text: string): int
    requires AllDigits(Magnitude(text))
  {
    if text != [] && text[0] == '-' then 0 - Value(Magnitude(text)) else Value(Magnitude(text))
  }

  /** Exactly the signed numerals whose value lies in the range are accepted. */
  method ParseInt32(text: string, minimum: int32, maximum: int32) returns (r: Option<int32>)
    ensures r.Some? <==> AllDigits(Magnitude(text)) && minimum as int <= SignedValue(text) <= maximum as int
    ensures r.Some? ==> r.value as int == SignedValue(text)
  {
    if minimum > maximum || text == [] { return None; }
    var negative := text[0] == '-';
    var rest := if text[0] == '-' || text[0] == '+' then text[1..] else text;
    if rest == [] { return None; }
    var limit: uint32 :=
      if negative then if minimum < 0 then (-(minimum + 1)) as uint32 + 1 else 0
      else if maximum > 0 then maximum as uint32 else 0;
    var magnitude := ParseUint32(rest, limit);
    if magnitude.None? { return None; }
    var m := magnitude.value;
    var parsed: int32 := if negative && m == 0x8000_0000 then -0x8000_0000
                         else if negative then -(m as int32) else m as int32;
    if parsed < minimum || parsed > maximum { return None; }
    return Some(parsed);
  }

  /** The parsers as functions, for the dispatcher. */
  function Bounded(text: string, minimum: nat, maximum: nat): (r: Option<nat>)
    ensures r.Some? ==> minimum <= r.value <= maximum
  {
    if AllDigits(text) && minimum <= Value(text) <= maximum then Some(Value(text)) else None
  }
}

/**
 The v1 configuration dispatcher and the sorter queue it feeds: no position, no slot and no
 movement ever exceeds what the controller's 16-bit integers hold.
 */
module Motion {
  import opened Common
  import opened Decimal
  import opened Logic

  datatype Limits = Limits(maxInt: nat, maxStandby: nat, revolution: nat, microsteps: nat)

  /** Settings the movement arithmetic does not depend on. */
  datatype Setting =
    | FeedSpeed | SortSpeed | FeedSteps | FeedHomingOffset | SortHomingOffset
    | DebounceTimeout | DebounceTime | NotificationDelay | SlotDropDelay
    | AirDropPostDelay | AirDropPreDelay | AirDropSignalDuration | AutoMotorStandbyTimeout

  datatype Configuration = Configuration(sortSteps: nat, slotCount: nat, settings: map<Setting, nat>)

  /** A classified v1 command with the text of its argument. */
  datatype Command =
    | NumericPosition(text: string)
    | SortTo(text: string)
    | ForceFeed(text: string)
    | SetSortSteps(text: string)
    | SetSlotCount(text: string)
    | Set(setting: Setting, text: string)
    | Test(text: string)
    | SortTest(text: string)
    | HomeFeeder
    | HomeSorter
    | Stop
    | Other

  datatype Action =
    | NoAction | QueuePending | EnterStopped
    | QueueFeed(position: nat) | QueueForcedFeed(position: nat) | MoveTo(position: nat)
    | StartTest | StartSortTest | Home | Apply

  datatype Answer = Done | Invalid | NotHomed | Busy | Stopped | Silent | Homing

  function MaxSlots(steps: nat, microsteps: nat, maxInt: nat): nat {
    if steps == 0 || microsteps == 0 then 0 else maxInt / microsteps / steps + 1
  }

  predicate SlotsRepresentable(slots: nat, steps: nat, microsteps: nat, maxInt: nat) {
    slots >= 1 && slots <= MaxSlots(steps, microsteps, maxInt)
  }

  function Range(s: Setting, limits: Limits): (nat, nat) {
    match s
    case FeedSpeed => (1, 100)
    case SortSpeed => (1, 100)
    case FeedSteps => (1, 1000)
    case FeedHomingOffset => (0, limits.revolution)
    case SortHomingOffset => (0, limits.revolution)
    case AutoMotorStandbyTimeout => (0, limits.maxStandby)
    case _ => (0, limits.maxInt)
  }

  predicate NeedsHome(c: Command) {
    c.NumericPosition? || c.ForceFeed? || c.SortTo? || c.Test? || c.SortTest?
  }

  /** `parseSortPosition`; the subtraction wraps in the source when the slot count is zero. */
  function SortPosition(text: string, c: Configuration, limits: Limits): Option<nat> {
    var slots := MaxSlots(c.sortSteps, limits.microsteps, limits.maxInt);
    Bounded(text, 0, if slots == 0 then 0xFFFF_FFFF else slots - 1)
  }

  /** `dispatchV1Command` for a queue holding positions `q1` and `q2`. */
  function Dispatch(
    command: Command, running: bool, busy: bool, pending: bool, q1: nat, q2: nat, c: Configuration, limits: Limits)
    : (Configuration, Action, Answer)
  {
    if command.Stop? then (c, EnterStopped, Stopped)
    else if !running && NeedsHome(command) then (c, NoAction, NotHomed)
    else if pending then (c, NoAction, Busy)
    else if busy then (c, QueuePending, Silent)
    else match command
      case NumericPosition(text) =>
        (match SortPosition(text, c, limits)
         case None => (c, NoAction, Invalid)
         case Some(p) => (c, QueueFeed(p), Silent))
      case SortTo(text) =>
        (match SortPosition(text, c, limits) case None => (c, NoAction, Invalid) case Some(p) => (c, MoveTo(p), Done))
      case ForceFeed(text) =>
        (match SortPosition(text, c, limits)
         case None => (c, NoAction, Invalid)
         case Some(p) => (c, QueueForcedFeed(p), Silent))
      case SetSortSteps(text) =>
        (match Bounded(text, 1, 100)
         case None => (c, NoAction, Invalid)
         case Some(v) =>
           var slots := MaxSlots(v, limits.microsteps, limits.maxInt);
           if q1 + 1 > slots || q2 + 1 > slots || !SlotsRepresentable(c.slotCount, v, limits.microsteps, limits.maxInt)
           then (c, NoAction, Invalid)
           else (c.(sortSteps := v), NoAction, Done))
      case SetSlotCount(text) =>
        (match Bounded(text, 0, MaxSlots(c.sortSteps, limits.microsteps, limits.maxInt))
         case None => (c, NoAction, Invalid)
         case Some(n) =>
           if SlotsRepresentable(n, c.sortSteps, limits.microsteps, limits.maxInt) then
             (c.(slotCount := n), NoAction, Done)
           else (c, NoAction, Invalid))
      case Set(setting, text) =>
        var (least, most) := Range(setting, limits);
        (match Bounded(text, least, most)
         case None => (c, NoAction, Invalid)
         case Some(v) => (c.(settings := c.settings[setting := v]), Apply, Done))
      case Test(text) =>
        if Bounded(text, 0, limits.maxInt).None? then (c, NoAction, Invalid) else (c, StartTest, Done)
      case SortTest(text) =>
        if Bounded(text, 0, limits.maxInt).None? then (c, NoAction, Invalid) else (c, StartSortTest, Done)
      case HomeFeeder => (c, Home, Done)
      case HomeSorter => (c, Home, Done)
      case _ => (c, NoAction, Done)
  }

  // ---------- the sorter ----------

  datatype Sorter = Sorter(
    config: Configuration,
    q1: nat,
    q2: nat,
    gated: Option<nat>,       // a destination waiting for the drop gate
    move: int)                // microsteps of the movement in progress

  /** Microsteps from the first slot to a position. */
  function Travel(p: nat, c: Configuration, limits: Limits): nat {
    p * c.sortSteps * limits.microsteps
  }

  /** `beginQueuedSorterTransition`. */
  function BeginQueued(s: Sorter, limits: Limits, position: nat): Sorter {
    s.(move := Travel(s.q1, s.config, limits) - Travel(s.q2, s.config, limits),
       q1 := s.q2, q2 := position)
  }

  /** `moveSorterToNextPosition`: directly, or after the drop delay. */
  function MoveNext(s: Sorter, limits: Limits, position: nat, wait: bool): Sorter {
    if wait && s.q1 != s.q2 then s.(gated := Some(position)) else BeginQueued(s, limits, position)
  }

  /** `moveSorterToPosition`. */
  function MoveDirect(s: Sorter, limits: Limits, position: nat): Sorter {
    s.(move := Travel(s.q1, s.config, limits) - Travel(position, s.config, limits),
       q1 := position, q2 := position)
  }

  datatype Label =
    | Receives(command: Command, running: bool, busy: bool, pending: bool, wait: bool)
    | TestFeeds(slot: nat, wait: bool)      // `random(0, slotCount)`
    | TestSorts(slot: nat)
    | GateOpens
    | QueueResets

  function Act(s: Sorter, limits: Limits, a: Action, wait: bool): Sorter {
    match a
    case QueueFeed(p) => MoveNext(s, limits, p, wait)
    case QueueForcedFeed(p) => MoveNext(s, limits, p, wait)
    case MoveTo(p) => MoveDirect(s, limits, p)
    case EnterStopped => s.(gated := None)
    case _ => s
  }

  /** A waiting destination makes the controller busy. */
  function Step(s: Sorter, limits: Limits, l: Label): Option<Sorter> {
    match l
    case Receives(command, running, busy, pending, wait) =>
      if s.gated.Some? && !busy then None else
      var (c, a, _) := Dispatch(command, running, busy, pending, s.q1, s.q2, s.config, limits);
      Some(Act(s.(config := c), limits, a, wait))
    case TestFeeds(slot, wait) =>
      if slot < s.config.slotCount then Some(MoveNext(s, limits, slot, wait)) else None
    case TestSorts(slot) => if slot < s.config.slotCount then Some(MoveDirect(s, limits, slot)) else None
    case GateOpens =>
      if s.gated.None? then None else Some(BeginQueued(s.(gated := None), limits, s.gated.value))
    case QueueResets => Some(s.(q1 := 0, q2 := 0))
  }

  function Exec(s: Sorter, limits: Limits, labels: seq<Label>): Option<Sorter>
    decreases |labels|
  {
    if labels == [] then Some(s)
    else match Step(s, limits, labels[0])
      case None => None
      case Some(t) => Exec(t, limits, labels[1..])
  }

  // ---------- nothing overflows ----------

  /** The position's movement, and every intermediate product, fits. */
  predicate Fits(p: nat, c: Configuration, limits: Limits) {
    p * c.sortSteps <= limits.maxInt && Travel(p, c, limits) <= limits.maxInt
  }

  /** A configuration whose every diagnostic slot can be reached. */
  predicate ValidConfig(c: Configuration, limits: Limits) {
    && c.sortSteps >= 1 && c.slotCount >= 1
    && forall slot :: 0 <= slot < c.slotCount ==> Fits(slot, c, limits)
  }

  predicate Valid(s: Sorter, limits: Limits) {
    && ValidConfig(s.config, limits)
    && Fits(s.q1, s.config, limits) && Fits(s.q2, s.config, limits)
    && (s.gated.Some? ==> Fits(s.gated.value, s.config, limits))
    && 0 - limits.maxInt <= s.move <= limits.maxInt
  }

  lemma AtMostQuotient(a: nat, b: nat, c: nat)
    requires c >= 1
    ensures a <= b / c <==> a * c <= b
  {
    var q, r := b / c, b % c;
    assert b == q * c + r && 0 <= r < c;
    if a <= q {
      assert a * c <= q * c;
    } else {
      assert a * c >= (q + 1) * c;
    }
  }

  /** The slot limit is exactly the limit of the movement arithmetic. */
  lemma SlotLimitIsExact(p: nat, steps: nat, limits: Limits)
    requires steps >= 1 && limits.microsteps >= 1
    ensures p < MaxSlots(steps, limits.microsteps, limits.maxInt) <==> p * steps * limits.microsteps <= limits.maxInt
    ensures p < MaxSlots(steps, limits.microsteps, limits.maxInt) ==> p * steps <= limits.maxInt
  {
    AtMostQuotient(p, limits.maxInt / limits.microsteps, steps);
    AtMostQuotient(p * steps, limits.maxInt, limits.microsteps);
    var q := p * steps;
    assert q * limits.microsteps >= q;
  }

  lemma PositionFits(text: string, c: Configuration, limits: Limits)
    requires ValidConfig(c, limits) && limits.microsteps >= 1
    ensures SortPosition(text, c, limits).Some? ==> Fits(SortPosition(text, c, limits).value, c, limits)
  {
    if SortPosition(text, c, limits).Some? {
      SlotLimitIsExact(SortPosition(text, c, limits).value, c.sortSteps, limits);
    }
  }

  lemma StepsFit(s: Sorter, limits: Limits, v: nat)
    requires Valid(s, limits) && limits.microsteps >= 1 && v >= 1 && s.gated.None?
    requires var slots := MaxSlots(v, limits.microsteps, limits.maxInt);
             s.q1 < slots && s.q2 < slots && SlotsRepresentable(s.config.slotCount, v, limits.microsteps, limits.maxInt)
    ensures Valid(s.(config := s.config.(sortSteps := v)), limits)
  {
    SlotLimitIsExact(s.q1, v, limits);
    SlotLimitIsExact(s.q2, v, limits);
    forall slot | 0 <= slot < s.config.slotCount ensures Fits(slot, s.config.(sortSteps := v), limits) {
      SlotLimitIsExact(slot, v, limits);
    }
  }

  lemma SlotsFit(s: Sorter, limits: Limits, n: nat)
    requires Valid(s, limits) && limits.microsteps >= 1
    requires SlotsRepresentable(n, s.config.sortSteps, limits.microsteps, limits.maxInt)
    ensures Valid(s.(config := s.config.(slotCount := n)), limits)
  {
    forall slot | 0 <= slot < n ensures Fits(slot, s.config.(slotCount := n), limits) {
      SlotLimitIsExact(slot, s.config.sortSteps, limits);
    }
  }

  /** Whatever command arrives: the configuration stays valid and an accepted position fits. */
  lemma DispatchKeeps(s: Sorter, limits: Limits, command: Command, running: bool, busy: bool, pending: bool)
    requires Valid(s, limits) && limits.microsteps >= 1 && (s.gated.Some? ==> busy)
    ensures var (c, a, _) := Dispatch(command, running, busy, pending, s.q1, s.q2, s.config, limits);
            && Valid(s.(config := c), limits)
            && (a.QueueFeed? || a.QueueForcedFeed? || a.MoveTo? ==> Fits(a.position, c, limits))
  {
    if !busy && !pending {
      match command
      case NumericPosition(text) => PositionFits(text, s.config, limits);
      case SortTo(text) => PositionFits(text, s.config, limits);
      case ForceFeed(text) => PositionFits(text, s.config, limits);
      case SetSortSteps(text) =>
        var c := Dispatch(command, running, busy, pending, s.q1, s.q2, s.config, limits).0;
        if c != s.config { StepsFit(s, limits, c.sortSteps); }
      case SetSlotCount(text) =>
        var c := Dispatch(command, running, busy, pending, s.q1, s.q2, s.config, limits).0;
        if c != s.config { SlotsFit(s, limits, c.slotCount); }
      case Set(setting, text) =>
        var c := Dispatch(command, running, busy, pending, s.q1, s.q2, s.config, limits).0;
        SettingsDoNotMatter(s, c, limits);
      case _ =>
    }
  }

  lemma SettingsDoNotMatter(s: Sorter, c: Configuration, limits: Limits)
    requires Valid(s, limits) && c.sortSteps == s.config.sortSteps && c.slotCount == s.config.slotCount
    ensures Valid(s.(config := c), limits)
  {
    forall slot | 0 <= slot < c.slotCount ensures Fits(slot, c, limits) { assert Fits(slot, s.config, limits); }
  }

  lemma MoveKeeps(s: Sorter, limits: Limits, p: nat, wait: bool)
    requires Valid(s, limits) && Fits(p, s.config, limits)
    ensures Valid(MoveNext(s, limits, p, wait), limits) && Valid(MoveDirect(s, limits, p), limits)
    ensures Valid(BeginQueued(s, limits, p), limits)
  {
  }

  lemma StepKeeps(s: Sorter, limits: Limits, l: Label, t: Sorter)
    requires Valid(s, limits) && limits.microsteps >= 1 && Step(s, limits, l) == Some(t)
    ensures Valid(t, limits)
  {
    match l
    case Receives(command, running, busy, pending, wait) =>
      DispatchKeeps(s, limits, command, running, busy, pending);
      var (c, a, _) := Dispatch(command, running, busy, pending, s.q1, s.q2, s.config, limits);
      if a.QueueFeed? || a.QueueForcedFeed? || a.MoveTo? { MoveKeeps(s.(config := c), limits, a.position, wait); }
    case TestFeeds(slot, wait) => MoveKeeps(s, limits, slot, wait);
    case TestSorts(slot) => MoveKeeps(s, limits, slot, false);
    case GateOpens => MoveKeeps(s.(gated := None), limits, s.gated.value, false);
    case QueueResets =>
  }

  /**
   For every sequence of v1 commands and diagnostic moves from a valid configuration: every
   diagnostic slot, every queued position and every movement fits the controller's integers,
   and so does the product of position and steps on the way to it.
   */
  lemma {:induction false} MotionNeverOverflows(s: Sorter, limits: Limits, labels: seq<Label>, t: Sorter)
    requires Valid(s, limits) && limits.microsteps >= 1 && Exec(s, limits, labels) == Some(t)
    ensures Valid(t, limits)
    decreases |labels|
  {
    if labels != [] {
      var m := Step(s, limits, labels[0]).value;
      StepKeeps(s, limits, labels[0], m);
      MotionNeverOverflows(m, limits, labels[1..], t);
    }
  }
}
