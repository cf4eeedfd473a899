/**
 The firmware's timers. The controller reads time modulo 2^32; true time is unbounded and
 never goes back.
 */
module Timers {
  import opened Common

  const WRAP: nat := 0x1_0000_0000

  type Tick = n: nat | n < 0x1_0000_0000

  function Clock(t: nat): Tick {
    t % 0x1_0000_0000
  }

  /** `static_cast<uint32_t>(now - started)`. */
  function Since(now: Tick, started: Tick): Tick {
    if now >= started then now - started else now + 0x1_0000_0000 - started
  }

  function HasElapsed(now: Tick, started: Tick, duration: Tick): bool {
    Since(now, started) >= duration
  }

  lemma SinceIsTrue(s: nat, t: nat)
    requires s <= t
    ensures Since(Clock(t), Clock(s)) == (t - s) % 0x1_0000_0000
  {
    var m := 0x1_0000_0000;
    var a, b := t / m, s / m;
    assert t == a * m + t % m && s == b * m + s % m;
    assert t - s == (a - b) * m + (t % m - s % m);
    if t % m >= s % m {
      ModOf(t - s, a - b, t % m - s % m);
    } else {
      assert t - s == (a - b - 1) * m + (t % m - s % m + m);
      ModOf(t - s, a - b - 1, t % m - s % m + m);
    }
  }

  lemma ModOf(x: int, q: int, r: int)
    requires x == q * 0x1_0000_0000 + r && 0 <= r < 0x1_0000_0000
    ensures x % 0x1_0000_0000 == r
  {
  }

  /** Never early, and certain to be seen by a poll within one wrap. */
  lemma ElapsedMeans(s: nat, t: nat, duration: Tick)
    requires s <= t
    ensures HasElapsed(Clock(t), Clock(s), duration) ==> t - s >= duration
    ensures duration <= t - s < WRAP ==> HasElapsed(Clock(t), Clock(s), duration)
    ensures HasElapsed(Clock(t), Clock(s), duration) <==> (t - s) % WRAP >= duration
  {
    SinceIsTrue(s, t);
  }

  datatype Timer = Timer(started: Tick, duration: Tick, active: bool)

  const OFF := Timer(0, 0, false)

  function Fired(timer: Timer, now: Tick): bool {
    timer.active && HasElapsed(now, timer.started, timer.duration)
  }

  class RuntimeTimer {
    var started: Tick
    var duration: Tick
    var active: bool

    constructor ()
      ensures Contents() == OFF
    {
      started, duration, active := 0, 0, false;
    }

    function Contents(): Timer
      reads this
    {
      Timer(started, duration, active)
    }

    method Start(now: Tick, length: Tick)
      modifies this
      ensures Contents() == Timer(now, length, true)
    {
      started, duration, active := now, length, true;
    }

    method Cancel()
      modifies this
      ensures Contents() == old(Contents()).(active := false)
    {
      active := false;
    }

    method Elapsed(now: Tick) returns (r: bool)
      ensures r == Fired(Contents(), now)
    {
      r := active && HasElapsed(now, started, duration);
    }
  }
}

/** The staged completion of a feed: `feed_completion.cpp`. */
module FeedCompletion {
  import opened Common
  import opened Timers

  datatype Stage = Idle | PreSignalDelay | SignalHigh | NotificationDelay

  datatype Event = None | RaiseSignal | LowerSignal | Notify

  datatype Config = Config(airDrop: bool, preSignal: Tick, signal: Tick, notification: Tick)

  datatype Feed = Feed(stage: Stage, config: Config, timer: Timer)

  function Started(f: Feed, now: Tick, c: Config): (Feed, bool) {
    if !f.stage.Idle? then (f, false)
    else if c.airDrop then (Feed(PreSignalDelay, c, Timer(now, c.preSignal, true)), true)
    else (Feed(NotificationDelay, c, Timer(now, c.notification, true)), true)
  }

  function Updated(f: Feed, now: Tick): (Feed, Event) {
    if !Fired(f.timer, now) then (f, Event.None)
    else match f.stage
      case PreSignalDelay => (f.(stage := SignalHigh, timer := Timer(now, f.config.signal, true)), RaiseSignal)
      case SignalHigh => (f.(stage := NotificationDelay, timer := Timer(now, f.config.notification, true)), LowerSignal)
      case NotificationDelay => (f.(stage := Idle, timer := f.timer.(active := false)), Notify)
      case Idle => (f, Event.None)
  }

  function Cancelled(f: Feed): Feed {
    f.(stage := Idle, timer := f.timer.(active := false))
  }

  class FeedCompletion {
    var stage: Stage
    var config: Config
    var timer: Timer

    constructor ()
      ensures Contents() == Feed(Idle, Config(false, 0, 0, 0), OFF)
    {
      stage, config, timer := Idle, Config(false, 0, 0, 0), OFF;
    }

    function Contents(): Feed
      reads this
    {
      Feed(stage, config, timer)
    }

    method Start(now: Tick, c: Config) returns (ok: bool)
      modifies this
      ensures (Contents(), ok) == Started(old(Contents()), now, c)
    {
      if !stage.Idle? { return false; }
      config := c;
      if c.airDrop {
        stage := PreSignalDelay;
        timer := Timer(now, c.preSignal, true);
      } else {
        stage := NotificationDelay;
        timer := Timer(now, c.notification, true);
      }
      return true;
    }

    method Update(now: Tick) returns (e: Event)
      modifies this
      ensures (Contents(), e) == Updated(old(Contents()), now)
    {
      if !Fired(timer, now) { return Event.None; }
      match stage
      case PreSignalDelay =>
        stage := SignalHigh;
        timer := Timer(now, config.signal, true);
        return RaiseSignal;
      case SignalHigh =>
        stage := NotificationDelay;
        timer := Timer(now, config.notification, true);
        return LowerSignal;
      case NotificationDelay =>
        timer := timer.(active := false);
        stage := Idle;
        return Notify;
      case Idle =>
        return Event.None;
    }

    method Cancel()
      modifies this
      ensures Contents() == Cancelled(old(Contents()))
    {
      timer := timer.(active := false);
      stage := Idle;
    }
  }

  // ---------- whole completions ----------

  /** A stage ends with an event, no earlier than its delay after the previous one. */
  datatype Due = Due(event: Event, delay: Tick)

  function Plan(c: Config): seq<Due> {
    (if c.airDrop then [Due(RaiseSignal, c.preSignal), Due(LowerSignal, c.signal)] else [])
    + [Due(Notify, c.notification)]
  }

  /** How many events of its plan a stage has behind it. */
  function Behind(stage: Stage, c: Config): nat {
    match stage
    case PreSignalDelay => 0
    case SignalHigh => 1
    case NotificationDelay => if c.airDrop then 2 else 0
    case Idle => |Plan(c)|
  }

  datatype Emitted = Emitted(event: Event, at: nat)

  /** When the stage in progress began: at the last event, or at the start. */
  function Began(from: nat, out: seq<Emitted>): nat {
    if out == [] then from else out[|out| - 1].at
  }

  /** Every event is the next one of the plan and not early. */
  predicate Honours(from: nat, c: Config, out: seq<Emitted>) {
    && |out| <= |Plan(c)|
    && forall i :: 0 <= i < |out| ==>
         out[i].event == Plan(c)[i].event && out[i].at >= Began(from, out[..i]) + Plan(c)[i].delay
  }

  predicate Follows(f: Feed, from: nat, c: Config, out: seq<Emitted>) {
    && f.config == c && Behind(f.stage, c) == |out| && (f.stage.PreSignalDelay? || f.stage.SignalHigh? ==> c.airDrop)
    && (!f.stage.Idle? ==> f.timer == Timer(Clock(Began(from, out)), Plan(c)[|out|].delay, true))
    && (f.stage.Idle? ==> !f.timer.active)
  }

  lemma UpdateFollows(f: Feed, from: nat, c: Config, out: seq<Emitted>, t: nat)
    requires Follows(f, from, c, out) && Honours(from, c, out) && Began(from, out) <= t
    ensures var (g, e) := Updated(f, Clock(t));
            var more := out + if e.None? then [] else [Emitted(e, t)];
            Follows(g, from, c, more) && Honours(from, c, more)
  {
    var (g, e) := Updated(f, Clock(t));
    if !e.None? {
      ElapsedMeans(Began(from, out), t, f.timer.duration);
      var more := out + [Emitted(e, t)];
      assert more[..|out|] == out;
      assert forall i :: 0 <= i < |out| ==> more[i] == out[i] && more[..i] == out[..i];
    } else {
      assert out + [] == out;
    }
  }

  // ---------- runs ----------

  /** A call at a true time. */
  datatype Act = Starts(at: nat, config: Config) | Polls(at: nat) | Cancels(at: nat)

  /** A completion since its accepted start: the configuration given then, and what was emitted. */
  datatype Session = Session(from: nat, config: Config, out: seq<Emitted>)

  /** The machine, the completion in progress, the earlier ones, and events that belong to none. */
  datatype Track = Track(feed: Feed, current: Option<Session>, past: seq<Session>, stray: seq<Emitted>)

  function Archived(k: Track): seq<Session> {
    if k.current.Some? then k.past + [k.current.value] else k.past
  }

  function Step(k: Track, a: Act): Track {
    match a
    case Starts(t, c) =>
      var (f, accepted) := Started(k.feed, Clock(t), c);
      if accepted then Track(f, Some(Session(t, c, [])), Archived(k), k.stray) else k.(feed := f)
    case Cancels(_) => Track(Cancelled(k.feed), Option.None, Archived(k), k.stray)
    case Polls(t) =>
      var (f, e) := Updated(k.feed, Clock(t));
      if e.None? then k.(feed := f)
      else if k.current.None? then k.(feed := f, stray := k.stray + [Emitted(e, t)])
      else k.(feed := f, current := Some(k.current.value.(out := k.current.value.out + [Emitted(e, t)])))
  }

  function Run(acts: seq<Act>): Track {
    if acts == [] then Track(Feed(Idle, Config(false, 0, 0, 0), OFF), Option.None, [], [])
    else Step(Run(acts[..|acts| - 1]), acts[|acts| - 1])
  }

  predicate Rising(acts: seq<Act>) {
    forall i, j :: 0 <= i < j < |acts| ==> acts[i].at <= acts[j].at
  }

  function Latest(acts: seq<Act>): nat {
    if acts == [] then 0 else acts[|acts| - 1].at
  }

  predicate Honest(s: Session) {
    Honours(s.from, s.config, s.out)
  }

  /** Every completion honours its plan, and the machine stands where the current one says. */
  predicate Good(k: Track, now: nat) {
    && k.stray == []
    && (forall i :: 0 <= i < |k.past| ==> Honest(k.past[i]))
    && (k.current.None? ==> k.feed.stage.Idle? && !k.feed.timer.active)
    && (k.current.Some? ==>
          var s := k.current.value;
          Honest(s) && Follows(k.feed, s.from, s.config, s.out) && Began(s.from, s.out) <= now)
  }

  lemma GoodStep(k: Track, now: nat, a: Act)
    requires Good(k, now) && now <= a.at
    ensures Good(Step(k, a), a.at)
  {
    match a
    case Polls(t) =>
      if k.current.Some? {
        var s := k.current.value;
        UpdateFollows(k.feed, s.from, s.config, s.out, t);
        if Updated(k.feed, Clock(t)).1.None? { assert s.out + [] == s.out; }
      }
    case Starts(_, _) =>
    case Cancels(_) =>
  }

  lemma {:induction false} AlwaysGood(acts: seq<Act>)
    requires Rising(acts)
    ensures Good(Run(acts), Latest(acts))
  {
    if acts != [] {
      var before, a := acts[..|acts| - 1], acts[|acts| - 1];
      AlwaysGood(before);
      assert Latest(before) <= a.at;
      GoodStep(Run(before), Latest(before), a);
    }
  }

  /**
   In every run of starts, polls and cancels: each accepted start emits its stages once, in
   order and never before the delay it was given has truly passed, and nothing else is ever
   emitted. A start that is refused changes neither the plan nor the machine.
   */
  lemma StagesInOrder(acts: seq<Act>)
    requires Rising(acts)
    ensures var k := Run(acts);
            && k.stray == []
            && (forall i :: 0 <= i < |k.past| ==> Honours(k.past[i].from, k.past[i].config, k.past[i].out))
            && (k.current.Some? ==> Honours(k.current.value.from, k.current.value.config, k.current.value.out))
    ensures forall t, c :: !Run(acts).feed.stage.Idle? ==> Step(Run(acts), Starts(t, c)) == Run(acts)
  {
    AlwaysGood(acts);
    forall i | 0 <= i < |Run(acts).past|
      ensures Honours(Run(acts).past[i].from, Run(acts).past[i].config, Run(acts).past[i].out)
    {
      assert Honest(Run(acts).past[i]);
    }
  }

  /** The stage in progress ends at the first poll whose true elapsed time lies between its delay and one wrap. */
  lemma StageEndsInTime(acts: seq<Act>, t: nat)
    requires Rising(acts) && Latest(acts) <= t && Run(acts).current.Some?
    ensures var s := Run(acts).current.value;
            |s.out| < |Plan(s.config)| && Plan(s.config)[|s.out|].delay <= t - Began(s.from, s.out) < WRAP ==>
              Step(Run(acts), Polls(t)).current == Some(s.(out := s.out + [Emitted(Plan(s.config)[|s.out|].event, t)]))
  {
    AlwaysGood(acts);
    var s := Run(acts).current.value;
    if |s.out| < |Plan(s.config)| && Plan(s.config)[|s.out|].delay <= t - Began(s.from, s.out) < WRAP {
      ElapsedMeans(Began(s.from, s.out), t, Run(acts).feed.timer.duration);
    }
  }
}

/** Settling of the case sensor: `proximity_settler.cpp`. */
module ProximitySettler {
  import opened Common
  import opened Timers

  datatype Settler = Settler(sensor: bool, required: bool, absent: bool, absentSince: Tick, settle: Timer)

  const FRESH := Settler(false, false, false, 0, OFF)

  function Observed(s: Settler, now: Tick, active: bool, timeout: Tick): Settler {
    var a := s.(sensor := active);
    if active then a.(absent := false)
    else
      var b := a.(settle := a.settle.(active := false));
      if b.required then b
      else
        var c := if b.absent then b else b.(absent := true, absentSince := now);
        if Since(now, c.absentSince) > timeout then c.(absent := false, required := true) else c
  }

  function Asked(s: Settler, now: Tick, duration: Tick, bypass: bool): (Settler, bool) {
    if bypass then (s, true)
    else if !s.sensor then (s, false)
    else if !s.required then (s, true)
    else
      var a := if s.settle.active then s else s.(settle := Timer(now, duration, true));
      if !Fired(a.settle, now) then (a, false)
      else (a.(settle := a.settle.(active := false), required := false), true)
  }

  function Reset(s: Settler): Settler {
    Settler(false, false, false, 0, s.settle.(active := false))
  }

  class ProximitySettler {
    var sensor: bool
    var required: bool
    var absent: bool
    var absentSince: Tick
    var settle: Timer

    constructor ()
      ensures Contents() == FRESH
    {
      sensor, required, absent, absentSince, settle := false, false, false, 0, OFF;
    }

    function Contents(): Settler
      reads this
    {
      Settler(sensor, required, absent, absentSince, settle)
    }

    method Observe(now: Tick, active: bool, timeout: Tick)
      modifies this
      ensures Contents() == Observed(old(Contents()), now, active, timeout)
    {
      sensor := active;
      if sensor {
        absent := false;
        return;
      }
      settle := settle.(active := false);
      if required { return; }
      if !absent {
        absent := true;
        absentSince := now;
      }
      if Since(now, absentSince) > timeout {
        absent := false;
        required := true;
      }
    }

    method Ready(now: Tick, duration: Tick, bypass: bool) returns (r: bool)
      modifies this
      ensures (Contents(), r) == Asked(old(Contents()), now, duration, bypass)
    {
      if bypass { return true; }
      if !sensor { return false; }
      if !required { return true; }
      if !settle.active { settle := Timer(now, duration, true); }
      if !Fired(settle, now) { return false; }
      settle := settle.(active := false);
      required := false;
      return true;
    }

    method Clear()
      modifies this
      ensures Contents() == Reset(old(Contents()))
    {
      sensor, required, absent, absentSince := false, false, false, 0;
      settle := settle.(active := false);
    }
  }

  // ---------- runs ----------

  datatype Call =
    | Observes(at: nat, active: bool, timeout: Tick)
    | Asks(at: nat, duration: Tick, bypass: bool)
    | Resets(at: nat)

  function Run(calls: seq<Call>): Settler {
    if calls == [] then FRESH
    else
      var s := Run(calls[..|calls| - 1]);
      match calls[|calls| - 1]
      case Observes(t, active, timeout) => Observed(s, Clock(t), active, timeout)
      case Asks(t, duration, bypass) => Asked(s, Clock(t), duration, bypass).0
      case Resets(_) => Reset(s)
  }

  predicate Rising(calls: seq<Call>) {
    forall i, j :: 0 <= i < j < |calls| ==> calls[i].at <= calls[j].at
  }

  /** What the last observation since the last reset saw. */
  function LastSeen(calls: seq<Call>): bool {
    if calls == [] then false
    else match calls[|calls| - 1]
      case Observes(_, active, _) => active
      case Asks(_, _, _) => LastSeen(calls[..|calls| - 1])
      case Resets(_) => false
  }

  lemma {:induction false} SensorIsLastSeen(calls: seq<Call>)
    ensures Run(calls).sensor == LastSeen(calls)
  {
    if calls != [] { SensorIsLastSeen(calls[..|calls| - 1]); }
  }

  /** Call `k` asked for a required settle that nobody had begun, with the sensor seen active. */
  predicate SettleBegins(calls: seq<Call>, k: nat) {
    && k < |calls| && calls[k].Asks? && !calls[k].bypass
    && LastSeen(calls[..k]) && Run(calls[..k]).required && !Run(calls[..k]).settle.active
  }

  /** From call `k` on nothing reset the settler and every observation was active. */
  predicate Undisturbed(calls: seq<Call>, k: nat) {
    forall j :: k < j < |calls| ==> !calls[j].Resets? && (calls[j].Observes? ==> calls[j].active)
  }

  /** The settle in progress: begun at call `k`, undisturbed, and not begun anew since. */
  predicate SettlingSince(calls: seq<Call>, k: nat) {
    SettleBegins(calls, k) && Undisturbed(calls, k) && forall j :: k < j < |calls| ==> Run(calls[..j]).settle.active
  }

  ghost predicate Accounted(calls: seq<Call>) {
    Run(calls).settle.active ==>
      && Run(calls).sensor && Run(calls).required
      && exists k: nat :: SettlingSince(calls, k)
          && Run(calls).settle == Timer(Clock(calls[k].at), calls[k].duration, true)
  }

  lemma SettlingGrows(calls: seq<Call>, k: nat, c: Call)
    requires SettlingSince(calls, k) && Run(calls).settle.active && !c.Resets? && (c.Observes? ==> c.active)
    ensures SettlingSince(calls + [c], k) && (calls + [c])[k] == calls[k]
  {
    var all := calls + [c];
    assert all[..k] == calls[..k];
    forall j | k < j < |all| ensures Run(all[..j]).settle.active {
      if j < |calls| { assert all[..j] == calls[..j]; } else { assert all[..j] == calls; }
    }
  }

  lemma SettlingStarts(calls: seq<Call>, c: Call)
    requires c.Asks? && !c.bypass && Run(calls).sensor && Run(calls).required && !Run(calls).settle.active
    ensures SettlingSince(calls + [c], |calls|)
  {
    SensorIsLastSeen(calls);
    assert (calls + [c])[..|calls|] == calls;
  }

  lemma {:induction false} AlwaysAccounted(calls: seq<Call>)
    ensures Accounted(calls)
  {
    if calls != [] {
      var before, c := calls[..|calls| - 1], calls[|calls| - 1];
      AlwaysAccounted(before);
      assert calls == before + [c];
      if Run(calls).settle.active {
        if Run(before).settle.active {
          var k: nat :| SettlingSince(before, k)
              && Run(before).settle == Timer(Clock(before[k].at), before[k].duration, true);
          SettlingGrows(before, k, c);
        } else {
          SettlingStarts(before, c);
        }
      }
    }
  }

  /** The duration of the settle that a question at this point would find over. */
  function DurationInForce(s: Settler, duration: Tick): Tick {
    if s.settle.active then s.settle.duration else duration
  }

  /** The settle that ends with the last call: its beginning, its duration, and the time since. */
  predicate SettledBy(all: seq<Call>, k: nat, duration: Tick) {
    SettlingSince(all, k) && all[k].duration == duration && all[|all| - 1].at - all[k].at >= duration
  }

  /**
   When a required settle is reported over without a bypass, there is the call at which this
   very settle began, with the sensor seen active; since then nothing reset the settler, every
   observation was active, and the duration asked for at the beginning has truly passed.
   */
  lemma SettledForTheWholeDuration(calls: seq<Call>, t: nat, duration: Tick)
    requires Rising(calls + [Asks(t, duration, false)])
    requires Run(calls).required && Asked(Run(calls), Clock(t), duration, false).1
    ensures exists k: nat :: SettledBy(calls + [Asks(t, duration, false)], k, DurationInForce(Run(calls), duration))
  {
    var c := Asks(t, duration, false);
    var all := calls + [c];
    var s := Run(calls);
    AlwaysAccounted(calls);
    if s.settle.active {
      var k: nat :| SettlingSince(calls, k) && s.settle == Timer(Clock(calls[k].at), calls[k].duration, true);
      SettlingGrows(calls, k, c);
      assert all[k].at <= all[|calls|].at;
      ElapsedMeans(calls[k].at, t, calls[k].duration);
      assert SettledBy(all, k, DurationInForce(s, duration));
    } else {
      SettlingStarts(calls, c);
      ElapsedMeans(t, t, duration);
      assert SettledBy(all, |calls|, DurationInForce(s, duration));
    }
  }
}
