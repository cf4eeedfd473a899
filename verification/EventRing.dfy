/**
 The daemon's bounded event ring: `events.py`. An event is its identifier.

 `publish` has two phases: the identifier is taken and the subscribers are listed under the
 ring lock, then the event is offered to each of them outside it. Every phase is one step;
 publishers, subscribers and consumers interleave freely.
 */
module EventRing {
  import opened Common

  // ---------- one subscriber ----------

  datatype Sub = Sub(pending: seq<nat>, overflowed: bool, closed: bool)

  function OfferTo(s: Sub, capacity: nat, event: nat): Sub {
    if s.closed then s
    else if |s.pending| >= capacity then s.(pending := [], overflowed := true)
    else s.(pending := s.pending + [event])
  }

  function PrimeWith(s: Sub, capacity: nat, events: seq<nat>): Sub {
    if |events| > capacity then s.(overflowed := true) else s.(pending := s.pending + events)
  }

  function DrainFrom(s: Sub): (Sub, seq<nat>) {
    if s.overflowed || s.closed then (s, []) else (s.(pending := []), s.pending)
  }

  class Subscriber {
    const capacity: nat
    var pending: seq<nat>
    var overflowed: bool
    var closed: bool

    constructor (capacity: nat)
      ensures this.capacity == capacity && Contents() == Sub([], false, false)
    {
      this.capacity := capacity;
      pending, overflowed, closed := [], false, false;
    }

    function Contents(): Sub
      reads this
    {
      Sub(pending, overflowed, closed)
    }

    method Offer(event: nat)
      modifies this
      ensures Contents() == OfferTo(old(Contents()), capacity, event)
    {
      if closed { return; }
      if |pending| >= capacity {
        pending := [];
        overflowed := true;
      } else {
        pending := pending + [event];
      }
    }

    method Prime(events: seq<nat>)
      modifies this
      ensures Contents() == PrimeWith(old(Contents()), capacity, events)
    {
      if |events| > capacity {
        overflowed := true;
        return;
      }
      pending := pending + events;
    }

    method Drain() returns (drained: seq<nat>)
      modifies this
      ensures (Contents(), drained) == DrainFrom(old(Contents()))
    {
      if overflowed || closed { return []; }
      drained := pending;
      pending := [];
    }
  }

  // ---------- the ring ----------

  type Id = n: nat | n >= 1 witness 1

  /** A subscriber together with where it started and what its consumer has received. */
  datatype Track = Track(sub: Sub, cursor: nat, received: seq<nat>)

  datatype Ring = Ring(
    retention: nat,
    capacity: nat,
    next: Id,
    retained: seq<nat>,
    tracks: map<nat, Track>,
    attached: set<nat>,
    offers: set<(nat, nat)>)      // (event, subscriber): listed, not yet offered

  function Init(retention: nat, capacity: nat): Ring {
    Ring(retention, capacity, 1, [], map[], {}, {})
  }

  /** `deque(maxlen=retention)`. */
  function Retain(kept: seq<nat>, retention: nat, event: nat): seq<nat> {
    var all := kept + [event];
    if |all| > retention then all[|all| - retention..] else all
  }

  function After(events: seq<nat>, cursor: nat): seq<nat> {
    if events == [] then []
    else (if events[0] > cursor then [events[0]] else []) + After(events[1..], cursor)
  }

  lemma {:induction false} AfterAppend(events: seq<nat>, e: nat, cursor: nat)
    ensures After(events + [e], cursor) == After(events, cursor) + if e > cursor then [e] else []
  {
    if events == [] {
      assert [e][1..] == [];
    } else {
      assert (events + [e])[1..] == events[1..] + [e];
      AfterAppend(events[1..], e, cursor);
    }
  }

  /** The retained window and the next identifier, as the ring object keeps them. */
  class EventLog {
    const retention: nat
    var next: Id
    var retained: seq<nat>

    constructor (retention: nat)
      ensures this.retention == retention && next == 1 && retained == []
    {
      this.retention := retention;
      next, retained := 1, [];
    }

    method Append() returns (event: nat)
      modifies this
      ensures event == old(next) && next == old(next) + 1 && retained == Retain(old(retained), retention, event)
    {
      event := next;
      next := next + 1;
      retained := retained + [event];
      if |retained| > retention { retained := retained[|retained| - retention..]; }
    }

    /** The backlog a cursor is owed. */
    method Backlog(after: nat) returns (missed: seq<nat>)
      ensures missed == After(retained, after)
    {
      missed := [];
      for i := 0 to |retained|
        invariant missed == After(retained[..i], after)
      {
        AfterAppend(retained[..i], retained[i], after);
        assert retained[..i + 1] == retained[..i] + [retained[i]];
        if retained[i] > after { missed := missed + [retained[i]]; }
      }
      assert retained[..|retained|] == retained;
    }
  }

  /** The first phase of `publish`. */
  function Publish(r: Ring): Ring {
    r.(next := r.next + 1,
       retained := Retain(r.retained, r.retention, r.next),
       offers := r.offers + set s | s in r.attached :: (r.next, s))
  }

  /** `subscribe`: a cursor that cannot be resumed without a gap starts out overflowed. */
  function Subscribed(r: Ring, after: Option<nat>): Track {
    var empty := Sub([], false, false);
    match after
    case None => Track(empty, r.next - 1, [])
    case Some(c) =>
      var oldest := if r.retained == [] then r.next else r.retained[0];
      if c >= r.next || c + 1 < oldest then Track(empty.(overflowed := true), c, [])
      else Track(PrimeWith(empty, r.capacity, After(r.retained, c)), c, [])
  }

  datatype Label =
    | Publishes
    | Offers(event: nat, id: nat)
    | Subscribes(id: nat, after: Option<nat>)
    | Drains(id: nat)
    | Closes(id: nat)
    | Unsubscribes(id: nat)

  function Step(r: Ring, l: Label): Option<Ring> {
    match l
    case Publishes => Some(Publish(r))
    case Offers(e, id) =>
      if (e, id) !in r.offers || id !in r.tracks then None else
      var k := r.tracks[id];
      Some(r.(offers := r.offers - {(e, id)}, tracks := r.tracks[id := k.(sub := OfferTo(k.sub, r.capacity, e))]))
    case Subscribes(id, after) =>
      if id in r.tracks then None
      else Some(r.(tracks := r.tracks[id := Subscribed(r, after)], attached := r.attached + {id}))
    case Drains(id) =>
      if id !in r.tracks then None else
      var k := r.tracks[id];
      var (s, got) := DrainFrom(k.sub);
      Some(r.(tracks := r.tracks[id := k.(sub := s, received := k.received + got)]))
    case Closes(id) =>
      if id !in r.tracks then None
      else Some(r.(tracks := r.tracks[id := r.tracks[id].(sub := r.tracks[id].sub.(closed := true))]))
    case Unsubscribes(id) =>
      if id !in r.tracks || !r.tracks[id].sub.closed then None else Some(r.(attached := r.attached - {id}))
  }

  function Exec(r: Ring, labels: seq<Label>): Option<Ring>
    decreases |labels|
  {
    if labels == [] then Some(r)
    else match Step(r, labels[0])
      case None => None
      case Some(t) => Exec(t, labels[1..])
  }

  // ---------- nothing is lost silently ----------

  function Count(events: seq<nat>, e: nat): nat {
    multiset(events)[e]
  }

  /** Received, waiting, or about to be offered: every event after the cursor, once. */
  predicate Complete(r: Ring, id: nat, e: nat)
    requires id in r.tracks
  {
    var k := r.tracks[id];
    Count(k.received, e) + Count(k.sub.pending, e) + (if (e, id) in r.offers then 1 else 0)
    == if k.cursor < e < r.next then 1 else 0
  }

  /** What is retained is the contiguous end of what was published. */
  predicate Window(r: Ring) {
    && |r.retained| <= r.retention
    && (r.retained == [] ==> r.next == 1 || r.retention == 0)
    && |r.retained| < r.next
    && forall i :: 0 <= i < |r.retained| ==> r.retained[i] == r.next - |r.retained| + i
  }

  ghost predicate Tidy(r: Ring) {
    && Window(r)
    && (forall o :: o in r.offers ==> o.0 < r.next && o.1 in r.tracks)
    && (forall id :: id in r.attached ==> id in r.tracks)
    && (forall id :: id in r.tracks && !r.tracks[id].sub.closed ==> id in r.attached)
    && (forall id :: id in r.tracks ==> |r.tracks[id].sub.pending| <= r.capacity)
    && (forall id :: id in r.tracks && !r.tracks[id].sub.overflowed ==> r.tracks[id].cursor < r.next)
  }

  /** An open subscriber that was not told to reconcile. */
  predicate Healthy(r: Ring, id: nat) {
    id in r.tracks && !r.tracks[id].sub.overflowed && !r.tracks[id].sub.closed
  }

  ghost predicate Good(r: Ring) {
    Tidy(r) && r.retention >= 1 && forall id, e :: Healthy(r, id) ==> Complete(r, id, e)
  }

  /** A run of consecutive identifiers. */
  predicate RunFrom(events: seq<nat>, first: nat) {
    forall i :: 0 <= i < |events| ==> events[i] == first + i
  }

  lemma {:induction false} AfterRun(events: seq<nat>, first: nat, cursor: nat)
    requires RunFrom(events, first) && first <= cursor + 1
    ensures RunFrom(After(events, cursor), cursor + 1)
    ensures |After(events, cursor)| == if cursor + 1 <= first + |events| then first + |events| - (cursor + 1) else 0
  {
    if events != [] {
      if first <= cursor {
        assert RunFrom(events[1..], first + 1);
        AfterRun(events[1..], first + 1, cursor);
      } else {
        AfterAll(events, cursor);
      }
    }
  }

  lemma {:induction false} AfterAll(events: seq<nat>, cursor: nat)
    requires forall i :: 0 <= i < |events| ==> events[i] > cursor
    ensures After(events, cursor) == events
  {
    if events != [] { AfterAll(events[1..], cursor); }
  }

  lemma {:induction false} CountRun(events: seq<nat>, first: nat, e: nat)
    requires RunFrom(events, first)
    ensures Count(events, e) == if first <= e < first + |events| then 1 else 0
  {
    if events != [] {
      var n := |events| - 1;
      CountRun(events[..n], first, e);
      assert events == events[..n] + [events[n]];
    }
  }

  /** A resumed subscriber is primed with the run from its cursor to the newest event. */
  lemma ResumeInOrder(r: Ring, c: nat)
    requires Window(r) && r.retention >= 1 && !Subscribed(r, Some(c)).sub.overflowed
    ensures RunFrom(Subscribed(r, Some(c)).sub.pending, c + 1)
    ensures |Subscribed(r, Some(c)).sub.pending| + c + 1 == r.next
    ensures |Subscribed(r, Some(c)).sub.pending| <= r.capacity
  {
    assert RunFrom(r.retained, r.next - |r.retained|);
    AfterRun(r.retained, r.next - |r.retained|, c);
  }

  /** A resumed subscriber starts with exactly the events after its cursor, or overflowed. */
  lemma ResumeIsComplete(r: Ring, c: nat, e: nat)
    requires Window(r) && r.retention >= 1 && !Subscribed(r, Some(c)).sub.overflowed
    ensures Count(Subscribed(r, Some(c)).sub.pending, e) == if c < e < r.next then 1 else 0
    ensures |Subscribed(r, Some(c)).sub.pending| <= r.capacity
  {
    ResumeInOrder(r, c);
    CountRun(Subscribed(r, Some(c)).sub.pending, c + 1, e);
  }

  lemma WindowSlides(r: Ring)
    requires Window(r) && r.retention >= 1
    ensures Window(Publish(r))
  {
  }

  lemma TidyStep(r: Ring, l: Label, t: Ring)
    requires Tidy(r) && r.retention >= 1 && Step(r, l) == Some(t)
    ensures Tidy(t)
  {
    match l
    case Publishes => WindowSlides(r);
    case Subscribes(id, after) =>
      if after.Some? && !Subscribed(r, after).sub.overflowed { ResumeIsComplete(r, after.value, 0); }
    case _ =>
  }

  lemma CompleteStep(r: Ring, l: Label, t: Ring, id: nat, e: nat)
    requires Good(r) && Step(r, l) == Some(t) && Healthy(t, id)
    ensures Complete(t, id, e)
  {
    assert Healthy(r, id) ==> Complete(r, id, e);
    match l
    case Publishes => assert Healthy(r, id);
    case Offers(x, j) => assert (x, j) in r.offers;
    case Subscribes(j, after) =>
      if j == id {
        assert (e, id) !in r.offers;
        if after.Some? { ResumeIsComplete(r, after.value, e); }
      }
    case Drains(j) =>
    case Closes(j) =>
    case Unsubscribes(j) =>
  }

  lemma GoodStep(r: Ring, l: Label, t: Ring)
    requires Good(r) && Step(r, l) == Some(t)
    ensures Good(t)
  {
    TidyStep(r, l, t);
    forall id, e | Healthy(t, id) ensures Complete(t, id, e) { CompleteStep(r, l, t, id, e); }
  }

  lemma {:induction false} GoodRun(r: Ring, labels: seq<Label>, t: Ring)
    requires Good(r) && Exec(r, labels) == Some(t)
    ensures Good(t)
    decreases |labels|
  {
    if labels != [] {
      var m := Step(r, labels[0]).value;
      GoodStep(r, labels[0], m);
      GoodRun(m, labels[1..], t);
    }
  }

  /**
   In every interleaving an open subscriber that is not flagged overflowed has received, has
   waiting, or is about to be offered every event after its cursor exactly once, and its
   queue is bounded.
   */
  lemma LossIsNeverSilent(retention: nat, capacity: nat, labels: seq<Label>, r: Ring, id: nat, e: nat)
    requires retention >= 1 && Exec(Init(retention, capacity), labels) == Some(r) && Healthy(r, id)
    ensures Complete(r, id, e) && |r.tracks[id].sub.pending| <= capacity
  {
    GoodRun(Init(retention, capacity), labels, r);
    CapacityStays(Init(retention, capacity), labels, r);
  }

  lemma {:induction false} CapacityStays(r: Ring, labels: seq<Label>, t: Ring)
    requires Exec(r, labels) == Some(t)
    ensures t.capacity == r.capacity
    decreases |labels|
  {
    if labels != [] { CapacityStays(Step(r, labels[0]).value, labels[1..], t); }
  }

  // ---------- order ----------

  /** At most one event is on its way to the subscriber. */
  predicate AtMostOne(r: Ring, id: nat) {
    forall o, p :: o in r.offers && p in r.offers && o.1 == id && p.1 == id ==> o == p
  }

  /** Along the run no publish overtakes another one on its way to the subscriber. */
  ghost predicate NoOverlap(r: Ring, labels: seq<Label>, id: nat)
    decreases |labels|
  {
    && AtMostOne(r, id)
    && (labels == [] || (Step(r, labels[0]).Some? && NoOverlap(Step(r, labels[0]).value, labels[1..], id)))
  }

  function Stream(k: Track): seq<nat> {
    k.received + k.sub.pending
  }

  /** Received and waiting are a contiguous run from the cursor to the last event offered. */
  predicate Contiguous(r: Ring, id: nat)
    requires id in r.tracks
  {
    var k := r.tracks[id];
    && |Stream(k)| + k.cursor == r.next - (if (r.next - 1, id) in r.offers then 2 else 1)
    && RunFrom(Stream(k), k.cursor + 1)
  }

  predicate Ordered(r: Ring, id: nat) {
    Healthy(r, id) ==> Contiguous(r, id) && forall o :: o in r.offers && o.1 == id ==> o.0 == r.next - 1
  }

  lemma OrderPublish(r: Ring, id: nat)
    requires Tidy(r) && Healthy(r, id) && Ordered(r, id) && AtMostOne(Publish(r), id)
    ensures Ordered(Publish(r), id)
  {
    var t := Publish(r);
    assert (r.next, id) in t.offers;
    assert (r.next - 1, id) !in r.offers;
    assert t.tracks == r.tracks;
  }

  lemma OrderOffer(r: Ring, x: nat, j: nat, t: Ring, id: nat)
    requires Tidy(r) && Ordered(r, id) && Step(r, Offers(x, j)) == Some(t) && Healthy(t, id)
    ensures Ordered(t, id)
  {
    assert (x, j) in r.offers && Contiguous(r, id);
    if j == id {
      var k, m := r.tracks[id], t.tracks[id];
      assert x == r.next - 1;
      assert Stream(m) == Stream(k) + [x];
      assert (r.next - 1, id) !in t.offers;
    } else {
      assert t.tracks[id] == r.tracks[id];
      assert (r.next - 1, id) in t.offers <==> (r.next - 1, id) in r.offers;
    }
  }

  lemma OrderDrain(r: Ring, j: nat, t: Ring, id: nat)
    requires Ordered(r, id) && Step(r, Drains(j)) == Some(t) && Healthy(t, id)
    ensures Ordered(t, id)
  {
    assert Contiguous(r, id);
    if j == id {
      assert Stream(t.tracks[id]) == Stream(r.tracks[id]);
    } else {
      assert t.tracks[id] == r.tracks[id];
    }
  }

  lemma OrderSubscribe(r: Ring, j: nat, after: Option<nat>, t: Ring, id: nat)
    requires Tidy(r) && r.retention >= 1 && Ordered(r, id)
    requires Step(r, Subscribes(j, after)) == Some(t) && Healthy(t, id)
    ensures Ordered(t, id)
  {
    if j == id {
      assert (r.next - 1, id) !in r.offers;
      if after.Some? { ResumeInOrder(r, after.value); }
      assert Stream(t.tracks[id]) == t.tracks[id].sub.pending;
    } else {
      assert t.tracks[id] == r.tracks[id];
    }
  }

  lemma OrderStep(r: Ring, l: Label, t: Ring, id: nat)
    requires Tidy(r) && r.retention >= 1 && Ordered(r, id) && Step(r, l) == Some(t) && AtMostOne(t, id)
    ensures Ordered(t, id)
  {
    if Healthy(t, id) {
      match l
      case Publishes => OrderPublish(r, id);
      case Offers(x, j) => OrderOffer(r, x, j, t, id);
      case Subscribes(j, after) => OrderSubscribe(r, j, after, t, id);
      case Drains(j) => OrderDrain(r, j, t, id);
      case Closes(j) => assert t.tracks[id] == r.tracks[id];
      case Unsubscribes(_) =>
    }
  }

  lemma {:induction false} OrderRun(r: Ring, labels: seq<Label>, t: Ring, id: nat)
    requires Good(r) && Ordered(r, id) && NoOverlap(r, labels, id) && Exec(r, labels) == Some(t)
    ensures Ordered(t, id)
    decreases |labels|
  {
    if labels != [] {
      var m := Step(r, labels[0]).value;
      GoodStep(r, labels[0], m);
      OrderStep(r, labels[0], m, id);
      OrderRun(m, labels[1..], t, id);
    }
  }

  /** When its publishes do not overlap, a healthy subscriber receives the events after its cursor in order. */
  lemma DeliveredInOrder(retention: nat, capacity: nat, labels: seq<Label>, r: Ring, id: nat)
    requires retention >= 1 && NoOverlap(Init(retention, capacity), labels, id)
    requires Exec(Init(retention, capacity), labels) == Some(r) && Healthy(r, id)
    ensures RunFrom(r.tracks[id].received, r.tracks[id].cursor + 1)
  {
    OrderRun(Init(retention, capacity), labels, r, id);
    var k := r.tracks[id];
    assert RunFrom(Stream(k), k.cursor + 1);
    assert forall i :: 0 <= i < |k.received| ==> k.received[i] == Stream(k)[i];
  }

  lemma {:induction false} ExecAppend(r: Ring, labels: seq<Label>, l: Label)
    requires Exec(r, labels).Some?
    ensures Exec(r, labels + [l]) == Step(Exec(r, labels).value, l)
    decreases |labels|
  {
    if labels == [] {
      assert labels + [l] == [l] && [l][1..] == [];
    } else {
      assert (labels + [l])[0] == labels[0] && (labels + [l])[1..] == labels[1..] + [l];
      ExecAppend(Step(r, labels[0]).value, labels[1..], l);
    }
  }

  /** One offer to a subscriber with room. */
  lemma Offered(r: Ring, e: nat, id: nat) returns (t: Ring)
    requires Healthy(r, id) && (e, id) in r.offers && |r.tracks[id].sub.pending| < r.capacity
    ensures Step(r, Offers(e, id)) == Some(t) && Healthy(t, id) && t.capacity == r.capacity
    ensures t.tracks[id].sub.pending == r.tracks[id].sub.pending + [e] && t.tracks[id].received == r.tracks[id].received
    ensures forall f :: f != e && (f, id) in r.offers ==> (f, id) in t.offers
  {
    t := Step(r, Offers(e, id)).value;
  }

  /**
   Exactly there order can break: from every ring with two events on their way to a healthy
   subscriber that has room for both, a continuation hands them over the wrong way round.
   */
  lemma OverlapReorders(r: Ring, id: nat, e: nat, f: nat) returns (labels: seq<Label>, t: Ring)
    requires Healthy(r, id) && e < f && (e, id) in r.offers && (f, id) in r.offers
    requires |r.tracks[id].sub.pending| + 2 <= r.capacity
    ensures Exec(r, labels) == Some(t) && Healthy(t, id)
    ensures t.tracks[id].received == Stream(r.tracks[id]) + [f, e]
  {
    var a := Offered(r, f, id);
    var b := Offered(a, e, id);
    t := Step(b, Drains(id)).value;
    assert Exec(r, []) == Some(r);
    ExecAppend(r, [], Offers(f, id));
    ExecAppend(r, [] + [Offers(f, id)], Offers(e, id));
    labels := [] + [Offers(f, id)] + [Offers(e, id)] + [Drains(id)];
    ExecAppend(r, [] + [Offers(f, id)] + [Offers(e, id)], Drains(id));
    assert t.tracks[id].received == r.tracks[id].received + (r.tracks[id].sub.pending + [f] + [e]);
  }

  /** Two publishes right after a subscription leave such a ring. */
  lemma OverlapHappens(retention: nat, capacity: nat, id: nat) returns (labels: seq<Label>, r: Ring)
    ensures Exec(Init(retention, capacity), labels) == Some(r)
    ensures Healthy(r, id) && r.tracks[id].sub.pending == [] && (1, id) in r.offers && (2, id) in r.offers
  {
    var i := Init(retention, capacity);
    var a := Step(i, Subscribes(id, None)).value;
    var b := Step(a, Publishes).value;
    assert (1, id) in b.offers;
    r := Step(b, Publishes).value;
    assert (1, id) in r.offers && (2, id) in r.offers;
    assert Exec(i, []) == Some(i);
    ExecAppend(i, [], Subscribes(id, None));
    ExecAppend(i, [] + [Subscribes(id, None)], Publishes);
    labels := [] + [Subscribes(id, None)] + [Publishes] + [Publishes];
    ExecAppend(i, [] + [Subscribes(id, None)] + [Publishes], Publishes);
  }
}
