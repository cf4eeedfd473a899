/**
 The web process's event hub: `broadcast.ts`. It runs on one event loop, so every callback
 is one step. An event is its identifier.
 */
module EventBroadcast {
  import opened Common

  datatype Message = Event(id: nat) | Resync | Unavailable

  // ---------- one browser ----------

  datatype Backlog = Backlog(queue: seq<Message>, closed: bool)

  function OfferTo(b: Backlog, limit: nat, m: Message): Backlog {
    if b.closed then b
    else if |b.queue| >= limit then b.(queue := [Resync])
    else b.(queue := b.queue + [m])
  }

  /** Offering a whole opening to a new browser. */
  function OfferAll(b: Backlog, limit: nat, ms: seq<Message>): Backlog {
    if ms == [] then b else OfferTo(OfferAll(b, limit, ms[..|ms| - 1]), limit, ms[|ms| - 1])
  }

  class Subscriber {
    const limit: nat
    var queue: seq<Message>
    var closed: bool

    constructor (limit: nat)
      ensures this.limit == limit && Contents() == Backlog([], false)
    {
      this.limit := limit;
      queue, closed := [], false;
    }

    function Contents(): Backlog
      reads this
    {
      Backlog(queue, closed)
    }

    method Offer(m: Message)
      modifies this
      ensures Contents() == OfferTo(old(Contents()), limit, m)
    {
      if closed { return; }
      if |queue| >= limit { queue := [Resync]; } else { queue := queue + [m]; }
    }

    method OfferEach(ms: seq<Message>)
      modifies this
      ensures Contents() == OfferAll(old(Contents()), limit, ms)
    {
      for i := 0 to |ms|
        invariant Contents() == OfferAll(old(Contents()), limit, ms[..i])
      {
        assert ms[..i + 1][..i] == ms[..i];
        Offer(ms[i]);
      }
      assert ms[..|ms|] == ms;
    }

    /** One turn of `drain`; `None` when it has to wait or is done. */
    method Shift() returns (m: Option<Message>)
      modifies this
      ensures if old(queue) == [] then m == None && Contents() == old(Contents())
              else m == Some(old(queue)[0]) && Contents() == old(Contents()).(queue := old(queue)[1..])
    {
      if queue == [] { return None; }
      m := Some(queue[0]);
      queue := queue[1..];
    }
  }

  // ---------- the hub ----------

  /** A browser, the cursor its opening honoured, what it has been sent, and whether the hub still lists it. */
  datatype Browser = Browser(backlog: Backlog, start: Option<nat>, sent: seq<Message>, listed: bool)

  datatype Hub = Hub(
    replayCapacity: nat,
    limit: nat,
    replay: seq<nat>,
    browsers: map<nat, Browser>,
    attached: bool,
    position: Option<nat>)      // the last event the upstream reader was given since its last break

  function Init(replayCapacity: nat, limit: nat): Hub {
    Hub(replayCapacity, limit, [], map[], false, None)
  }

  function Find(events: seq<nat>, id: nat): Option<nat> {
    if events == [] then None
    else if events[0] == id then Some(0)
    else match Find(events[1..], id) case None => None case Some(k) => Some(k + 1)
  }

  function AsEvents(ids: seq<nat>): (ms: seq<Message>)
    ensures |ms| == |ids| && forall i :: 0 <= i < |ms| ==> ms[i] == Event(ids[i])
  {
    seq(|ids|, i requires 0 <= i < |ids| => Event(ids[i]))
  }

  /** `#opening`: what a newly attached browser is sent first. */
  function Opening(h: Hub, from: Option<nat>): (Option<nat>, seq<Message>) {
    if from.None? then (None, [Resync])
    else match Find(h.replay, from.value)
      case None => (None, [Resync])
      case Some(k) =>
        if k + 1 > |h.replay| || |h.replay[k + 1..]| > h.limit then (None, [Resync])
        else (from, AsEvents(h.replay[k + 1..]))
  }

  function LastOf(replay: seq<nat>): Option<nat> {
    if replay == [] then None else Some(replay[|replay| - 1])
  }

  /** `#attach`: a new reader resumes where the replay ends. */
  function Attach(h: Hub): Hub {
    if h.attached then h else h.(attached := true, position := LastOf(h.replay))
  }

  function Retain(replay: seq<nat>, capacity: nat, e: nat): seq<nat> {
    var all := replay + [e];
    if |all| > capacity then all[|all| - capacity..] else all
  }

  function FanOut(h: Hub, m: Message): Hub {
    h.(browsers := map id | id in h.browsers :: h.browsers[id].(backlog := OfferTo(h.browsers[id].backlog, h.limit, m)))
  }

  function CloseAll(h: Hub): Hub {
    h.(browsers := map id | id in h.browsers :: h.browsers[id].(backlog := h.browsers[id].backlog.(closed := true)))
  }

  function Unlist(h: Hub): Hub {
    h.(browsers := map id | id in h.browsers :: h.browsers[id].(listed := false))
  }

  datatype Label =
    | Subscribes(id: nat, from: Option<nat>)
    | Arrives(m: Message)              // the upstream reader yields
    | UpstreamEnds(failed: bool)
    | Sends(id: nat)                   // `drain` yields to the browser
    | Leaves(id: nat)                  // the browser's signal closes it
    | Removed(id: nat)                 // the generator's `finally`
    | Shutdown

  function Step(h: Hub, l: Label): Option<Hub> {
    match l
    case Subscribes(id, from) =>
      if id in h.browsers then None else
      var (start, opening) := Opening(h, from);
      var b := Browser(OfferAll(Backlog([], false), h.limit, opening), start, [], true);
      Some(Attach(h.(browsers := h.browsers[id := b])))
    case Arrives(m) =>
      if !h.attached then None else
      (match m
       case Event(e) =>
         // the upstream is contiguous until it says that it is not
         if h.position.Some? && e != h.position.value + 1 then None
         else Some(FanOut(h.(replay := Retain(h.replay, h.replayCapacity, e), position := Some(e)), m))
       case Resync => Some(FanOut(h.(replay := [], position := None), m))
       case Unavailable => Some(FanOut(h, m)))
    case UpstreamEnds(failed) =>
      if !h.attached then None
      else Some(CloseAll(if failed then FanOut(h, Unavailable) else h).(attached := false))
    case Sends(id) =>
      if id !in h.browsers || h.browsers[id].backlog.queue == [] then None else
      var b := h.browsers[id];
      var first, rest := b.backlog.queue[0], b.backlog.queue[1..];
      Some(h.(browsers := h.browsers[id := b.(backlog := b.backlog.(queue := rest), sent := b.sent + [first])]))
    case Leaves(id) =>
      if id !in h.browsers then None
      else Some(h.(browsers := h.browsers[id := h.browsers[id].(backlog := h.browsers[id].backlog.(closed := true))]))
    case Removed(id) =>
      if id !in h.browsers || !h.browsers[id].backlog.closed then None else
      var rest := h.browsers - {id};
      Some(h.(browsers := rest, attached := h.attached && exists j :: j in rest && rest[j].listed))
    case Shutdown => Some(Unlist(CloseAll(h)).(attached := false, replay := []))
  }

  function Exec(h: Hub, labels: seq<Label>): Option<Hub>
    decreases |labels|
  {
    if labels == [] then Some(h)
    else match Step(h, labels[0])
      case None => None
      case Some(t) => Exec(t, labels[1..])
  }

  // ---------- between two resyncs, a contiguous run ----------

  /** The last event since the last resync, beginning from the honoured cursor. */
  function Latest(start: Option<nat>, ms: seq<Message>): Option<nat> {
    if ms == [] then start
    else match ms[|ms| - 1]
      case Event(e) => Some(e)
      case Resync => None
      case Unavailable => Latest(start, ms[..|ms| - 1])
  }

  /** Every event follows on from the one before it, unless a resync lies between. */
  predicate Smooth(start: Option<nat>, ms: seq<Message>) {
    ms == [] ||
    var before, m := ms[..|ms| - 1], ms[|ms| - 1];
    Smooth(start, before) && (m.Event? && Latest(start, before).Some? ==> m.id == Latest(start, before).value + 1)
  }

  function Out(b: Browser): seq<Message> {
    b.sent + b.backlog.queue
  }

  /** The browser's view never has a gap it was not told about, and an open one is up to date. */
  predicate Served(h: Hub, b: Browser) {
    && Smooth(b.start, Out(b))
    && |b.backlog.queue| <= (if h.limit == 0 then 1 else h.limit)
    && (!b.backlog.closed ==>
          && h.attached && b.listed
          && (Latest(b.start, Out(b)).None? || Latest(b.start, Out(b)) == h.position))
  }

  predicate ReplayRuns(h: Hub) {
    && (forall i :: 0 <= i < |h.replay| - 1 ==> h.replay[i + 1] == h.replay[i] + 1)
    && (h.attached && h.replay != [] ==> h.position == LastOf(h.replay))
  }

  ghost predicate Good(h: Hub) {
    ReplayRuns(h) && forall id :: id in h.browsers ==> Served(h, h.browsers[id])
  }

  lemma SmoothMore(start: Option<nat>, ms: seq<Message>, m: Message)
    requires Smooth(start, ms) && (m.Event? && Latest(start, ms).Some? ==> m.id == Latest(start, ms).value + 1)
    ensures Smooth(start, ms + [m])
    ensures Latest(start, ms + [m]) ==
            match m case Event(e) => Some(e) case Resync => None case Unavailable => Latest(start, ms)
  {
    assert (ms + [m])[..|ms|] == ms;
  }

  lemma {:induction false} SmoothPrefix(start: Option<nat>, a: seq<Message>, b: seq<Message>)
    requires Smooth(start, a + b)
    ensures Smooth(start, a)
  {
    if b != [] {
      var c := b[..|b| - 1];
      assert (a + b)[..|a + b| - 1] == a + c;
      SmoothPrefix(start, a, c);
    } else {
      assert a + b == a;
    }
  }

  /** What the upstream's next message means for the position. */
  predicate Follows(h: Hub, t: Hub, m: Message) {
    match m
    case Event(e) => t.position == Some(e) && (h.position.Some? ==> e == h.position.value + 1)
    case Resync => true
    case Unavailable => t.position == h.position
  }

  lemma OverflowServes(h: Hub, t: Hub, b: Browser)
    requires Served(h, b) && h.limit == t.limit && t.attached && !b.backlog.closed
    ensures Served(t, b.(backlog := b.backlog.(queue := [Resync])))
  {
    SmoothPrefix(b.start, b.sent, b.backlog.queue);
    SmoothMore(b.start, b.sent, Resync);
  }

  lemma AppendServes(h: Hub, t: Hub, b: Browser, m: Message)
    requires Served(h, b) && h.limit == t.limit && t.attached && !b.backlog.closed && |b.backlog.queue| < h.limit
    requires Follows(h, t, m)
    ensures Served(t, b.(backlog := b.backlog.(queue := b.backlog.queue + [m])))
  {
    SmoothMore(b.start, Out(b), m);
    assert b.sent + (b.backlog.queue + [m]) == Out(b) + [m];
  }

  /** One message offered to an up-to-date browser. */
  lemma OfferServes(h: Hub, t: Hub, b: Browser, m: Message)
    requires Served(h, b) && h.limit == t.limit && (!b.backlog.closed ==> t.attached) && Follows(h, t, m)
    ensures Served(t, b.(backlog := OfferTo(b.backlog, h.limit, m)))
  {
    if !b.backlog.closed {
      if |b.backlog.queue| >= h.limit { OverflowServes(h, t, b); } else { AppendServes(h, t, b, m); }
    }
  }

  lemma FanOutServes(h: Hub, g: Hub, m: Message, id: nat)
    requires Good(h) && g.browsers == h.browsers && g.limit == h.limit && g.attached == h.attached && id in h.browsers
    requires Follows(h, g, m)
    ensures Served(FanOut(g, m), FanOut(g, m).browsers[id])
  {
    OfferServes(h, g, h.browsers[id], m);
  }

  lemma {:induction false} FindFinds(events: seq<nat>, id: nat)
    ensures match Find(events, id) case None => id !in events case Some(k) => k < |events| && events[k] == id
  {
    if events != [] && events[0] != id { FindFinds(events[1..], id); }
  }

  lemma {:induction false} OpeningQueues(limit: nat, ms: seq<Message>)
    requires |ms| <= limit
    ensures OfferAll(Backlog([], false), limit, ms) == Backlog(ms, false)
  {
    if ms != [] {
      OpeningQueues(limit, ms[..|ms| - 1]);
      assert ms == ms[..|ms| - 1] + [ms[|ms| - 1]];
    }
  }

  lemma {:induction false} RunIsSmooth(start: nat, ids: seq<nat>)
    requires forall i :: 0 <= i < |ids| ==> ids[i] == start + 1 + i
    ensures Smooth(Some(start), AsEvents(ids)) && Latest(Some(start), AsEvents(ids)) == Some(start + |ids|)
  {
    if ids != [] {
      var n := |ids| - 1;
      RunIsSmooth(start, ids[..n]);
      assert AsEvents(ids)[..n] == AsEvents(ids[..n]);
    }
  }

  lemma {:induction false} ReplayAt(replay: seq<nat>, k: nat, i: nat)
    requires forall j :: 0 <= j < |replay| - 1 ==> replay[j + 1] == replay[j] + 1
    requires k <= i < |replay|
    ensures replay[i] == replay[k] + (i - k)
    decreases i
  {
    if k < i { ReplayAt(replay, k, i - 1); }
  }

  lemma ResyncServes(h: Hub)
    requires h.attached
    ensures Served(h, Browser(Backlog([Resync], false), None, [], true))
  {
    SmoothMore(None, [], Resync);
    assert [] + [Resync] == [Resync];
  }

  lemma ResumeServes(h: Hub, from: nat, k: nat)
    requires ReplayRuns(h) && h.attached && k < |h.replay| && h.replay[k] == from && |h.replay[k + 1..]| <= h.limit
    ensures Served(h, Browser(Backlog(AsEvents(h.replay[k + 1..]), false), Some(from), [], true))
  {
    var missed := h.replay[k + 1..];
    forall i | 0 <= i < |missed| ensures missed[i] == from + 1 + i { ReplayAt(h.replay, k, k + 1 + i); }
    RunIsSmooth(from, missed);
    ReplayAt(h.replay, k, |h.replay| - 1);
    assert [] + AsEvents(missed) == AsEvents(missed);
  }

  /** A new browser is told to resync, or is handed exactly the run since its cursor. */
  lemma OpeningServes(h: Hub, from: Option<nat>)
    requires ReplayRuns(h)
    ensures var (start, opening) := Opening(h, from);
            Served(Attach(h), Browser(OfferAll(Backlog([], false), h.limit, opening), start, [], true))
  {
    var (start, opening) := Opening(h, from);
    if start.None? {
      OneResync(h.limit);
      ResyncServes(Attach(h));
    } else {
      FindFinds(h.replay, from.value);
      OpeningQueues(h.limit, opening);
      ResumeServes(Attach(h), from.value, Find(h.replay, from.value).value);
    }
  }

  lemma OneResync(limit: nat)
    ensures OfferAll(Backlog([], false), limit, [Resync]) == Backlog([Resync], false)
  {
    assert [Resync][..0] == [];
  }

  lemma RetainRuns(h: Hub, e: nat)
    requires ReplayRuns(h) && h.attached && (h.position.Some? ==> e == h.position.value + 1)
    ensures ReplayRuns(h.(replay := Retain(h.replay, h.replayCapacity, e), position := Some(e)))
  {
  }

  lemma SubscribeGood(h: Hub, id: nat, from: Option<nat>, t: Hub)
    requires Good(h) && Step(h, Subscribes(id, from)) == Some(t)
    ensures Good(t)
  {
    OpeningServes(h, from);
    forall j | j in t.browsers ensures Served(t, t.browsers[j]) {
      if j != id { assert Served(h, h.browsers[j]); }
    }
  }

  lemma ArriveGood(h: Hub, m: Message, t: Hub)
    requires Good(h) && Step(h, Arrives(m)) == Some(t)
    ensures Good(t)
  {
    match m
    case Event(e) =>
      RetainRuns(h, e);
      var g := h.(replay := Retain(h.replay, h.replayCapacity, e), position := Some(e));
      forall j | j in t.browsers ensures Served(t, t.browsers[j]) { FanOutServes(h, g, m, j); }
    case Resync =>
      forall j | j in t.browsers ensures Served(t, t.browsers[j]) {
        FanOutServes(h, h.(replay := [], position := None), m, j);
      }
    case Unavailable =>
      forall j | j in t.browsers ensures Served(t, t.browsers[j]) { FanOutServes(h, h, m, j); }
  }

  lemma SendGood(h: Hub, id: nat, t: Hub)
    requires Good(h) && Step(h, Sends(id)) == Some(t)
    ensures Good(t)
  {
    forall j | j in t.browsers ensures Served(t, t.browsers[j]) {
      assert Served(h, h.browsers[j]);
      if j == id {
        var b := h.browsers[id];
        assert Out(t.browsers[id]) == Out(b);
      }
    }
  }

  lemma StepGood(h: Hub, l: Label, t: Hub)
    requires Good(h) && Step(h, l) == Some(t)
    ensures Good(t)
  {
    match l
    case Subscribes(id, from) => SubscribeGood(h, id, from, t);
    case Arrives(m) => ArriveGood(h, m, t);
    case Sends(id) => SendGood(h, id, t);
    case UpstreamEnds(failed) =>
      forall j | j in t.browsers ensures Served(t, t.browsers[j]) {
        assert Served(h, h.browsers[j]);
        FanOutServes(h, h, Unavailable, j);
      }
    case Leaves(id) => forall j | j in t.browsers ensures Served(t, t.browsers[j]) { assert Served(h, h.browsers[j]); }
    case Removed(id) =>
      forall j | j in t.browsers ensures Served(t, t.browsers[j]) { assert Served(h, h.browsers[j]); }
    case Shutdown => forall j | j in t.browsers ensures Served(t, t.browsers[j]) { assert Served(h, h.browsers[j]); }
  }

  lemma {:induction false} RunGood(h: Hub, labels: seq<Label>, t: Hub)
    requires Good(h) && Exec(h, labels) == Some(t)
    ensures Good(t)
    decreases |labels|
  {
    if labels != [] {
      StepGood(h, labels[0], Step(h, labels[0]).value);
      RunGood(Step(h, labels[0]).value, labels[1..], t);
    }
  }

  /**
   In every run over an upstream that is contiguous or resyncs: what a browser is sent is,
   between two resyncs, a contiguous run of the upstream, its backlog is bounded, and an open
   browser has been given everything up to the reader's position or owes a resync.
   */
  lemma BrowserSeesNoGap(replayCapacity: nat, limit: nat, labels: seq<Label>, h: Hub, id: nat)
    requires Exec(Init(replayCapacity, limit), labels) == Some(h) && id in h.browsers
    ensures var b := h.browsers[id];
            && Smooth(b.start, b.sent) && Smooth(b.start, Out(b))
            && |b.backlog.queue| <= (if h.limit == 0 then 1 else h.limit)
            && (!b.backlog.closed ==> Latest(b.start, Out(b)).None? || Latest(b.start, Out(b)) == h.position)
  {
    RunGood(Init(replayCapacity, limit), labels, h);
    SmoothPrefix(h.browsers[id].start, h.browsers[id].sent, h.browsers[id].backlog.queue);
  }
}
