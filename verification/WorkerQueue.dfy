/**
 The part of the serial worker that lives under its condition lock: lifecycle state,
 the bounded normal lane, the coalesced stop lane and the recorded failure.

 Every `with self._condition` block of the worker is one function on `Core`. The class
 `SerialWorker` executes the same blocks on mutable fields and is proved against them;
 `WorkerSystem` interleaves them.
 */
module WorkerQueue {
  import opened Common

  datatype WorkerState = New | Starting | Running | Closing | Closed | Failed

  datatype SessionAction = Connect | Recover

  datatype QueryKind = Status | Capabilities | Queue

  datatype HomeAxis = Feeder | Sorter | Both

  datatype Intent =
    | SessionIntent(action: SessionAction)
    | QueryIntent(kind: QueryKind)
    | HomeIntent(axis: HomeAxis)
    | SortIntent(slot: nat)

  /** A work item; `id` stands for its future. */
  datatype Item = Item(id: nat, intent: Intent)

  /** What went wrong with an exchange: a protocol or transport break, or anything else. */
  datatype Fault = Broken(recovered: bool) | Unexpected

  /** Why the worker refused to admit something. */
  datatype Refusal = NotRunning | SessionNotReady | StopInProgress | QueueFull

  datatype Core = Core(
    state: WorkerState,
    normal: seq<Item>,
    stopRequested: bool,
    waiters: seq<nat>,
    failure: Option<Fault>)

  /** What the owning thread found to do. */
  datatype Action = StopLane | Work(item: Item) | Leave

  /** `submit`: the session was read by the caller while it held the lock. */
  function Submit(c: Core, capacity: nat, ready: bool, item: Item): (Core, Option<Refusal>) {
    if c.state != Running then (c, Some(NotRunning))
    else if !ready && !item.intent.SessionIntent? then (c, Some(SessionNotReady))
    else if c.stopRequested then (c, Some(StopInProgress))
    else if |c.normal| >= capacity then (c, Some(QueueFull))
    else (c.(normal := c.normal + [item]), None)
  }

  /** `submit_priority_stop`: the first stop takes the whole normal lane with it. */
  function AskStop(c: Core, waiter: nat): (Core, Result<seq<Item>, Refusal>) {
    if c.state != Running then (c, Err(NotRunning))
    else if c.stopRequested then (c.(waiters := c.waiters + [waiter]), Ok([]))
    else (c.(waiters := c.waiters + [waiter], stopRequested := true, normal := []), Ok(c.normal))
  }

  /** `close`: the preempted items are failed by the closing thread. */
  function Close(c: Core): (Core, seq<Item>) {
    if c.state == New then (c.(state := Closed), [])
    else if c.state == Starting || c.state == Running then
      (c.(state := Closing, normal := [],
          stopRequested := c.stopRequested || c.state == Running), c.normal)
    else (c, [])
  }

  /** `_next_action`; `None` means the owning thread keeps waiting. */
  function NextAction(c: Core): (Core, Option<Action>) {
    if c.stopRequested then (c, Some(StopLane))
    else if c.state == Closing || c.state == Failed then (c, Some(Leave))
    else if c.normal == [] then (c, None)
    else (c.(normal := c.normal[1..]), Some(Work(c.normal[0])))
  }

  function ResolveStop(c: Core): (Core, seq<nat>) {
    (c.(waiters := [], stopRequested := false), c.waiters)
  }

  function DrainQueue(c: Core): (Core, seq<Item>) {
    (c.(normal := []), c.normal)
  }

  function MarkFailed(c: Core, f: Fault): Core {
    if c.state == Closed || c.state == Failed then c
    else c.(state := Failed, failure := Some(f))
  }

  function FinishThread(c: Core): (Core, seq<Item>, seq<nat>) {
    (c.(state := if c.state == Failed then Failed else Closed,
        normal := [], waiters := [], stopRequested := false), c.normal, c.waiters)
  }

  /** The worker object; each method is one critical section of its condition lock. */
  class SerialWorker {
    const capacity: nat
    var state: WorkerState
    var normal: seq<Item>
    var stopRequested: bool
    var waiters: seq<nat>
    var failure: Option<Fault>

    constructor (capacity: nat)
      ensures this.capacity == capacity
      ensures Contents() == Core(New, [], false, [], None)
    {
      this.capacity := capacity;
      state, normal, stopRequested, waiters, failure := New, [], false, [], None;
    }

    function Contents(): Core
      reads this
    {
      Core(state, normal, stopRequested, waiters, failure)
    }

    method TrySubmit(ready: bool, item: Item) returns (refusal: Option<Refusal>)
      modifies this
      ensures (Contents(), refusal) == Submit(old(Contents()), capacity, ready, item)
    {
      if state != Running { return Some(NotRunning); }
      if !ready && !item.intent.SessionIntent? { return Some(SessionNotReady); }
      if stopRequested { return Some(StopInProgress); }
      if |normal| >= capacity { return Some(QueueFull); }
      normal := normal + [item];
      return None;
    }

    method SubmitPriorityStop(waiter: nat) returns (r: Result<seq<Item>, Refusal>)
      modifies this
      ensures (Contents(), r) == AskStop(old(Contents()), waiter)
    {
      if state != Running { return Err(NotRunning); }
      waiters := waiters + [waiter];
      var preempted := [];
      if !stopRequested {
        stopRequested := true;
        preempted := normal;
        normal := [];
      }
      return Ok(preempted);
    }

    method BeginClose() returns (preempted: seq<Item>)
      modifies this
      ensures (Contents(), preempted) == Close(old(Contents()))
    {
      preempted := [];
      if state == New {
        state := Closed;
        return;
      }
      if state == Starting || state == Running {
        var wasRunning := state == Running;
        state := Closing;
        preempted := normal;
        normal := [];
        if wasRunning { stopRequested := true; }
      }
    }

    method TakeNextAction() returns (action: Option<Action>)
      modifies this
      ensures (Contents(), action) == NextAction(old(Contents()))
    {
      if stopRequested { return Some(StopLane); }
      if state == Closing || state == Failed { return Some(Leave); }
      if normal == [] { return None; }
      var item := normal[0];
      normal := normal[1..];
      return Some(Work(item));
    }

    method TakeStopWaiters() returns (taken: seq<nat>)
      modifies this
      ensures (Contents(), taken) == ResolveStop(old(Contents()))
    {
      taken := waiters;
      waiters := [];
      stopRequested := false;
    }

    method TakeQueue() returns (taken: seq<Item>)
      modifies this
      ensures (Contents(), taken) == DrainQueue(old(Contents()))
    {
      taken := normal;
      normal := [];
    }

    method RecordFailure(f: Fault)
      modifies this
      ensures Contents() == MarkFailed(old(Contents()), f)
    {
      if state != Closed && state != Failed {
        state := Failed;
        failure := Some(f);
      }
    }

    method Finish() returns (items: seq<Item>, stops: seq<nat>)
      modifies this
      ensures (Contents(), items, stops) == FinishThread(old(Contents()))
    {
      if state != Failed { state := Closed; }
      items, normal := normal, [];
      stops, waiters := waiters, [];
      stopRequested := false;
    }
  }
}
