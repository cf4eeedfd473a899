/** Published views of the machine, numbered from one: `machine.py`. */
module Machine {
  import opened Common
  import opened Session
  import opened Operations

  /** Why a view was published; the source keeps this as a reason text. */
  datatype Cause =
    | InitialView
    | OperationMoved(op: OpId, state: OpState)
    | ConfigurationApplied(op: OpId)
    | ConnectionChanged
    | ProfileObserved
    | JournalFaulted

  datatype Snapshot = Snapshot(
    generation: nat,
    connection: Connection,
    active: Option<OpId>,
    journalAvailable: bool,
    profile: nat,             // the observed firmware profile and readiness, by identity
    cause: Cause)

  const INITIAL := Snapshot(1, Disconnected, None, true, 0, InitialView)

  /** New state-changing work needs a verified session and a journal that still records. */
  predicate AdmitsWork(v: Snapshot) {
    v.connection == Ready && v.journalAvailable
  }

  type Views = v: seq<Snapshot> | v != [] witness [INITIAL]

  function Current(m: Views): Snapshot {
    m[|m| - 1]
  }

  function Publish(m: Views, candidate: Snapshot): Views {
    m + [candidate.(generation := Current(m).generation + 1)]
  }

  function ObserveConnection(m: Views, c: Connection): Views {
    if c == Current(m).connection then m
    else Publish(m, Current(m).(connection := c, cause := ConnectionChanged))
  }

  function ObserveProfile(m: Views, profile: nat): Views {
    if profile == Current(m).profile then m
    else Publish(m, Current(m).(profile := profile, cause := ProfileObserved))
  }

  function RecordJournalFault(m: Views): Views {
    if !Current(m).journalAvailable then m
    else Publish(m, Current(m).(journalAvailable := false, cause := JournalFaulted))
  }

  function PublishTransition(m: Views, active: Option<OpId>, cause: Cause): Views {
    Publish(m, Current(m).(active := active, cause := cause))
  }

  /** Published generations are 1, 2, 3, ... with no gap. */
  predicate Gapless(m: Views) {
    forall i :: 0 <= i < |m| ==> m[i].generation == i + 1
  }

  /** `MachineState`: the latest view and everything published so far. */
  class MachineState {
    var snapshot: Snapshot
    var history: seq<Snapshot>

    ghost predicate Valid()
      reads this
    {
      history != [] && snapshot == history[|history| - 1] && Gapless(history)
    }

    constructor ()
      ensures Valid() && history == [INITIAL]
    {
      snapshot := INITIAL;
      history := [INITIAL];
    }

    method Put(candidate: Snapshot)
      requires Valid()
      modifies this
      ensures Valid() && history == Publish(old(history), candidate)
    {
      var published := candidate.(generation := snapshot.generation + 1);
      snapshot := published;
      history := history + [published];
    }

    /** The exit of the `transition` block, reached only when the durable write inside it succeeded. */
    method FinishTransition(active: Option<OpId>, cause: Cause)
      requires Valid()
      modifies this
      ensures Valid() && history == PublishTransition(old(history), active, cause)
    {
      Put(snapshot.(active := active, cause := cause));
    }

    method SeeConnection(c: Connection)
      requires Valid()
      modifies this
      ensures Valid() && history == ObserveConnection(old(history), c)
    {
      if c != snapshot.connection { Put(snapshot.(connection := c, cause := ConnectionChanged)); }
    }

    method SeeProfile(profile: nat)
      requires Valid()
      modifies this
      ensures Valid() && history == ObserveProfile(old(history), profile)
    {
      if profile != snapshot.profile { Put(snapshot.(profile := profile, cause := ProfileObserved)); }
    }

    method LatchFault()
      requires Valid()
      modifies this
      ensures Valid() && history == RecordJournalFault(old(history))
      ensures !snapshot.journalAvailable
    {
      if snapshot.journalAvailable { Put(snapshot.(journalAvailable := false, cause := JournalFaulted)); }
    }
  }
}

/** Daemon policy values: `configuration.py`. */
module Configuration {
  import opened Common

  datatype Field = Heartbeat | EventRetention | OperationRetention | MaxDeadline | UnknownField(name: string)

  datatype Values = Values(heartbeat: int, eventRetention: int, operationRetention: int, maxDeadline: int)

  const DEFAULTS := Values(15_000, 5_000, 30, 120_000)

  type Changes = map<Field, int>

  predicate InBounds(v: Values) {
    && 1_000 <= v.heartbeat <= 60_000
    && 100 <= v.eventRetention <= 100_000
    && 1 <= v.operationRetention <= 365
    && 1_000 <= v.maxDeadline <= 120_000
  }

  function Get(v: Values, f: Field): int
    requires !f.UnknownField?
  {
    match f
    case Heartbeat => v.heartbeat
    case EventRetention => v.eventRetention
    case OperationRetention => v.operationRetention
    case MaxDeadline => v.maxDeadline
  }

  function Or(c: Changes, f: Field, old_: int): int {
    if f in c then c[f] else old_
  }

  predicate FieldInBounds(f: Field, n: int) {
    match f
    case Heartbeat => 1_000 <= n <= 60_000
    case EventRetention => 100 <= n <= 100_000
    case OperationRetention => 1 <= n <= 365
    case MaxDeadline => 1_000 <= n <= 120_000
    case UnknownField(_) => false
  }

  /** The values a change would produce; `None` when the change is empty, unknown or out of bounds. */
  function WithChanges(v: Values, c: Changes): (r: Option<Values>)
    ensures r.Some? <==>
            && c != map[]
            && (forall f: Field :: f in c ==> FieldInBounds(f, c[f]))
            && (forall f: Field :: !f.UnknownField? && f !in c ==> FieldInBounds(f, Get(v, f)))
    ensures r.Some? ==> InBounds(r.value)
    ensures r.Some? ==> forall f: Field :: !f.UnknownField? ==> Get(r.value, f) == if f in c then c[f] else Get(v, f)
  {
    if c == map[] || (exists f | f in c :: f.UnknownField?) then None
    else
      var w := Values(Or(c, Heartbeat, v.heartbeat), Or(c, EventRetention, v.eventRetention),
                      Or(c, OperationRetention, v.operationRetention), Or(c, MaxDeadline, v.maxDeadline));
      if InBounds(w) then Some(w) else None
  }
}
