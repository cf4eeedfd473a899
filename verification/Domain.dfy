/**
 Operation admission and lifecycle under the machine lock: `domain.py`.

 A label is one atomic region of the machine lock, or one journal-only access. Every
 storage transaction may fail; its outcome is part of the label.
 */
module Domain {
  import opened Common
  import opened Session
  import opened Operations
  import opened Journal
  import opened Machine
  import opened Configuration

  /** A caller's request, with everything it computed before taking the machine lock. */
  datatype Request = Request(
    action: Action,
    op: OpId,                  // the fresh UUID an admission would use
    key: Key,
    fingerprint: Fingerprint,
    expected: Option<nat>,     // `None` is the stop lane's `*`
    now: Time,
    deadlineAt: Time,
    expiresAt: Time,
    supported: bool)           // what `require_supported` answers for the frozen view

  datatype Verdict =
    | Admitted(op: OpId)
    | Replayed(op: OpId)
    | Conflict
    | Stale
    | NotReady
    | Undurable
    | StorageLost

  /**
   A `configure` call between reading the applied values and taking the machine lock; `seen`
   is how many versions were stored when it read them.
   */
  datatype Call = Call(expected: nat, base: Values, changes: Changes, candidate: Values, seen: nat)

  /** How far the `configure` that holds the machine lock has come. */
  datatype Stage =
    | Recorded    // its operation is ACCEPTED
    | Begun       // its operation is RUNNING
    | Stored      // its values are committed
    | Announced   // their version is published

  datatype Holding = Holding(op: OpId, call: Call, stage: Stage)

  datatype Domain = Domain(
    journal: Store<Values>,
    machine: Views,
    calls: map<nat, Call>,
    holding: Option<Holding>)

  function Generation(d: Domain): nat {
    Current(d.machine).generation
  }

  /** `configuration()`: the newest stored version, or the built-in defaults. */
  function Applied(j: Store<Values>): Values {
    match Newest(j.configs)
    case None => DEFAULTS
    case Some(row) => row.1
  }

  function Latch(d: Domain): Domain {
    d.(machine := RecordJournalFault(d.machine))
  }

  /** `_write_transition`: the durable write and the published generation move together or not at all. */
  function Move(d: Domain, op: OpId, to: OpState, at: Time, commits: bool): Result<Domain, JournalError> {
    match RecordTransition(d.journal, op, to, Generation(d) + 1, at, to.Succeeded?, commits)
    case Ok(j) =>
      var active := if Terminal(to) then None else Some(op);
      Ok(d.(journal := j, machine := PublishTransition(d.machine, active, OperationMoved(op, to))))
    case Err(e) => Err(e)
  }

  /** Everything an admission checks before it writes. */
  function Check(d: Domain, q: Request): Option<Verdict> {
    var view := Current(d.machine);
    if !view.journalAvailable then Some(Undurable)
    else match LiveKey(d.journal, q.key, q.now)
      case Some(rec) => Some(if rec.fingerprint == q.fingerprint then Replayed(rec.op) else Conflict)
      case None =>
        if q.expected.Some? && q.expected.value != view.generation then Some(Stale)
        else if (q.action.Home? || q.action.Sort?) && (!AdmitsWork(view) || !q.supported) then Some(NotReady)
        else None
  }

  function NewRow(d: Domain, q: Request): Row {
    Row(q.action, q.fingerprint, Queued, Generation(d), q.now, q.deadlineAt, false, None)
  }

  /** `_admit`: one journal write that either lands whole or refuses the caller, then the move to ACCEPTED. */
  function Admit(d: Domain, q: Request, c0: bool, c1: bool): Result<Domain, Domain> {
    var rec := KeyRecord(q.fingerprint, q.op, q.now, q.expiresAt);
    match RecordAdmission(d.journal, q.op, NewRow(d, q), q.key, rec, c0)
    case Err(_) => Err(Latch(d))
    case Ok(j) =>
      var queued := d.(journal := j);
      match Move(queued, q.op, Accepted, q.now, c1)
      case Err(_) => Err(Latch(queued))
      case Ok(accepted) => Ok(accepted)
  }

  /** Admission of a home, sort, connect, recover or stop request; a stop runs at once. */
  function Submit(d: Domain, q: Request, c0: bool, c1: bool, c2: bool): (Domain, Verdict) {
    match Check(d, q)
    case Some(v) => (d, v)
    case None =>
      match Admit(d, q, c0, c1)
      case Err(latched) => (latched, StorageLost)
      case Ok(accepted) =>
        if !q.action.Stop? then (accepted, Admitted(q.op))
        else match Move(accepted, q.op, Running, q.now, c2)
          case Err(_) => (Latch(accepted), StorageLost)
          case Ok(running) => (running, Admitted(q.op))
  }

  /** `configure` up to its admission; the candidate was computed from values read outside the lock. */
  function BeginConfigure(d: Domain, q: Request, call: Call, c0: bool, c1: bool): (Domain, Verdict) {
    match Check(d, q)
    case Some(v) => (d, v)
    case None =>
      match Admit(d, q, c0, c1)
      case Err(latched) => (latched, StorageLost)
      case Ok(accepted) => (accepted.(holding := Some(Holding(q.op, call, Recorded))), Admitted(q.op))
  }

  function Release(d: Domain): Domain {
    d.(holding := None)
  }

  function Advance(d: Domain, stage: Stage): Domain
    requires d.holding.Some?
  {
    d.(holding := Some(d.holding.value.(stage := stage)))
  }

  /**
   The rest of `configure`, one publication or one commit at a time: RUNNING, the values, the
   version, SUCCEEDED. Each is visible before the next, though the lock stays taken.
   */
  function ContinueConfigure(d: Domain, at: Time, commits: bool): Domain
    requires d.holding.Some?
  {
    var h := d.holding.value;
    match h.stage
    case Recorded =>
      (match Move(d, h.op, Running, at, commits)
       case Ok(e) => Advance(e, Begun)
       case Err(_) => Release(Latch(d)))
    case Begun =>
      (match RecordConfiguration(d.journal, Generation(d) + 1, h.call.candidate, commits)
       case Ok(j) => Advance(d.(journal := j), Stored)
       case Err(_) => Release(Latch(d)))
    case Stored =>
      Advance(d.(machine := PublishTransition(d.machine, Some(h.op), ConfigurationApplied(h.op))), Announced)
    case Announced =>
      (match Move(d, h.op, Succeeded, at, commits)
       case Ok(e) => Release(e)
       case Err(_) => Release(Latch(d)))
  }

  datatype Label =
    | Asks(q: Request, c0: bool, c1: bool, c2: bool)
    | Moves(op: OpId, to: OpState, at: Time, commits: bool)
    | Latches
    | SeesConnection(connection: Connection)
    | SeesProfile(profile: nat)
    | PrunesKeys(at: Time)
    | ReadsConfiguration(call: nat, expected: nat, changes: Changes)
    | AppliesConfiguration(call: nat, q: Request, c0: bool, c1: bool)
    | ContinuesConfiguration(at: Time, commits: bool)

  /** Journal-only steps run at any time; the others need the machine lock. */
  function Step(d: Domain, l: Label): Option<Domain> {
    match l
    case PrunesKeys(at) => Some(d.(journal := Prune(d.journal, at)))
    case ReadsConfiguration(call, expected, changes) =>
      var base := Applied(d.journal);
      var candidate := WithChanges(base, changes);
      if call in d.calls || candidate.None? then None
      else Some(d.(calls := d.calls[call := Call(expected, base, changes, candidate.value, |d.journal.configs|)]))
    case ContinuesConfiguration(at, commits) =>
      if d.holding.None? then None else Some(ContinueConfigure(d, at, commits))
    case Asks(q, c0, c1, c2) =>
      if d.holding.Some? || q.action.Configure? then None else Some(Submit(d, q, c0, c1, c2).0)
    case Moves(op, to, at, commits) =>
      if d.holding.Some? then None
      else Some(match Move(d, op, to, at, commits) case Ok(e) => e case Err(_) => d)
    case Latches => if d.holding.Some? then None else Some(Latch(d))
    case SeesConnection(c) => if d.holding.Some? then None else Some(d.(machine := ObserveConnection(d.machine, c)))
    case SeesProfile(p) => if d.holding.Some? then None else Some(d.(machine := ObserveProfile(d.machine, p)))
    case AppliesConfiguration(call, q, c0, c1) =>
      if d.holding.Some? || call !in d.calls then None
      else if !q.action.Configure? || q.expected != Some(d.calls[call].expected) then None
      else
        var e := BeginConfigure(d, q, d.calls[call], c0, c1).0;
        Some(e.(calls := e.calls - {call}))
  }

  function Exec(d: Domain, labels: seq<Label>): Option<Domain>
    decreases |labels|
  {
    if labels == [] then Some(d)
    else match Step(d, labels[0])
      case None => None
      case Some(e) => Exec(e, labels[1..])
  }

  /** A daemon life begins with some journal and generation 1. */
  function Boot(j: Store<Values>): Domain {
    Domain(j, [INITIAL], map[], None)
  }
}
