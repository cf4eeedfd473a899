/**
 The daemon as a whole: callers admit operations in `Domain`, hand them to the worker of
 `WorkerSystem`, and done-callbacks write the outcomes back.

 An operation and its future share one identity. Every label is one atomic step of the
 worker, of the domain, or the one place where both move together: the dispatch
 callback, which runs on the owning thread and records RUNNING before the first byte.
 */
module Daemon {
  import opened Common
  import opened Operations
  import opened Journal
  import opened Configuration
  import Q = WorkerQueue
  import W = WorkerSystem
  import D = Domain

  /** An admitted operation on its way to the worker. */
  datatype Ticket = WorkTicket(intent: Q.Intent) | StopTicket

  datatype Daemon = Daemon(
    worker: W.Sys,
    domain: D.Domain,
    earlier: set<OpId>,            // rows of earlier daemon lives
    tickets: map<OpId, Ticket>,    // admitted, not yet handed to the worker
    refused: set<OpId>,            // the worker refused the hand-over
    settling: map<OpId, OpState>,  // outcome classified, not yet recorded
    gates: map<OpId, Time>)        // when the dispatch callback let the operation through

  function Boot(capacity: nat, maxReconnects: nat, j: Store<Values>): Daemon {
    Daemon(W.Init(capacity, maxReconnects), D.Boot(j), j.ops.Keys, map[], {}, map[], map[])
  }

  /** What `intent_for` and the session operations hand to the worker for an action. */
  predicate Fits(action: Action, intent: Q.Intent) {
    match action
    case Home => intent.HomeIntent?
    case Sort => intent.SortIntent?
    case Connect => intent == Q.SessionIntent(Q.Connect)
    case Recover => intent == Q.SessionIntent(Q.Recover)
    case _ => false
  }

  predicate TicketFits(action: Action, t: Ticket) {
    match t
    case WorkTicket(intent) => Fits(action, intent)
    case StopTicket => action.Stop?
  }

  /** `_classify`: the state an error leaves an operation in. */
  function Classify(current: OpState, e: W.Error): OpState {
    match e
    case Withdrawn(why) =>
      if why.DeadlineExpired? then Failed else if current.Running? then OpState.Uncertain else Failed
    case PreemptedByStop => Cancelled
    case PreemptedByRecovery => Cancelled
    case WorkerUncertain => OpState.Uncertain
    case WorkerStopped => Cancelled
    case Faulted(_) => if current.Running? then OpState.Uncertain else Failed
  }

  /** `_settle`, `_settle_stop` and `_complete`: the state a finished future leads to. */
  function Verdict(action: Action, current: OpState, f: W.Future): OpState {
    match f
    case Done(o) =>
      (match o
       case Raised(e) => Classify(current, e)
       case Completed(ok) => if ok then Succeeded else Failed
       case SessionReady => if action.Connect? || action.Recover? then Succeeded else OpState.Uncertain
       case StopTrusted => if action.Stop? then Succeeded else OpState.Uncertain)
    // `result()` raises `CancelledError`
    case _ => if current.Running? then OpState.Uncertain else Failed
  }

  /** `_safe_transition`: a storage failure latches the fault and leaves the outcome unrecorded. */
  function Record(d: D.Domain, op: OpId, to: OpState, at: Time, commits: bool): D.Domain {
    match D.Move(d, op, to, at, commits)
    case Ok(e) => e
    case Err(e) => if e.StorageFailed? then D.Latch(d) else d
  }

  datatype Label =
    | Asks(q: D.Request, ticket: Ticket, c0: bool, c1: bool, c2: bool)
    | InDomain(d: D.Label)
    | InWorker(w: W.Label)
    | HandsOver(op: OpId)
    | Queries(item: Q.Item)
    | Commits
    | Refuses(op: OpId)
    | Dispatches(now: Time, commits: bool)
    | BeginsSettling(op: OpId)
    | EndsSettling(op: OpId, at: Time, commits: bool)

  /** Identifiers are fresh UUIDs: nothing in the worker uses one before its admission. */
  predicate FreshId(w: W.Sys, id: nat) {
    id !in w.futures && (w.lock.Some? ==> w.lock.value.item.id != id)
  }

  /** The owning thread is at the dispatch callback of an operation. */
  predicate AtGate(x: Daemon) {
    x.worker.pc == W.Serve(W.ItemGate) && x.worker.hand.Some? && x.worker.hand.value.id in x.domain.journal.ops
  }

  function AskStep(x: Daemon, q: D.Request, ticket: Ticket, c0: bool, c1: bool, c2: bool): Option<Daemon> {
    if x.domain.holding.Some? || !FreshId(x.worker, q.op) || !TicketFits(q.action, ticket) then None else
    var (d, v) := D.Submit(x.domain, q, c0, c1, c2);
    Some(x.(domain := d, tickets := if v.Admitted? then x.tickets[q.op := ticket] else x.tickets))
  }

  /** The call of `worker.submit` or `worker.submit_priority_stop` after the machine lock is left. */
  function HandOverStep(x: Daemon, op: OpId): Option<Daemon> {
    if op !in x.tickets then None else
    var l := match x.tickets[op]
      case WorkTicket(intent) => W.SubmitCheck(Q.Item(op, intent))
      case StopTicket => W.SubmitStop(op);
    match W.Step(x.worker, l)
    case None => None
    case Some(w) => Some(x.(worker := w, tickets := x.tickets - {op}))
  }

  /** The second half of `worker.submit`; a refusal is handed back to the domain. */
  function CommitStep(x: Daemon): Option<Daemon> {
    match W.Step(x.worker, W.SubmitCommit)
    case None => None
    case Some(w) =>
      var id := x.worker.lock.value.item.id;
      var turnedAway := id in x.domain.journal.ops && id !in w.futures;
      Some(x.(worker := w, refused := if turnedAway then x.refused + {id} else x.refused))
  }

  /** `_dispatch` on the owning thread. */
  function DispatchStep(x: Daemon, now: Time, commits: bool): Option<Daemon> {
    if !AtGate(x) || x.domain.holding.Some? then None else
    var op := x.worker.hand.value.id;
    if now >= x.domain.journal.ops[op].deadlineAt then
      Some(x.(worker := W.OwnerStep(x.worker, W.Withdraw(W.DeadlineExpired)).value))
    else match D.Move(x.domain, op, Running, now, commits)
      case Ok(e) =>
        Some(x.(domain := e, worker := W.OwnerStep(x.worker, W.Go).value, gates := x.gates[op := now]))
      case Err(_) =>
        Some(x.(domain := Record(x.domain, op, Running, now, commits),
                worker := W.OwnerStep(x.worker, W.Withdraw(W.NotRecorded)).value))
  }

  /** The done-callback reads the row and classifies; a refusal is classified as never dispatched. */
  function BeginStep(x: Daemon, op: OpId): Option<Daemon> {
    if op !in x.domain.journal.ops || op in x.settling || Terminal(x.domain.journal.ops[op].state) then None else
    var row := x.domain.journal.ops[op];
    if op in x.refused then Some(x.(settling := x.settling[op := Cancelled]))
    else if op in x.worker.futures && (x.worker.futures[op].Done? || x.worker.futures[op].Cancelled?) then
      Some(x.(settling := x.settling[op := Verdict(row.action, row.state, x.worker.futures[op])]))
    else None
  }

  function EndStep(x: Daemon, op: OpId, at: Time, commits: bool): Option<Daemon> {
    if op !in x.settling || x.domain.holding.Some? then None else
    Some(x.(domain := Record(x.domain, op, x.settling[op], at, commits), settling := x.settling - {op}))
  }

  function Step(x: Daemon, l: Label): Option<Daemon> {
    match l
    case Asks(q, ticket, c0, c1, c2) => AskStep(x, q, ticket, c0, c1, c2)
    case InDomain(dl) =>
      if dl.Asks? || dl.Moves? || (dl.AppliesConfiguration? && !FreshId(x.worker, dl.q.op)) then None
      else (match D.Step(x.domain, dl) case None => None case Some(d) => Some(x.(domain := d)))
    case InWorker(wl) =>
      if wl.SubmitCheck? || wl.SubmitStop? || wl.SubmitCommit? || (wl.Owner? && AtGate(x)) then None
      else (match W.Step(x.worker, wl) case None => None case Some(w) => Some(x.(worker := w)))
    case HandsOver(op) => HandOverStep(x, op)
    case Queries(item) =>
      if !item.intent.QueryIntent? || item.id in x.domain.journal.ops then None
      else (match W.Step(x.worker, W.SubmitCheck(item)) case None => None case Some(w) => Some(x.(worker := w)))
    case Commits => CommitStep(x)
    case Refuses(op) =>
      if op in x.tickets && x.worker.lock.None? && x.worker.core.state != Q.Running then
        Some(x.(tickets := x.tickets - {op}, refused := x.refused + {op}))
      else None
    case Dispatches(now, commits) => DispatchStep(x, now, commits)
    case BeginsSettling(op) => BeginStep(x, op)
    case EndsSettling(op, at, commits) => EndStep(x, op, at, commits)
  }

  function Exec(x: Daemon, labels: seq<Label>): Option<Daemon>
    decreases |labels|
  {
    if labels == [] then Some(x)
    else match Step(x, labels[0])
      case None => None
      case Some(y) => Exec(y, labels[1..])
  }
}
