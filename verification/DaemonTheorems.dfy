/**
 The dispatch gate and honest outcomes: what the journal says about an operation and what
 the wire history of the worker shows agree in every run of the daemon.
 */
module DaemonTheorems {
  import opened Common
  import opened Operations
  import opened Journal
  import opened Configuration
  import opened Daemon
  import opened DomainFlow
  import Q = WorkerQueue
  import W = WorkerSystem
  import Flow = WorkerFlow
  import Evidence = WorkerEvidence
  import Once = WorkerOnce
  import Readiness = WorkerReadiness
  import WT = WorkerTheorems
  import D = Domain
  import DT = DomainTheorems

  // ---------- one operation ----------

  /** An operation admitted in this daemon life that goes through the worker. */
  predicate Ours(x: Daemon, op: OpId) {
    op in x.domain.journal.ops && op !in x.earlier && !x.domain.journal.ops[op].action.Configure?
  }

  ghost predicate RanTo(x: Daemon, op: OpId) {
    Entered(x.domain.journal.log, op, Running)
  }

  /** The outcome a settled operation gets: from a refusal, or from its finished future. */
  ghost predicate Settles(x: Daemon, op: OpId, to: OpState)
    requires op in x.domain.journal.ops
  {
    if op in x.refused then to == Cancelled
    else
      && op in x.worker.futures && (x.worker.futures[op].Done? || x.worker.futures[op].Cancelled?)
      && to ==
          Verdict(x.domain.journal.ops[op].action, if RanTo(x, op) then Running else Accepted, x.worker.futures[op])
  }

  /** Where a hand-over stands: ticket, caller inside `submit`, refusal and future exclude each other. */
  ghost predicate Placed(x: Daemon, op: OpId) {
    && (op in x.tickets ==>
          && Ours(x, op) && FreshId(x.worker, op) && op !in x.refused
          && TicketFits(x.domain.journal.ops[op].action, x.tickets[op])
          && x.domain.journal.ops[op].state == if x.domain.journal.ops[op].action.Stop? then Running else Accepted)
    && (op in x.refused ==> Ours(x, op) && FreshId(x.worker, op))
    && (op in x.worker.futures && op in x.domain.journal.ops ==> Ours(x, op))
  }

  /** The journal and the wire agree about the operation. */
  ghost predicate Agreed(x: Daemon, op: OpId) {
    Ours(x, op) ==>
      && (if x.domain.journal.ops[op].action.Stop? then W.GateOpened(op) !in x.worker.history
          else W.GateOpened(op) in x.worker.history <==> RanTo(x, op))
      && (W.GateOpened(op) in x.worker.history ==> op in x.gates && x.gates[op] < x.domain.journal.ops[op].deadlineAt)
      && (Terminal(x.domain.journal.ops[op].state) ==> Settles(x, op, x.domain.journal.ops[op].state))
      && EventsFit(x, op)
  }

  /** Commands are written, and concluding statuses read, only for the matching kind of row. */
  predicate EventsFit(x: Daemon, op: OpId)
    requires op in x.domain.journal.ops
  {
    && (W.WroteItem(op) in x.worker.history ==>
          x.domain.journal.ops[op].action.Home? || x.domain.journal.ops[op].action.Sort?)
    && (W.ReadStatus(op, Q.Connect) in x.worker.history ==> x.domain.journal.ops[op].action.Connect?)
    && (W.ReadStatus(op, Q.Recover) in x.worker.history ==> x.domain.journal.ops[op].action.Recover?)
  }

  ghost predicate Closing(x: Daemon, op: OpId) {
    op in x.settling ==> Ours(x, op) && Settles(x, op, x.settling[op])
  }

  /** Items of the worker are queries, or operations of this life with the intent of their action. */
  predicate Registered(x: Daemon, item: Q.Item) {
    if item.intent.QueryIntent? then item.id !in x.domain.journal.ops
    else Ours(x, item.id) && Fits(x.domain.journal.ops[item.id].action, item.intent)
  }

  ghost predicate AllRegistered(x: Daemon) {
    forall item :: Flow.Has(x.worker, item) ==> Registered(x, item)
  }

  ghost predicate About(x: Daemon, op: OpId) {
    Placed(x, op) && Agreed(x, op) && Closing(x, op)
  }

  ghost predicate Joint(x: Daemon, base: nat) {
    && WT.Inv(x.worker) && DT.Good(x.domain, base) && HoldingFits(x.domain)
    && AllRegistered(x) && (forall op :: About(x, op))
    && x.earlier <= x.domain.journal.ops.Keys
  }

  // ---------- what each kind of step keeps ----------

  lemma WorkerKeeps(x: Daemon, l: W.Label, w: W.Sys, op: OpId)
    requires WT.Inv(x.worker) && W.Step(x.worker, l) == Some(w) && About(x, op)
    requires Flow.PassesGate(x.worker, l, op) ==> op !in x.domain.journal.ops
    requires op in x.tickets || op in x.refused ==>
               !Flow.Enters(x.worker, l, op) && !(l.SubmitCheck? && l.item.id == op)
    requires Flow.Enters(x.worker, l, op) && op in x.domain.journal.ops ==> Ours(x, op)
    requires x.worker.hand.Some? ==> Registered(x, x.worker.hand.value)
    ensures About(x.(worker := w), op)
  {
    Flow.StepReads(x.worker, l, w, op, Q.Connect);
    Flow.StepReads(x.worker, l, w, op, Q.Recover);
    WT.StepAppends(x.worker, l, w);
    Flow.StepGates(x.worker, l, w, op);
    assert Evidence.Evidence(x.worker, op) && Once.Ledger(x.worker, op);
    Evidence.EvidenceStep(x.worker, l, w, op);
  }

  lemma WorkerRegistered(x: Daemon, l: W.Label, w: W.Sys)
    requires W.Step(x.worker, l) == Some(w) && AllRegistered(x) && (l.SubmitCheck? ==> Registered(x, l.item))
    ensures AllRegistered(x.(worker := w))
  {
    forall item | Flow.Has(w, item) ensures Registered(x.(worker := w), item) {
      Flow.StepItems(x.worker, l, w, item);
    }
  }

  /** A domain step that leaves the operation alone, or concerns a configure operation. */
  lemma DomainKeeps(x: Daemon, d: D.Domain, op: OpId)
    requires About(x, op) && Apart(x.domain, d, op) && (Opened(x.domain, d, op, Configure) ==> op !in x.worker.futures)
    ensures About(x.(domain := d), op)
  {
  }

  /** Nothing in the worker uses an identifier that is fresh. */
  lemma FreshIsNowhere(x: Daemon, item: Q.Item)
    requires WT.Inv(x.worker) && Flow.Has(x.worker, item)
    ensures !FreshId(x.worker, item.id)
  {
    assert Once.Ledger(x.worker, item.id);
    if item in x.worker.core.normal || x.worker.hand == Some(item) { Flow.HeldHasFuture(x.worker, item); }
  }

  /** What an operation of the worker keeps across any step of the domain. */
  ghost predicate Stable(x: Daemon, d: D.Domain, op: OpId) {
    if op in x.domain.journal.ops
    then op in d.journal.ops && d.journal.ops[op].action == x.domain.journal.ops[op].action
    else op in d.journal.ops ==> FreshId(x.worker, op)
  }

  lemma DomainRegistered(x: Daemon, d: D.Domain)
    requires WT.Inv(x.worker) && AllRegistered(x) && (forall op :: Stable(x, d, op))
    ensures AllRegistered(x.(domain := d))
    ensures x.earlier <= x.domain.journal.ops.Keys ==> x.earlier <= d.journal.ops.Keys
  {
    forall item | Flow.Has(x.worker, item) ensures Registered(x.(domain := d), item) {
      assert Stable(x, d, item.id);
      FreshIsNowhere(x, item);
    }
    assert forall op :: op in x.earlier ==> Stable(x, d, op);
  }

  // ---------- steps ----------

  lemma AskAbout(x: Daemon, q: D.Request, ticket: Ticket, c0: bool, c1: bool, c2: bool, y: Daemon, op: OpId)
    requires About(x, op) && WT.Inv(x.worker) && Refines(x.domain.journal, q.op)
    requires x.earlier <= x.domain.journal.ops.Keys
    requires AskStep(x, q, ticket, c0, c1, c2) == Some(y)
    ensures About(y, op) && Stable(x, y.domain, op)
  {
    SubmitFlow(x.domain, q, c0, c1, c2, op);
    if op != q.op {
      DomainKeeps(x, y.domain, op);
    } else {
      assert Evidence.Evidence(x.worker, op);
    }
  }

  lemma JointAsk(x: Daemon, q: D.Request, ticket: Ticket, c0: bool, c1: bool, c2: bool, y: Daemon, base: nat)
    requires Joint(x, base) && AskStep(x, q, ticket, c0, c1, c2) == Some(y)
    ensures Joint(y, base)
  {
    assert !q.action.Configure?;
    DT.StepKeeps(x.domain, D.Asks(q, c0, c1, c2), y.domain, base);
    assert Refines(x.domain.journal, q.op);
    SubmitFlow(x.domain, q, c0, c1, c2, q.op);
    forall op ensures About(y, op) && Stable(x, y.domain, op) {
      assert About(x, op);
      AskAbout(x, q, ticket, c0, c1, c2, y, op);
    }
    DomainRegistered(x, y.domain);
    forall item | Flow.Has(y.worker, item) ensures Registered(y, item) {
      assert Registered(x.(domain := y.domain), item);
    }
  }

  lemma JointDomain(x: Daemon, l: D.Label, y: Daemon, base: nat)
    requires Joint(x, base) && Step(x, InDomain(l)) == Some(y)
    ensures Joint(y, base)
  {
    var d := y.domain;
    DT.StepKeeps(x.domain, l, d, base);
    StepFlow(x.domain, l, d, 0);
    forall op ensures Stable(x, d, op) && About(y, op) {
      StepFlow(x.domain, l, d, op);
      assert About(x, op);
      DomainKeeps(x, d, op);
    }
    DomainRegistered(x, d);
  }

  lemma JointWorker(x: Daemon, l: W.Label, y: Daemon, base: nat)
    requires Joint(x, base) && Step(x, InWorker(l)) == Some(y)
    ensures Joint(y, base)
  {
    WT.InvStep(x.worker, l, y.worker);
    WorkerRegistered(x, l, y.worker);
    forall op ensures About(y, op) {
      assert About(x, op);
      WorkerKeeps(x, l, y.worker, op);
    }
  }

  lemma JointQuery(x: Daemon, item: Q.Item, y: Daemon, base: nat)
    requires Joint(x, base) && Step(x, Queries(item)) == Some(y)
    ensures Joint(y, base)
  {
    WT.InvStep(x.worker, W.SubmitCheck(item), y.worker);
    WorkerRegistered(x, W.SubmitCheck(item), y.worker);
    forall op ensures About(y, op) {
      assert About(x, op);
      WorkerKeeps(x, W.SubmitCheck(item), y.worker, op);
    }
  }

  lemma JointHandOver(x: Daemon, op: OpId, y: Daemon, base: nat)
    requires Joint(x, base) && HandOverStep(x, op) == Some(y)
    ensures Joint(y, base)
  {
    var l := match x.tickets[op]
      case WorkTicket(intent) => W.SubmitCheck(Q.Item(op, intent))
      case StopTicket => W.SubmitStop(op);
    WT.InvStep(x.worker, l, y.worker);
    var z := x.(tickets := x.tickets - {op});
    assert About(x, op);
    forall item | Flow.Has(z.worker, item) ensures Registered(z, item) { assert Registered(x, item); }
    WorkerRegistered(z, l, y.worker);
    forall id ensures About(y, id) {
      assert About(x, id);
      WorkerKeeps(z, l, y.worker, id);
    }
  }

  lemma JointCommit(x: Daemon, y: Daemon, base: nat)
    requires Joint(x, base) && CommitStep(x) == Some(y)
    ensures Joint(y, base)
  {
    WT.InvStep(x.worker, W.SubmitCommit, y.worker);
    WorkerRegistered(x, W.SubmitCommit, y.worker);
    var z := x.(worker := y.worker);
    var item := x.worker.lock.value.item;
    assert Flow.Has(x.worker, item);
    forall i | Flow.Has(y.worker, i) ensures Registered(y, i) { assert Registered(z, i); }
    forall op ensures About(y, op) {
      assert About(x, op);
      WorkerKeeps(x, W.SubmitCommit, y.worker, op);
    }
  }

  lemma JointRefuse(x: Daemon, op: OpId, y: Daemon, base: nat)
    requires Joint(x, base) && Step(x, Refuses(op)) == Some(y)
    ensures Joint(y, base)
  {
    forall i | Flow.Has(y.worker, i) ensures Registered(y, i) { assert Registered(x, i); }
    forall id ensures About(y, id) { assert About(x, id); assert About(x, op); }
  }

  lemma RecordFlow(d: D.Domain, op: OpId, to: OpState, at: Time, commits: bool, id: OpId)
    ensures var e := Record(d, op, to, at, commits);
            e.holding == d.holding && (Same(d, e, id) || (id == op && Moved(d, e, op, to)))
  {
    if D.Move(d, op, to, at, commits).Ok? { MoveFlow(d, op, to, at, commits, id); }
  }

  lemma RecordKeeps(d: D.Domain, op: OpId, to: OpState, at: Time, commits: bool, base: nat)
    requires DT.Good(d, base)
    ensures DT.Good(Record(d, op, to, at, commits), base)
  {
    if D.Move(d, op, to, at, commits).Ok? {
      DT.MoveKeeps(d, op, to, at, commits, base);
    } else {
      DT.LatchKeeps(d, base);
    }
  }

  /** A withdrawn dispatch leaves the journal row alone and sends nothing. */
  lemma JointWithdraw(x: Daemon, why: W.Withdrawal, d: D.Domain, y: Daemon, base: nat)
    requires Joint(x, base) && W.Step(x.worker, W.Owner(W.Withdraw(why))) == Some(y.worker)
    requires y == x.(worker := y.worker, domain := d)
    requires DT.Good(d, base) && d.holding == x.domain.holding && (forall op :: Same(x.domain, d, op))
    ensures Joint(y, base)
  {
    var l := W.Owner(W.Withdraw(why));
    forall op ensures Stable(x, d, op) { assert Same(x.domain, d, op); }
    DomainRegistered(x, d);
    var z := x.(domain := d);
    WT.InvStep(x.worker, l, y.worker);
    WorkerRegistered(z, l, y.worker);
    forall op ensures About(y, op) {
      assert About(x, op);
      DomainKeeps(x, d, op);
      WorkerKeeps(z, l, y.worker, op);
    }
    if d.holding.Some? { assert Same(x.domain, d, d.holding.value.op); }
  }

  lemma OperationGoes(x: Daemon, now: Time, e: D.Domain, w: W.Sys, op: OpId)
    requires WT.Inv(x.worker) && About(x, op) && Flow.PassesGate(x.worker, W.Owner(W.Go), op)
    requires W.Step(x.worker, W.Owner(W.Go)) == Some(w)
    requires Registered(x, x.worker.hand.value) && Moved(x.domain, e, op, Running)
    requires now < x.domain.journal.ops[op].deadlineAt
    ensures About(x.(worker := w, domain := e, gates := x.gates[op := now]), op)
  {
    assert Once.Ledger(x.worker, op);
    Flow.HeldHasFuture(x.worker, x.worker.hand.value);
    Flow.StepGates(x.worker, W.Owner(W.Go), w, op);
  }

  lemma OthersGo(x: Daemon, now: Time, e: D.Domain, w: W.Sys, op: OpId, id: OpId)
    requires WT.Inv(x.worker) && About(x, id) && Flow.PassesGate(x.worker, W.Owner(W.Go), op) && id != op
    requires W.Step(x.worker, W.Owner(W.Go)) == Some(w) && Same(x.domain, e, id)
    requires x.worker.hand.Some? ==> Registered(x.(domain := e), x.worker.hand.value)
    ensures About(x.(worker := w, domain := e, gates := x.gates[op := now]), id)
  {
    DomainKeeps(x, e, id);
    WorkerKeeps(x.(domain := e), W.Owner(W.Go), w, id);
  }

  lemma RegisteredGo(x: Daemon, e: D.Domain, y: Daemon)
    requires WT.Inv(x.worker) && AllRegistered(x) && (forall op :: Stable(x, e, op))
    requires x.earlier <= x.domain.journal.ops.Keys
    requires W.Step(x.worker, W.Owner(W.Go)) == Some(y.worker) && y.domain == e && y.earlier == x.earlier
    ensures AllRegistered(y) && y.earlier <= y.domain.journal.ops.Keys
  {
    DomainRegistered(x, e);
    WorkerRegistered(x.(domain := e), W.Owner(W.Go), y.worker);
    forall i | Flow.Has(y.worker, i) ensures Registered(y, i) {
      assert Registered(x.(domain := e, worker := y.worker), i);
    }
  }

  /** The gate opens: RUNNING is durable, the deadline has not passed, and the worker goes on. */
  lemma JointGo(x: Daemon, now: Time, e: D.Domain, y: Daemon, base: nat)
    requires Joint(x, base) && AtGate(x) && DT.Good(e, base) && e.holding.None?
    requires var op := x.worker.hand.value.id;
             && now < x.domain.journal.ops[op].deadlineAt
             && Moved(x.domain, e, op, Running)
             && (forall id :: id != op ==> Same(x.domain, e, id))
             && W.Step(x.worker, W.Owner(W.Go)) == Some(y.worker)
             && y == x.(worker := y.worker, domain := e, gates := x.gates[op := now])
    ensures Joint(y, base)
  {
    var op := x.worker.hand.value.id;
    WT.InvStep(x.worker, W.Owner(W.Go), y.worker);
    forall id ensures Stable(x, e, id) { assert id != op ==> Same(x.domain, e, id); }
    RegisteredGo(x, e, y);
    DomainRegistered(x, e);
    assert Flow.Has(x.worker, x.worker.hand.value);
    forall id ensures About(y, id) {
      assert About(x, id);
      if id == op { OperationGoes(x, now, e, y.worker, op); } else { OthersGo(x, now, e, y.worker, op, id); }
    }
  }

  lemma DispatchGoes(x: Daemon, now: Time, commits: bool, y: Daemon, base: nat)
    requires Joint(x, base) && DispatchStep(x, now, commits) == Some(y)
    requires now < x.domain.journal.ops[x.worker.hand.value.id].deadlineAt
    requires D.Move(x.domain, x.worker.hand.value.id, Running, now, commits).Ok?
    ensures Joint(y, base)
  {
    var op := x.worker.hand.value.id;
    RecordKeeps(x.domain, op, Running, now, commits, base);
    forall id ensures if id == op then Moved(x.domain, y.domain, id, Running) else Same(x.domain, y.domain, id) {
      MoveFlow(x.domain, op, Running, now, commits, id);
    }
    JointGo(x, now, y.domain, y, base);
  }

  lemma JointDispatch(x: Daemon, now: Time, commits: bool, y: Daemon, base: nat)
    requires Joint(x, base) && DispatchStep(x, now, commits) == Some(y)
    ensures Joint(y, base)
  {
    var op := x.worker.hand.value.id;
    if now < x.domain.journal.ops[op].deadlineAt && D.Move(x.domain, op, Running, now, commits).Ok? {
      DispatchGoes(x, now, commits, y, base);
    } else {
      DispatchWithdraws(x, now, commits, y, base);
    }
  }

  lemma DispatchWithdraws(x: Daemon, now: Time, commits: bool, y: Daemon, base: nat)
    requires Joint(x, base) && DispatchStep(x, now, commits) == Some(y)
    requires now >= x.domain.journal.ops[x.worker.hand.value.id].deadlineAt
             || D.Move(x.domain, x.worker.hand.value.id, Running, now, commits).Err?
    ensures Joint(y, base)
  {
    var op := x.worker.hand.value.id;
    if now >= x.domain.journal.ops[op].deadlineAt {
      JointWithdraw(x, W.DeadlineExpired, x.domain, y, base);
    } else {
      RecordKeeps(x.domain, op, Running, now, commits, base);
      JointWithdraw(x, W.NotRecorded, y.domain, y, base);
    }
  }

  lemma OperationBegins(x: Daemon, op: OpId, y: Daemon, id: OpId)
    requires BeginStep(x, op) == Some(y) && Refines(x.domain.journal, op) && About(x, op) && About(x, id)
    ensures About(y, id)
  {
    if id == op {
      assert Ours(x, op);
      assert Settles(x, op, y.settling[op]);
    }
  }

  lemma JointBegin(x: Daemon, op: OpId, y: Daemon, base: nat)
    requires Joint(x, base) && BeginStep(x, op) == Some(y)
    ensures Joint(y, base)
  {
    assert y == x.(settling := y.settling);
    forall i | Flow.Has(y.worker, i) ensures Registered(y, i) { assert Registered(x, i); }
    assert Refines(x.domain.journal, op);
    forall id ensures About(y, id) {
      assert About(x, id) && About(x, op);
      OperationBegins(x, op, y, id);
    }
  }

  lemma OperationEnds(x: Daemon, op: OpId, at: Time, commits: bool, y: Daemon, id: OpId)
    requires EndStep(x, op, at, commits) == Some(y) && About(x, op) && About(x, id)
    ensures About(y, id) && Stable(x, y.domain, id)
  {
    RecordFlow(x.domain, op, x.settling[op], at, commits, id);
    if Same(x.domain, y.domain, id) { DomainKeeps(x, y.domain, id); }
  }

  lemma JointEnd(x: Daemon, op: OpId, at: Time, commits: bool, y: Daemon, base: nat)
    requires Joint(x, base) && EndStep(x, op, at, commits) == Some(y)
    ensures Joint(y, base)
  {
    assert y == x.(domain := y.domain, settling := y.settling);
    RecordKeeps(x.domain, op, x.settling[op], at, commits, base);
    RecordFlow(x.domain, op, x.settling[op], at, commits, op);
    forall id ensures Stable(x, y.domain, id) && About(y, id) {
      assert About(x, id) && About(x, op);
      OperationEnds(x, op, at, commits, y, id);
    }
    DomainRegistered(x, y.domain);
    forall i | Flow.Has(y.worker, i) ensures Registered(y, i) { assert Registered(x.(domain := y.domain), i); }
  }

  lemma JointStep(x: Daemon, l: Label, y: Daemon, base: nat)
    requires Joint(x, base) && Step(x, l) == Some(y)
    ensures Joint(y, base)
  {
    match l
    case Asks(q, ticket, c0, c1, c2) => JointAsk(x, q, ticket, c0, c1, c2, y, base);
    case InDomain(dl) => JointDomain(x, dl, y, base);
    case InWorker(wl) => JointWorker(x, wl, y, base);
    case HandsOver(op) => JointHandOver(x, op, y, base);
    case Queries(item) => JointQuery(x, item, y, base);
    case Commits => JointCommit(x, y, base);
    case Refuses(op) => JointRefuse(x, op, y, base);
    case Dispatches(now, commits) => JointDispatch(x, now, commits, y, base);
    case BeginsSettling(op) => JointBegin(x, op, y, base);
    case EndsSettling(op, at, commits) => JointEnd(x, op, at, commits, y, base);
  }

  lemma {:induction false} JointExec(x: Daemon, labels: seq<Label>, y: Daemon, base: nat)
    requires Joint(x, base) && Exec(x, labels) == Some(y)
    ensures Joint(y, base)
    decreases |labels|
  {
    if labels != [] {
      var m := Step(x, labels[0]).value;
      JointStep(x, labels[0], m, base);
      JointExec(m, labels[1..], y, base);
    }
  }

  ghost predicate Reachable(x: Daemon) {
    exists capacity: nat, maxReconnects: nat, j: Store<Values>, labels: seq<Label> ::
      DT.Sound(j) && Exec(Boot(capacity, maxReconnects, j), labels) == Some(x)
  }

  lemma JointReachable(x: Daemon) returns (base: nat)
    requires Reachable(x)
    ensures Joint(x, base)
  {
    var capacity: nat, maxReconnects: nat, j: Store<Values>, labels: seq<Label> :|
      DT.Sound(j) && Exec(Boot(capacity, maxReconnects, j), labels) == Some(x);
    base := |j.log|;
    JointBoot(capacity, maxReconnects, j);
    JointExec(Boot(capacity, maxReconnects, j), labels, x, base);
  }

  lemma JointBoot(capacity: nat, maxReconnects: nat, j: Store<Values>)
    requires DT.Sound(j)
    ensures Joint(Boot(capacity, maxReconnects, j), |j.log|)
  {
    var x := Boot(capacity, maxReconnects, j);
    forall op ensures About(x, op) {
    }
  }

  /** The daemon keeps what its worker and its journal keep on their own. */
  lemma DaemonKeepsBoth(x: Daemon) returns (base: nat)
    requires Reachable(x)
    ensures WT.StopSafe(x.worker.history) && WT.NeverReplayed(x.worker.history)
    ensures DT.Good(x.domain, base)
  {
    base := JointReachable(x);
    WT.InvIsStopSafe(x.worker);
  }

  // ---------- the dispatch gate ----------

  /** The step that puts a command on the wire. */
  predicate Writes(x: Daemon, y: Daemon, item: Q.Item) {
    y.worker.history == W.Push(x.worker.history, W.WroteItem(item.id)) && x.worker.hand == Some(item)
  }

  lemma OnlySendWrites(x: Daemon, l: Label, y: Daemon, item: Q.Item)
    requires Step(x, l) == Some(y) && Writes(x, y, item)
    ensures x.worker.pc == W.Serve(W.ItemSend)
  {
    assert y.worker.history[|x.worker.history|] == W.WroteItem(item.id);
    match l
    case InWorker(wl) => WT.StepAppends(x.worker, wl, y.worker);
    case HandsOver(op) =>
      var wl := match x.tickets[op]
        case WorkTicket(intent) => W.SubmitCheck(Q.Item(op, intent))
        case StopTicket => W.SubmitStop(op);
      WT.StepAppends(x.worker, wl, y.worker);
    case Queries(i) => WT.StepAppends(x.worker, W.SubmitCheck(i), y.worker);
    case Commits => WT.StepAppends(x.worker, W.SubmitCommit, y.worker);
    case Dispatches(_, _) => DispatchAppends(x, l, y);
    case _ =>
  }

  lemma DispatchAppends(x: Daemon, l: Label, y: Daemon)
    requires l.Dispatches? && Step(x, l) == Some(y)
    ensures WT.Appends(x.worker, y.worker)
  {
    var op := x.worker.hand.value.id;
    if l.now >= x.domain.journal.ops[op].deadlineAt {
      WT.OwnerAppends(x.worker, W.Withdraw(W.DeadlineExpired), y.worker);
    } else if D.Move(x.domain, op, Running, l.now, l.commits).Ok? {
      WT.OwnerAppends(x.worker, W.Go, y.worker);
    } else {
      WT.OwnerAppends(x.worker, W.Withdraw(W.NotRecorded), y.worker);
    }
  }

  /**
   A home or sort command goes out only while the journal holds RUNNING for its operation,
   through a gate at which its deadline had not passed, and never a second time.
   */
  lemma DispatchGate(x: Daemon, l: Label, y: Daemon, item: Q.Item)
    requires Reachable(x) && Step(x, l) == Some(y) && Writes(x, y, item) && !item.intent.QueryIntent?
    ensures var op := item.id; var j := x.domain.journal;
            && op in j.ops && op !in x.earlier && j.ops[op].state == Running && Fits(j.ops[op].action, item.intent)
            && op in x.gates && x.gates[op] < j.ops[op].deadlineAt
            && W.WroteItem(op) !in x.worker.history
  {
    var base := JointReachable(x);
    OnlySendWrites(x, l, y, item);
    assert Flow.Has(x.worker, item);
    assert About(x, item.id) && Refines(x.domain.journal, item.id);
    assert Once.Ledger(x.worker, item.id) && Evidence.Evidence(x.worker, item.id);
    Flow.HeldHasFuture(x.worker, item);
  }

  // ---------- honest outcomes ----------

  /** What the wire history must show for the recorded state of an ordinary operation. */
  ghost predicate Honest(state: OpState, ran: bool, h: seq<W.Event>, op: OpId) {
    match state
    case Succeeded => ran && W.WroteItem(op) in h && W.ReadTerminal(op, true) in h
    case Failed => ran ==> W.WroteItem(op) in h && W.ReadTerminal(op, false) in h
    case Cancelled => ran ==> Evidence.StoppedAfter(h, op)
    case _ => true
  }

  /** Neither a correlated terminal nor a confirmed stop followed the command. */
  ghost predicate Unanswered(h: seq<W.Event>, op: OpId) {
    W.ReadTerminal(op, true) !in h && W.ReadTerminal(op, false) !in h && !Evidence.StoppedAfter(h, op)
  }

  /**
   Success is recorded only for a command that ran and got its correlated success; once it
   ran, failure needs the correlated error, cancellation a confirmed stop after the
   command, and everything else is UNCERTAIN. What never ran was never written.
   */
  lemma OutcomesAreHonest(x: Daemon, op: OpId)
    requires Reachable(x) && op in x.domain.journal.ops && op !in x.earlier
    requires x.domain.journal.ops[op].action.Home? || x.domain.journal.ops[op].action.Sort?
    ensures Honest(x.domain.journal.ops[op].state, RanTo(x, op), x.worker.history, op)
    ensures Terminal(x.domain.journal.ops[op].state) && RanTo(x, op) && Unanswered(x.worker.history, op)
            ==> x.domain.journal.ops[op].state == OpState.Uncertain
    ensures !RanTo(x, op) ==> W.WroteItem(op) !in x.worker.history
  {
    var base := JointReachable(x);
    assert About(x, op) && Evidence.Evidence(x.worker, op);
  }

  /** A verified session intent was read for the action of its row. */
  lemma VerifiedFits(x: Daemon, op: OpId, action: Q.SessionAction)
    requires op in x.domain.journal.ops && EventsFit(x, op) && Readiness.Verified(x.worker.history, op, action)
    ensures if action.Connect? then x.domain.journal.ops[op].action.Connect?
            else x.domain.journal.ops[op].action.Recover?
  {
    Readiness.VerifiedWasRead(x.worker.history, op, action);
  }

  /** What a recorded success rests on. */
  lemma SucceededIsBacked(x: Daemon, op: OpId)
    requires About(x, op) && Ours(x, op) && x.domain.journal.ops[op].state == Succeeded
    ensures op in x.worker.futures && x.worker.futures[op].Done? && EventsFit(x, op)
    ensures var o := x.worker.futures[op].outcome; var action := x.domain.journal.ops[op].action;
            || o.Completed?
            || (o.SessionReady? && (action.Connect? || action.Recover?))
            || (o.StopTrusted? && action.Stop?)
    ensures if x.domain.journal.ops[op].action.Stop? then W.GateOpened(op) !in x.worker.history
            else W.GateOpened(op) in x.worker.history ==> RanTo(x, op)
  {
  }

  /** The outcome a success of this action has to show. */
  ghost predicate Earned(x: Daemon, op: OpId)
    requires op in x.domain.journal.ops
  {
    match x.domain.journal.ops[op].action
    case Connect => RanTo(x, op) && Readiness.Verified(x.worker.history, op, Q.Connect)
    case Recover => RanTo(x, op) && Readiness.Verified(x.worker.history, op, Q.Recover)
    case Stop => Evidence.ConfirmedFor(x.worker.history, op)
    case _ => true
  }

  lemma SuccessIsEarned(x: Daemon, op: OpId)
    requires About(x, op) && Evidence.Evidence(x.worker, op) && Ours(x, op)
    requires x.domain.journal.ops[op].state == Succeeded
    ensures Earned(x, op)
  {
    SucceededIsBacked(x, op);
    var h := x.worker.history;
    match x.worker.futures[op].outcome
    case Completed(_) =>
    case SessionReady =>
      if Readiness.Verified(h, op, Q.Connect) {
        VerifiedFits(x, op, Q.Connect);
      } else {
        VerifiedFits(x, op, Q.Recover);
      }
    case StopTrusted =>
    case Raised(_) =>
  }

  /**
   CONNECT and RECOVER are recorded as succeeded only when, behind their gate, a status was
   read in a session whose READY still stood, and for RECOVER that READY was published after
   the gate. A STOP is recorded as succeeded only when, at some moment after it was asked
   for, the last thing on the wire was the exact `stopped` in answer to `stop`.
   */
  lemma SessionAndStopOutcomes(x: Daemon, op: OpId)
    requires Reachable(x) && op in x.domain.journal.ops && op !in x.earlier
    requires x.domain.journal.ops[op].state == Succeeded
    ensures var action := x.domain.journal.ops[op].action;
            && (action.Connect? ==> RanTo(x, op) && Readiness.Verified(x.worker.history, op, Q.Connect))
            && (action.Recover? ==> RanTo(x, op) && Readiness.Verified(x.worker.history, op, Q.Recover))
            && (action.Stop? ==> Evidence.ConfirmedFor(x.worker.history, op))
  {
    var base := JointReachable(x);
    assert About(x, op) && Evidence.Evidence(x.worker, op);
    if !x.domain.journal.ops[op].action.Configure? {
      SuccessIsEarned(x, op);
      assert Earned(x, op);
    }
  }

  lemma RecordedIsFinal(d: D.Domain, op: OpId, to: OpState, at: Time, commits: bool, id: OpId)
    requires id in d.journal.ops && Terminal(d.journal.ops[id].state)
    ensures var e := Record(d, op, to, at, commits); id in e.journal.ops && e.journal.ops[id] == d.journal.ops[id]
  {
  }

  lemma OutcomeStaysStep(x: Daemon, l: Label, y: Daemon, op: OpId)
    requires Step(x, l) == Some(y) && op in x.domain.journal.ops && Terminal(x.domain.journal.ops[op].state)
    ensures op in y.domain.journal.ops && y.domain.journal.ops[op] == x.domain.journal.ops[op]
  {
    match l
    case Asks(q, ticket, c0, c1, c2) => DT.TerminalIsFinalStep(x.domain, D.Asks(q, c0, c1, c2), y.domain, op);
    case InDomain(dl) => DT.TerminalIsFinalStep(x.domain, dl, y.domain, op);
    case Dispatches(now, commits) => RecordedIsFinal(x.domain, x.worker.hand.value.id, Running, now, commits, op);
    case EndsSettling(id, at, commits) => RecordedIsFinal(x.domain, id, x.settling[id], at, commits, op);
    case _ =>
  }

  /** A terminal record never changes. */
  lemma {:induction false} OutcomeStays(x: Daemon, labels: seq<Label>, y: Daemon, op: OpId)
    requires Exec(x, labels) == Some(y) && op in x.domain.journal.ops && Terminal(x.domain.journal.ops[op].state)
    ensures op in y.domain.journal.ops && y.domain.journal.ops[op] == x.domain.journal.ops[op]
    decreases |labels|
  {
    if labels != [] {
      var m := Step(x, labels[0]).value;
      OutcomeStaysStep(x, labels[0], m, op);
      OutcomeStays(m, labels[1..], y, op);
    }
  }
}
