/** What single steps of the worker do to one item. */
module WorkerFlow {
  import opened Common
  import opened WorkerQueue
  import opened WorkerSystem
  import Once = WorkerOnce

  predicate Has(s: Sys, item: Item) {
    item in s.core.normal || s.hand == Some(item) || (s.lock.Some? && s.lock.value.item == item)
  }

  /** Items move from the admitting caller to the lane to the owning thread; none appears on the way. */
  lemma OwnerItems(s: Sys, c: Choice, t: Sys, item: Item)
    requires OwnerStep(s, c) == Some(t) && Has(t, item)
    ensures Has(s, item)
  {
    match s.pc
    case Open(_, p) => match p { case Opening => case OpenFailed(_) => }
    case Loop(p) =>
      match p { case Idle => case AfterConnect => case ToUncertain(_, _) => case ToFailed(_, _) => }
    case Stop(p) => if p.StopWrite? || p.StopWait? { } else { }
    case Serve(p) =>
      if p.ItemStart? || p.ItemGate? { } else if p.ItemSend? || p.ItemAwait? { }
      else if p.SessionRun? || p.SessionStatus? { } else { }
    case Profile =>
    case Mend(p, _) => if p.Reactivate? || p.CloseLink? || p.Try? { } else { }
    case Finish(_) =>
    case Unstarted =>
  }

  lemma StepItems(s: Sys, l: Label, t: Sys, item: Item)
    requires Step(s, l) == Some(t) && Has(t, item)
    ensures Has(s, item) || l == SubmitCheck(item)
  {
    match l
    case Owner(c) => OwnerItems(s, c, t, item);
    case _ =>
  }

  predicate PassesGate(s: Sys, l: Label, id: nat) {
    l == Owner(Go) && s.pc == Serve(ItemGate) && s.hand.Some? && s.hand.value.id == id
  }

  lemma OwnerGates(s: Sys, c: Choice, t: Sys, id: nat)
    requires OwnerStep(s, c) == Some(t)
    ensures GateOpened(id) in t.history <==> GateOpened(id) in s.history || PassesGate(s, Owner(c), id)
  {
    match s.pc
    case Open(_, p) => match p { case Opening => case OpenFailed(_) => }
    case Loop(p) =>
      match p { case Idle => case AfterConnect => case ToUncertain(_, _) => case ToFailed(_, _) => }
    case Stop(p) => if p.StopWrite? || p.StopWait? { } else { }
    case Serve(p) =>
      if p.ItemStart? || p.ItemGate? { } else if p.ItemSend? || p.ItemAwait? { }
      else if p.SessionRun? || p.SessionStatus? { } else { }
    case Profile =>
    case Mend(p, _) => if p.Reactivate? || p.CloseLink? || p.Try? { } else { }
    case Finish(_) =>
    case Unstarted =>
  }

  lemma OwnerFutures(s: Sys, c: Choice, t: Sys, id: nat)
    requires OwnerStep(s, c) == Some(t)
    ensures id in t.futures <==> id in s.futures
  {
    match s.pc
    case Open(_, p) => match p { case Opening => case OpenFailed(_) => }
    case Loop(p) =>
      match p { case Idle => case AfterConnect => case ToUncertain(_, _) => case ToFailed(_, _) => }
    case Stop(p) => if p.StopWrite? || p.StopWait? { } else { }
    case Serve(p) =>
      if p.ItemStart? || p.ItemGate? { } else if p.ItemSend? || p.ItemAwait? { }
      else if p.SessionRun? || p.SessionStatus? { } else { }
    case Profile =>
    case Mend(p, _) => if p.Reactivate? || p.CloseLink? || p.Try? { } else { }
    case Finish(_) =>
    case Unstarted =>
  }

  /** A concluding status is read for the session intent in hand only. */
  lemma OwnerReads(s: Sys, c: Choice, t: Sys, id: nat, action: SessionAction)
    requires OwnerStep(s, c) == Some(t)
    ensures ReadStatus(id, action) in t.history ==>
              ReadStatus(id, action) in s.history || s.hand == Some(Item(id, SessionIntent(action)))
  {
    match s.pc
    case Open(_, p) => match p { case Opening => case OpenFailed(_) => }
    case Loop(p) =>
      match p { case Idle => case AfterConnect => case ToUncertain(_, _) => case ToFailed(_, _) => }
    case Stop(p) => if p.StopWrite? || p.StopWait? { } else { }
    case Serve(p) =>
      if p.ItemStart? || p.ItemGate? { } else if p.ItemSend? || p.ItemAwait? { }
      else if p.SessionRun? || p.SessionStatus? { } else { }
    case Profile =>
    case Mend(p, _) => if p.Reactivate? || p.CloseLink? || p.Try? { } else { }
    case Finish(_) =>
    case Unstarted =>
  }

  lemma StepReads(s: Sys, l: Label, t: Sys, id: nat, action: SessionAction)
    requires Step(s, l) == Some(t)
    ensures ReadStatus(id, action) in t.history ==>
              ReadStatus(id, action) in s.history || s.hand == Some(Item(id, SessionIntent(action)))
  {
    match l
    case Owner(c) => OwnerReads(s, c, t, id, action);
    case _ =>
  }

  predicate Enters(s: Sys, l: Label, id: nat) {
    l == SubmitStop(id) || (l == SubmitCommit && s.lock.Some? && s.lock.value.item.id == id)
  }

  /** The gate marker is the owning thread's; a future is created by its own hand-over only. */
  lemma StepGates(s: Sys, l: Label, t: Sys, id: nat)
    requires Step(s, l) == Some(t)
    ensures GateOpened(id) in t.history <==> GateOpened(id) in s.history || PassesGate(s, l, id)
    ensures id in t.futures ==> id in s.futures || Enters(s, l, id)
    ensures t.lock.Some? ==> t.lock == s.lock || (l.SubmitCheck? && t.lock.value.item == l.item)
  {
    match l
    case Owner(c) => OwnerGates(s, c, t, id); OwnerFutures(s, c, t, id); OwnerLock(s, c, t);
    case _ =>
  }

  lemma OwnerLock(s: Sys, c: Choice, t: Sys)
    requires OwnerStep(s, c) == Some(t)
    ensures t.lock == s.lock
  {
    match s.pc
    case Open(_, p) => match p { case Opening => case OpenFailed(_) => }
    case Loop(p) =>
      match p { case Idle => case AfterConnect => case ToUncertain(_, _) => case ToFailed(_, _) => }
    case _ =>
  }

  /** What the lane or the owning thread holds has a future. */
  lemma HeldHasFuture(s: Sys, item: Item)
    requires Once.Ledger(s, item.id) && (item in s.core.normal || s.hand == Some(item))
    ensures item.id in s.futures
  {
    if item in s.core.normal {
      var k :| 0 <= k < |s.core.normal| && s.core.normal[k] == item;
      assert Ids(s.core.normal)[k] == item.id;
      assert item.id in Ids(s.core.normal);
    }
  }
}

/** What single steps of the domain do to one operation. */
module DomainFlow {
  import opened Common
  import opened Operations
  import opened Journal
  import opened Machine
  import D = Domain

  /** Nothing about this operation changed. */
  ghost predicate Same(d: D.Domain, e: D.Domain, op: OpId) {
    && (op in d.journal.ops <==> op in e.journal.ops)
    && (op in d.journal.ops ==> d.journal.ops[op] == e.journal.ops[op])
    && (Entered(d.journal.log, op, Running) <==> Entered(e.journal.log, op, Running))
  }

  /** The operation moved to another state, and nothing else about it changed. */
  ghost predicate Moved(d: D.Domain, e: D.Domain, op: OpId, to: OpState) {
    && op in d.journal.ops && op in e.journal.ops
    && CanTransition(d.journal.ops[op].state, to)
    && e.journal.ops[op].state == to
    && e.journal.ops[op].action == d.journal.ops[op].action
    && e.journal.ops[op].deadlineAt == d.journal.ops[op].deadlineAt
    && (Entered(e.journal.log, op, Running) <==> Entered(d.journal.log, op, Running) || to.Running?)
  }

  lemma MoveFlow(d: D.Domain, op: OpId, to: OpState, at: Time, commits: bool, id: OpId)
    requires D.Move(d, op, to, at, commits).Ok?
    ensures var e := D.Move(d, op, to, at, commits).value;
            && e.holding == d.holding
            && if id == op then Moved(d, e, id, to) else Same(d, e, id)
  {
    var e := D.Move(d, op, to, at, commits).value;
    LogGrows(d.journal.log, e.journal.log[|d.journal.log|], id);
  }

  /** A fresh row of an operation the journal did not hold. */
  ghost predicate Opened(d: D.Domain, e: D.Domain, op: OpId, action: Action) {
    && op !in d.journal.ops && op in e.journal.ops && e.journal.ops[op].action == action
    && !Terminal(e.journal.ops[op].state)
  }

  lemma AdmitFlow(d: D.Domain, q: D.Request, c0: bool, c1: bool, id: OpId)
    requires Refines(d.journal, q.op)
    ensures var r := D.Admit(d, q, c0, c1);
            var e := match r case Ok(x) => x case Err(x) => x;
            && e.holding == d.holding
            && (id != q.op ==> Same(d, e, id))
            && (Same(d, e, q.op) || (Opened(d, e, q.op, q.action) && !Entered(e.journal.log, q.op, Running)))
            && (r.Ok? ==> Opened(d, e, q.op, q.action) && e.journal.ops[q.op].state == Accepted)
  {
    var rec := KeyRecord(q.fingerprint, q.op, q.now, q.expiresAt);
    match RecordAdmission(d.journal, q.op, D.NewRow(d, q), q.key, rec, c0)
    case Err(_) =>
    case Ok(j) =>
      var queued := d.(journal := j);
      LogGrows(d.journal.log, j.log[|d.journal.log|], id);
      LogGrows(d.journal.log, j.log[|d.journal.log|], q.op);
      assert !Entered(d.journal.log, q.op, Running);
      if D.Move(queued, q.op, Accepted, q.now, c1).Ok? {
        MoveFlow(queued, q.op, Accepted, q.now, c1, id);
        MoveFlow(queued, q.op, Accepted, q.now, c1, q.op);
      }
  }

  /** Admission touches nothing but the operation it admits. */
  lemma SubmitFlow(d: D.Domain, q: D.Request, c0: bool, c1: bool, c2: bool, id: OpId)
    requires Refines(d.journal, q.op)
    ensures var (e, v) := D.Submit(d, q, c0, c1, c2);
            && e.holding == d.holding
            && (id != q.op ==> Same(d, e, id))
            && (Same(d, e, q.op) || Opened(d, e, q.op, q.action))
            && (!q.action.Stop? && Opened(d, e, q.op, q.action) ==> !Entered(e.journal.log, q.op, Running))
            && (v.Admitted? ==>
                  && v.op == q.op && Opened(d, e, q.op, q.action)
                  && e.journal.ops[q.op].state == (if q.action.Stop? then Running else Accepted))
  {
    if D.Check(d, q).None? {
      AdmitFlow(d, q, c0, c1, id);
      AdmitFlow(d, q, c0, c1, q.op);
      match D.Admit(d, q, c0, c1)
      case Err(_) =>
      case Ok(a) =>
        if q.action.Stop? && D.Move(a, q.op, Running, q.now, c2).Ok? {
          MoveFlow(a, q.op, Running, q.now, c2, id);
          MoveFlow(a, q.op, Running, q.now, c2, q.op);
        }
    }
  }

  lemma BeginFlow(d: D.Domain, q: D.Request, call: D.Call, c0: bool, c1: bool, id: OpId)
    requires Refines(d.journal, q.op) && d.holding.None?
    ensures var e := D.BeginConfigure(d, q, call, c0, c1).0;
            && (id != q.op ==> Same(d, e, id))
            && (Same(d, e, q.op) || Opened(d, e, q.op, q.action))
            && (e.holding.Some? ==> e.holding.value.op == q.op && Opened(d, e, q.op, q.action))
  {
    if D.Check(d, q).None? {
      AdmitFlow(d, q, c0, c1, id);
      AdmitFlow(d, q, c0, c1, q.op);
      match D.Admit(d, q, c0, c1) { case Err(_) => case Ok(_) => }
    }
  }

  /** The configuration being applied belongs to a configure operation. */
  predicate HoldingFits(d: D.Domain) {
    d.holding.Some? ==> d.holding.value.op in d.journal.ops && d.journal.ops[d.holding.value.op].action.Configure?
  }

  lemma ContinueFlow(d: D.Domain, at: Time, commits: bool, id: OpId)
    requires HoldingFits(d) && d.holding.Some?
    ensures var e := D.ContinueConfigure(d, at, commits);
            && (e.holding.Some? ==> e.holding.value.op == d.holding.value.op)
            && (id != d.holding.value.op ==> Same(d, e, id))
            && (id == d.holding.value.op ==> id in e.journal.ops && e.journal.ops[id].action.Configure?)
  {
    var op := d.holding.value.op;
    match d.holding.value.stage
    case Recorded => if D.Move(d, op, Running, at, commits).Ok? { MoveFlow(d, op, Running, at, commits, id); }
    case Begun =>
    case Stored =>
    case Announced => if D.Move(d, op, Succeeded, at, commits).Ok? { MoveFlow(d, op, Succeeded, at, commits, id); }
  }

  /** Steps of the domain on its own leave every operation but configure operations as it was. */
  ghost predicate Apart(d: D.Domain, e: D.Domain, op: OpId) {
    || Same(d, e, op)
    || (&& op in d.journal.ops && d.journal.ops[op].action.Configure?
        && op in e.journal.ops && e.journal.ops[op].action.Configure?)
    || Opened(d, e, op, Configure)
  }

  lemma StepFlow(d: D.Domain, l: D.Label, e: D.Domain, op: OpId)
    requires (forall id :: Refines(d.journal, id)) && HoldingFits(d)
    requires D.Step(d, l) == Some(e) && !l.Asks? && !l.Moves?
    ensures HoldingFits(e) && Apart(d, e, op)
    ensures Opened(d, e, op, Configure) ==> l.AppliesConfiguration? && l.q.op == op
  {
    match l
    case PrunesKeys(_) =>
    case ReadsConfiguration(_, _, _) =>
    case Latches =>
    case SeesConnection(_) =>
    case SeesProfile(_) =>
    case ContinuesConfiguration(at, commits) =>
      ContinueFlow(d, at, commits, op);
      ContinueFlow(d, at, commits, d.holding.value.op);
    case AppliesConfiguration(call, q, c0, c1) =>
      assert Refines(d.journal, q.op);
      BeginFlow(d, q, d.calls[call], c0, c1, op);
      BeginFlow(d, q, d.calls[call], c0, c1, q.op);
  }
}
