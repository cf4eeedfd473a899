/**
 Exactly-once resolution: in every state the accepted futures that are still unresolved
 are precisely those held by somebody, each held once, and whoever holds one may still
 resolve it. When the owning thread has ended nobody but a caller in the middle of
 failing what it took holds anything.
 */
module WorkerOnce {
  import opened Common
  import opened WorkerQueue
  import opened WorkerSystem

  function Count(ids: seq<nat>, id: nat): nat {
    multiset(ids)[id]
  }

  /** How many hold the future: the lanes, preempting callers, the owning thread. */
  function Held(s: Sys, id: nat): nat {
    Count(Ids(s.core.normal), id) + Count(s.core.waiters, id) + Count(s.preempted, id) + Count(s.taken, id)
    + if s.hand.Some? && s.hand.value.id == id then 1 else 0
  }

  /** The future that has been set running, if any. */
  predicate IsRunning(s: Sys, id: nat) {
    s.pc != Serve(ItemStart) && s.hand.Some? && s.hand.value.id == id
  }

  /** Book-keeping of one future: held at most once, and held while it is unresolved. */
  predicate Ledger(s: Sys, id: nat) {
    && Held(s, id) <= 1
    && (Held(s, id) == 1 ==> id in s.futures && !s.futures[id].Done?)
    && (id in s.futures && s.futures[id].Pending? ==> Held(s, id) == 1)
    && (id in s.futures ==> (s.futures[id].Active? <==> IsRunning(s, id)))
  }

  predicate MayHaveTaken(pc: Pc) {
    (pc.Stop? && pc.stop.StopNotify?) || (pc.Mend? && pc.mend.FailDrained?) || Over(pc)
  }

  /** The lanes have been taken for the last time. */
  predicate Over(pc: Pc) {
    pc.Finish? && !pc.finish.Finishing?
  }

  /** Which parts of the state can be occupied at which control point. */
  predicate Shape(s: Sys) {
    && (Working(s.pc) <==> s.hand.Some?)
    && (s.taken != [] ==> MayHaveTaken(s.pc))
    && (s.pc == Finish(Ended) ==> s.taken == [])
    && (s.lock.Some? ==> s.core.state == Running && s.lock.value.item.id !in s.futures)
    && (Over(s.pc) ==>
          (s.core.state == Closed || s.core.state == Failed) && s.core.normal == [] && s.core.waiters == [])
    && (s.core.state == New ==> s.pc.Unstarted?)
    && (s.core.state == Closed ==> s.pc.Unstarted? || Over(s.pc))
    && (s.pc.Unstarted? ==> s.core.state == New || s.core.state == Closed)
    && (s.pc == Open(FromRun, Opening) || s.pc == Loop(AfterConnect) ==>
          s.core.state == Starting || s.core.state == Closing)
  }

  ghost predicate Once(s: Sys) {
    Shape(s) && forall id :: Ledger(s, id)
  }

  // ---------- counting ----------

  lemma CountAppend(a: seq<nat>, b: seq<nat>, id: nat)
    ensures Count(a + b, id) == Count(a, id) + Count(b, id)
  {
  }

  lemma CountRemove(ids: seq<nat>, i: nat, id: nat)
    requires i < |ids|
    ensures Count(ids, id) == Count(ids[..i] + ids[i + 1..], id) + if ids[i] == id then 1 else 0
  {
    assert ids == ids[..i] + [ids[i]] + ids[i + 1..];
  }

  lemma CountFirst(ids: seq<nat>, id: nat)
    requires ids != []
    ensures Count(ids, id) == Count(ids[1..], id) + if ids[0] == id then 1 else 0
  {
    assert ids == [ids[0]] + ids[1..];
  }

  lemma CountFirstItem(items: seq<Item>, id: nat)
    requires items != []
    ensures Count(Ids(items), id) == Count(Ids(items[1..]), id) + if items[0].id == id then 1 else 0
  {
    assert Ids(items)[1..] == Ids(items[1..]);
    CountFirst(Ids(items), id);
  }

  lemma CountAdmit(items: seq<Item>, item: Item, id: nat)
    ensures Count(Ids(items + [item]), id) == Count(Ids(items), id) + if item.id == id then 1 else 0
  {
    assert Ids(items + [item]) == Ids(items) + [item.id];
  }

  // ---------- steps ----------

  lemma LedgerLifecycle(s: Sys, l: Label, t: Sys, id: nat)
    requires Shape(s) && Ledger(s, id)
    requires l.Start? || l.StartTimeout? || l.CloseFails?
    requires LifecycleStep(s, l) == Some(t)
    ensures Shape(t) && Ledger(t, id)
  {
  }

  lemma LedgerClose(s: Sys, t: Sys, id: nat)
    requires Shape(s) && Ledger(s, id)
    requires CloseStep(s) == Some(t)
    ensures Shape(t) && Ledger(t, id)
  {
    CountAppend(s.preempted, Ids(s.core.normal), id);
  }

  lemma LedgerCheck(s: Sys, item: Item, t: Sys, id: nat)
    requires Shape(s) && Ledger(s, id)
    requires CheckStep(s, item) == Some(t)
    ensures Shape(t) && Ledger(t, id)
  {
  }

  lemma LedgerCommit(s: Sys, t: Sys, id: nat)
    requires Shape(s) && Ledger(s, id)
    requires CommitStep(s) == Some(t)
    ensures Shape(t) && Ledger(t, id)
  {
    CountAdmit(s.core.normal, s.lock.value.item, id);
  }

  lemma LedgerAsk(s: Sys, waiter: nat, t: Sys, id: nat)
    requires Shape(s) && Ledger(s, id)
    requires AskStep(s, waiter) == Some(t)
    ensures Shape(t) && Ledger(t, id)
  {
    CountAppend(s.preempted, Ids(s.core.normal), id);
    CountAppend(s.core.waiters, [waiter], id);
  }

  lemma LedgerFailPreempted(s: Sys, i: nat, t: Sys, id: nat)
    requires Shape(s) && Ledger(s, id)
    requires FailPreemptedStep(s, i) == Some(t)
    ensures Shape(t) && Ledger(t, id)
  {
    CountRemove(s.preempted, i, id);
  }

  lemma LedgerOpen(s: Sys, c: Choice, t: Sys, id: nat)
    requires Shape(s) && Ledger(s, id)
    requires s.pc.Open?
    requires OpenStep(s, c) == Some(t)
    ensures Shape(t) && Ledger(t, id)
  {
    match s.pc.open
    case Opening =>
      match c { case Progress(_) => case Go => case ShutdownSeen => case Fails(_) => case _ => }
    case OpenFailed(_) =>
      match s.pc.origin { case FromRun => case FromReconnect(_, _) => case FromSession => }
  }

  lemma LedgerLoop(s: Sys, c: Choice, t: Sys, id: nat)
    requires Shape(s) && Ledger(s, id)
    requires s.pc.Loop?
    requires LoopStep(s, c) == Some(t)
    ensures Shape(t) && Ledger(t, id)
  {
    match s.pc.loop
    case Idle => if s.core.normal != [] { CountFirstItem(s.core.normal, id); }
    case AfterConnect =>
    case ToUncertain(_, _) =>
    case ToFailed(_, _) =>
  }

  lemma LedgerStopSettle(s: Sys, c: Choice, t: Sys, id: nat)
    requires Shape(s) && Ledger(s, id)
    requires s.pc.Stop? && !s.pc.stop.StopWrite? && !s.pc.stop.StopWait?
    requires StopSettleStep(s, c) == Some(t)
    ensures Shape(t) && Ledger(t, id)
  {
    match s.pc.stop
    case StopSeen(_) =>
    case StopUnsafe(_, _) =>
    case StopResolve(_, _, _) =>
    case StopNotify(_, _, _) => if s.taken != [] { CountFirst(s.taken, id); }
  }

  lemma LedgerItemOpen(s: Sys, c: Choice, t: Sys, id: nat)
    requires Shape(s) && Ledger(s, id)
    requires s.pc == Serve(ItemStart) || s.pc == Serve(ItemGate)
    requires ItemOpenStep(s, c) == Some(t)
    ensures Shape(t) && Ledger(t, id)
  {
    match c { case Go => case Withdraw(_) => case _ => }
  }

  lemma LedgerItemWire(s: Sys, c: Choice, t: Sys, id: nat)
    requires Shape(s) && Ledger(s, id)
    requires s.pc == Serve(ItemSend) || s.pc == Serve(ItemAwait)
    requires ItemWireStep(s, c) == Some(t)
    ensures Shape(t) && Ledger(t, id)
  {
    match c { case Go => case OtherLine => case Terminal(_) => case Poll => case Fails(_) => case _ => }
  }

  lemma LedgerItemSettle(s: Sys, c: Choice, t: Sys, id: nat)
    requires Shape(s) && Ledger(s, id)
    requires s.pc.Serve? && (s.pc.serve.ItemResult? || s.pc.serve.ItemFault?)
    requires ItemSettleStep(s, c) == Some(t)
    ensures Shape(t) && Ledger(t, id)
  {
    match s.pc.serve { case ItemResult(_) => case ItemFault(_) => }
  }

  lemma LedgerRecover(s: Sys, c: Choice, t: Sys, id: nat)
    requires Shape(s) && Ledger(s, id)
    requires s.pc.Mend? && (s.pc.mend.Publish? || s.pc.mend.Drain? || s.pc.mend.FailDrained? || s.pc.mend.Decide?)
    requires RecoverStep(s, c) == Some(t)
    ensures Shape(t) && Ledger(t, id)
  {
    if s.taken != [] { CountFirst(s.taken, id); }
    match s.pc.mend { case Publish => case Drain => case FailDrained => case Decide => }
  }

  lemma LedgerSession(s: Sys, c: Choice, t: Sys, id: nat)
    requires Shape(s) && Ledger(s, id)
    requires s.pc == Serve(SessionRun) || s.pc == Serve(SessionStatus)
    requires SessionStep(s, c) == Some(t)
    ensures Shape(t) && Ledger(t, id)
  {
    match c
    case Go => if s.pc.serve.SessionRun? { } else { }
    case Fails(_) =>
    case _ =>
  }

  lemma LedgerFinish(s: Sys, c: Choice, t: Sys, id: nat)
    requires Shape(s) && Ledger(s, id)
    requires s.pc.Finish?
    requires FinishStep(s, c) == Some(t)
    ensures Shape(t) && Ledger(t, id)
  {
    match s.pc.finish
    case Finishing => CountAppend(Ids(s.core.normal), s.core.waiters, id);
    case FinishFail(_) => if s.taken != [] { CountFirst(s.taken, id); }
    case Ended =>
  }

  lemma LedgerStopWire(s: Sys, c: Choice, t: Sys, id: nat)
    requires Shape(s) && Ledger(s, id)
    requires s.pc.Stop? && (s.pc.stop.StopWrite? || s.pc.stop.StopWait?)
    requires StopWireStep(s, c) == Some(t)
    ensures Shape(t) && Ledger(t, id)
  {
    match c { case Go => case OtherLine => case Fails(_) => case _ => }
  }

  lemma LedgerReconnect(s: Sys, c: Choice, t: Sys, id: nat)
    requires Shape(s) && Ledger(s, id)
    requires s.pc.Mend? && (s.pc.mend.Reactivate? || s.pc.mend.CloseLink? || s.pc.mend.Try?)
    requires ReconnectStep(s, c) == Some(t)
    ensures Shape(t) && Ledger(t, id)
  {
    match s.pc.mend
    case Reactivate => match c { case Progress(_) => case Go => case Fails(_) => case _ => }
    case CloseLink =>
    case Try(_) =>
  }

  lemma LedgerProfile(s: Sys, c: Choice, t: Sys, id: nat)
    requires Shape(s) && Ledger(s, id)
    requires s.pc.Profile?
    requires ProfileStep(s, c) == Some(t)
    ensures Shape(t) && Ledger(t, id)
  {
    match c { case Go => case Fails(_) => case _ => }
  }

  lemma LedgerOwner(s: Sys, c: Choice, t: Sys, id: nat)
    requires Shape(s) && Ledger(s, id) && OwnerStep(s, c) == Some(t)
    ensures Shape(t) && Ledger(t, id)
  {
    match s.pc
    case Unstarted =>
    case Open(_, _) => LedgerOpen(s, c, t, id);
    case Loop(_) => LedgerLoop(s, c, t, id);
    case Stop(p) =>
      if p.StopWrite? || p.StopWait? {
        LedgerStopWire(s, c, t, id);
      } else {
        LedgerStopSettle(s, c, t, id);
      }
    case Serve(p) =>
      if p.ItemStart? || p.ItemGate? { LedgerItemOpen(s, c, t, id); }
      else if p.ItemSend? || p.ItemAwait? { LedgerItemWire(s, c, t, id); }
      else if p.SessionRun? || p.SessionStatus? { LedgerSession(s, c, t, id); }
      else { LedgerItemSettle(s, c, t, id); }
    case Profile => LedgerProfile(s, c, t, id);
    case Mend(p, _) =>
      if p.Reactivate? || p.CloseLink? || p.Try? { LedgerReconnect(s, c, t, id); } else { LedgerRecover(s, c, t, id); }
    case Finish(_) => LedgerFinish(s, c, t, id);
  }

  lemma LedgerStep(s: Sys, l: Label, t: Sys, id: nat)
    requires Shape(s) && Ledger(s, id) && Step(s, l) == Some(t)
    ensures Shape(t) && Ledger(t, id)
  {
    match l
    case Start => LedgerLifecycle(s, l, t, id);
    case StartTimeout => LedgerLifecycle(s, l, t, id);
    case CloseFails(_) => LedgerLifecycle(s, l, t, id);
    case CloseWorker => LedgerClose(s, t, id);
    case SubmitCheck(item) => LedgerCheck(s, item, t, id);
    case SubmitCommit => LedgerCommit(s, t, id);
    case SubmitStop(waiter) => LedgerAsk(s, waiter, t, id);
    case FailPreempted(i) => LedgerFailPreempted(s, i, t, id);
    case CancelFuture(_) =>
    case Owner(c) => LedgerOwner(s, c, t, id);
  }
}
