/**
 What the wire history of every run looks like: a stop is only reported after the exact
 `stopped` line, a stop request lets at most one more admitted command out, and no item
 that was checked before a recovery is written after it.
 */
module WorkerStory {
  import opened Common
  import opened Session
  import opened WorkerQueue
  import opened WorkerSystem
  import opened WorkerOnce

  function Before(h: seq<Event>): seq<Event>
    requires h != []
  {
    h[..|h| - 1]
  }

  function Last(h: seq<Event>): Event
    requires h != []
  {
    h[|h| - 1]
  }

  // ---------- the stop exchange ----------

  /** The last write was the exact `stop`, and no other line than noise was read since. */
  predicate StopPending(h: seq<Event>) {
    h != [] &&
    if !Wire(Last(h)) || Last(h) == ReadOther then StopPending(Before(h)) else Last(h) == WroteStop
  }

  /** The last wire action was reading the exact `stopped` in answer to `stop`. */
  predicate StopConfirmed(h: seq<Event>) {
    h != [] &&
    if !Wire(Last(h)) then StopConfirmed(Before(h)) else Last(h) == ReadStopped && StopPending(Before(h))
  }

  // ---------- commands after a stop request ----------

  /** A stop was requested and neither a `stop` line nor a worker failure followed yet. */
  predicate Armed(h: seq<Event>) {
    h != [] &&
    match Last(h)
    case StopAsked(_) => true
    case WroteStop => false
    case WorkerFailed => false
    case _ => Armed(Before(h))
  }

  /** Admitted commands written since the request that armed the history. */
  function Burst(h: seq<Event>): nat {
    if h == [] || !Armed(h) then 0
    else Burst(Before(h)) + if Last(h).WroteItem? then 1 else 0
  }

  // ---------- admission and recovery ----------

  /** Since the last recovery the item passed an admission check that saw READY. */
  predicate CheckedReady(h: seq<Event>, id: nat) {
    if h == [] then true
    else if Last(h) == RecoveryBegan then false
    else Last(h) == Checked(id, true) || CheckedReady(Before(h), id)
  }

  predicate Fresh(h: seq<Event>, item: Item) {
    item.intent.SessionIntent? || CheckedReady(h, item.id)
  }

  ghost predicate LaneFresh(s: Sys) {
    forall item :: item in s.core.normal ==> Fresh(s.history, item)
  }

  // ---------- the invariant ----------

  predicate FailingWorker(pc: Pc) {
    match pc
    case Loop(p) => p.ToUncertain? || p.ToFailed?
    case Stop(p) => (p.StopNotify? || p.StopResolve?) && !p.trusted && !p.next.Continue?
    case _ => false
  }

  predicate StopStory(s: Sys) {
    && (s.pc.Stop? && s.pc.stop.StopWait? ==> StopPending(s.history))
    && (s.pc.Stop? && s.pc.stop.StopSeen? ==> StopConfirmed(s.history))
    && (s.pc.Stop? && (s.pc.stop.StopNotify? || s.pc.stop.StopResolve?) ==>
          if s.pc.stop.trusted then StopConfirmed(s.history) else !s.pc.stop.next.Continue?)
  }

  predicate BurstStory(s: Sys) {
    && Burst(s.history) <= 1
    && (Armed(s.history) ==> s.core.stopRequested || s.core.state == Failed || FailingWorker(s.pc) || Over(s.pc))
    && (BeforeWrite(s.pc) ==> Burst(s.history) == 0)
    && (s.core.stopRequested ==> s.core.normal == [])
    && (s.core.stopRequested ==> s.core.state == Running || s.core.state == Closing || s.core.state == Failed)
    && (s.pc.Stop? && !s.pc.stop.StopNotify? ==> s.core.stopRequested)
    && (s.pc.Stop? && (s.pc.stop.StopWait? || s.pc.stop.StopSeen?) ==> !Armed(s.history))
    && (s.pc.Stop? && s.pc.stop.StopResolve? && s.pc.stop.trusted ==> !Armed(s.history))
  }

  ghost predicate RecoveryStory(s: Sys) {
    && ((s.pc.Mend? && s.pc.mend.Drain?) || LaneFresh(s))
    && (s.lock.Some? && s.lock.value.ready && !(s.pc.Mend? && s.pc.mend.Drain?) ==>
          CheckedReady(s.history, s.lock.value.item.id))
    && (BeforeWrite(s.pc) && s.hand.Some? ==> Fresh(s.history, s.hand.value))
    && (s.pc == Serve(ItemSend) && s.hand.Some? ==> !s.hand.value.intent.SessionIntent?)
  }

  lemma StoryLifecycle(s: Sys, l: Label, t: Sys)
    requires Shape(s) && StopStory(s) && BurstStory(s) && RecoveryStory(s)
    requires l.Start? || l.StartTimeout? || l.CloseFails?
    requires LifecycleStep(s, l) == Some(t)
    ensures StopStory(t) && BurstStory(t) && RecoveryStory(t)
  {
    match l { case Start => case StartTimeout => case CloseFails(_) => case _ => }
  }

  lemma StoryClose(s: Sys, t: Sys)
    requires Shape(s) && StopStory(s) && BurstStory(s) && RecoveryStory(s)
    requires CloseStep(s) == Some(t)
    ensures StopStory(t) && BurstStory(t) && RecoveryStory(t)
  {
  }

  lemma StoryCheck(s: Sys, item: Item, t: Sys)
    requires Shape(s) && StopStory(s) && BurstStory(s) && RecoveryStory(s)
    requires CheckStep(s, item) == Some(t)
    ensures StopStory(t) && BurstStory(t) && RecoveryStory(t)
  {
  }

  lemma StoryCommit(s: Sys, t: Sys)
    requires Shape(s) && StopStory(s) && BurstStory(s) && RecoveryStory(s)
    requires CommitStep(s) == Some(t)
    ensures StopStory(t) && BurstStory(t) && RecoveryStory(t)
  {
  }

  lemma StoryAsk(s: Sys, waiter: nat, t: Sys)
    requires Shape(s) && StopStory(s) && BurstStory(s) && RecoveryStory(s)
    requires AskStep(s, waiter) == Some(t)
    ensures StopStory(t) && BurstStory(t) && RecoveryStory(t)
  {
  }

  /** Handshake traffic changes nothing the story speaks of. */
  lemma StoryHandshake(s: Sys, e: Event, pc: Pc, session: Connection)
    requires StopStory(s) && BurstStory(s) && RecoveryStory(s) && s.pc.Open?
    requires (e.WroteOther? || e.PublishedReady?) && (pc == s.pc || pc == Connected(s.pc.origin, true))
    ensures var t := Log(s, e, pc).(session := session); StopStory(t) && BurstStory(t) && RecoveryStory(t)
  {
    assert Before(Push(s.history, e)) == s.history;
    forall item | item in s.core.normal ensures Fresh(Push(s.history, e), item) { assert Fresh(s.history, item); }
  }

  lemma StoryOpening(s: Sys, c: Choice, t: Sys)
    requires Shape(s) && StopStory(s) && BurstStory(s) && RecoveryStory(s)
    requires s.pc.Open? && s.pc.open.Opening?
    requires OpenStep(s, c) == Some(t)
    ensures StopStory(t) && BurstStory(t) && RecoveryStory(t)
  {
    match c
    case Progress(to) => StoryHandshake(s, WroteOther, s.pc, to);
    case Go => StoryHandshake(s, PublishedReady, Connected(s.pc.origin, true), Ready);
    case ShutdownSeen => match s.pc.origin { case FromRun => case FromReconnect(_, _) => case FromSession => }
    case Fails(_) =>
    case _ =>
  }

  lemma StoryOpen(s: Sys, c: Choice, t: Sys)
    requires Shape(s) && StopStory(s) && BurstStory(s) && RecoveryStory(s)
    requires s.pc.Open?
    requires OpenStep(s, c) == Some(t)
    ensures StopStory(t) && BurstStory(t) && RecoveryStory(t)
  {
    match s.pc.open
    case Opening => StoryOpening(s, c, t);
    case OpenFailed(_) =>
      match s.pc.origin { case FromRun => case FromReconnect(_, _) => case FromSession => }
  }

  lemma StoryLoop(s: Sys, c: Choice, t: Sys)
    requires Shape(s) && StopStory(s) && BurstStory(s) && RecoveryStory(s)
    requires s.pc.Loop?
    requires LoopStep(s, c) == Some(t)
    ensures StopStory(t) && BurstStory(t) && RecoveryStory(t)
  {
    match s.pc.loop
    case Idle =>
    case AfterConnect =>
    case ToUncertain(_, _) =>
    case ToFailed(_, _) =>
  }

  lemma StoryStopWire(s: Sys, c: Choice, t: Sys)
    requires Shape(s) && StopStory(s) && BurstStory(s) && RecoveryStory(s)
    requires s.pc.Stop? && (s.pc.stop.StopWrite? || s.pc.stop.StopWait?)
    requires StopWireStep(s, c) == Some(t)
    ensures StopStory(t) && BurstStory(t) && RecoveryStory(t)
  {
    match s.pc.stop
    case StopWrite(_) => match c { case Go => case Fails(_) => case _ => }
    case StopWait(_) => match c { case Go => case OtherLine => case Fails(_) => case _ => }
    case _ =>
  }

  lemma StoryStopSettle(s: Sys, c: Choice, t: Sys)
    requires Shape(s) && StopStory(s) && BurstStory(s) && RecoveryStory(s)
    requires s.pc.Stop? && !s.pc.stop.StopWrite? && !s.pc.stop.StopWait?
    requires StopSettleStep(s, c) == Some(t)
    ensures StopStory(t) && BurstStory(t) && RecoveryStory(t)
  {
    match s.pc.stop
    case StopSeen(_) =>
    case StopUnsafe(_, _) =>
    case StopResolve(_, _, _) =>
    case StopNotify(_, _, next) => match next { case Continue => case FailSession(_) => case FailWorker(_) => }
  }

  lemma StoryItemOpen(s: Sys, c: Choice, t: Sys)
    requires Shape(s) && StopStory(s) && BurstStory(s) && RecoveryStory(s)
    requires s.pc == Serve(ItemStart) || s.pc == Serve(ItemGate)
    requires ItemOpenStep(s, c) == Some(t)
    ensures StopStory(t) && BurstStory(t) && RecoveryStory(t)
  {
    match c { case Go => case Withdraw(_) => case _ => }
  }

  lemma StoryItemWire(s: Sys, c: Choice, t: Sys)
    requires Shape(s) && StopStory(s) && BurstStory(s) && RecoveryStory(s)
    requires s.pc == Serve(ItemSend) || s.pc == Serve(ItemAwait)
    requires ItemWireStep(s, c) == Some(t)
    ensures StopStory(t) && BurstStory(t) && RecoveryStory(t)
  {
    match c { case Go => case OtherLine => case Terminal(_) => case Poll => case Fails(_) => case _ => }
  }

  lemma StoryItemSettle(s: Sys, c: Choice, t: Sys)
    requires Shape(s) && StopStory(s) && BurstStory(s) && RecoveryStory(s)
    requires s.pc.Serve? && (s.pc.serve.ItemResult? || s.pc.serve.ItemFault?)
    requires ItemSettleStep(s, c) == Some(t)
    ensures StopStory(t) && BurstStory(t) && RecoveryStory(t)
  {
    match s.pc.serve { case ItemResult(_) => case ItemFault(_) => }
  }

  lemma StoryRecover(s: Sys, c: Choice, t: Sys)
    requires Shape(s) && StopStory(s) && BurstStory(s) && RecoveryStory(s)
    requires s.pc.Mend? && (s.pc.mend.Publish? || s.pc.mend.Drain? || s.pc.mend.FailDrained? || s.pc.mend.Decide?)
    requires RecoverStep(s, c) == Some(t)
    ensures StopStory(t) && BurstStory(t) && RecoveryStory(t)
  {
    match s.pc.mend { case Publish => case Drain => case FailDrained => case Decide => }
  }

  lemma StoryReconnect(s: Sys, c: Choice, t: Sys)
    requires Shape(s) && StopStory(s) && BurstStory(s) && RecoveryStory(s)
    requires s.pc.Mend? && (s.pc.mend.Reactivate? || s.pc.mend.CloseLink? || s.pc.mend.Try?)
    requires ReconnectStep(s, c) == Some(t)
    ensures StopStory(t) && BurstStory(t) && RecoveryStory(t)
  {
    match s.pc.mend
    case Reactivate => match c { case Progress(_) => case Go => case Fails(_) => case _ => }
    case CloseLink =>
    case Try(_) =>
  }

  lemma StorySession(s: Sys, c: Choice, t: Sys)
    requires Shape(s) && StopStory(s) && BurstStory(s) && RecoveryStory(s)
    requires s.pc == Serve(SessionRun) || s.pc == Serve(SessionStatus)
    requires SessionStep(s, c) == Some(t)
    ensures StopStory(t) && BurstStory(t) && RecoveryStory(t)
  {
    match c { case Go => case Fails(_) => case _ => }
  }

  lemma StoryFinish(s: Sys, c: Choice, t: Sys)
    requires Shape(s) && StopStory(s) && BurstStory(s) && RecoveryStory(s)
    requires s.pc.Finish?
    requires FinishStep(s, c) == Some(t)
    ensures StopStory(t) && BurstStory(t) && RecoveryStory(t)
  {
    match s.pc.finish { case Finishing => case FinishFail(_) => case Ended => }
  }

  lemma StoryProfile(s: Sys, c: Choice, t: Sys)
    requires Shape(s) && StopStory(s) && BurstStory(s) && RecoveryStory(s)
    requires s.pc.Profile?
    requires ProfileStep(s, c) == Some(t)
    ensures StopStory(t) && BurstStory(t) && RecoveryStory(t)
  {
    match c { case Go => case Fails(_) => case _ => }
  }

  lemma StoryOwner(s: Sys, c: Choice, t: Sys)
    requires Shape(s) && StopStory(s) && BurstStory(s) && RecoveryStory(s) && OwnerStep(s, c) == Some(t)
    ensures StopStory(t) && BurstStory(t) && RecoveryStory(t)
  {
    match s.pc
    case Unstarted =>
    case Open(_, _) => StoryOpen(s, c, t);
    case Loop(_) => StoryLoop(s, c, t);
    case Stop(p) => if p.StopWrite? || p.StopWait? { StoryStopWire(s, c, t); } else { StoryStopSettle(s, c, t); }
    case Serve(p) =>
      if p.ItemStart? || p.ItemGate? { StoryItemOpen(s, c, t); }
      else if p.ItemSend? || p.ItemAwait? { StoryItemWire(s, c, t); }
      else if p.SessionRun? || p.SessionStatus? { StorySession(s, c, t); }
      else { StoryItemSettle(s, c, t); }
    case Profile => StoryProfile(s, c, t);
    case Mend(p, _) =>
      if p.Reactivate? || p.CloseLink? || p.Try? { StoryReconnect(s, c, t); } else { StoryRecover(s, c, t); }
    case Finish(_) => StoryFinish(s, c, t);
  }

  /** Resolving or cancelling a future is no part of the story. */
  lemma StoryFutures(s: Sys, t: Sys)
    requires StopStory(s) && BurstStory(s) && RecoveryStory(s)
    requires t == s.(preempted := t.preempted, futures := t.futures)
    ensures StopStory(t) && BurstStory(t) && RecoveryStory(t)
  {
  }

  lemma StoryStep(s: Sys, l: Label, t: Sys)
    requires Shape(s) && StopStory(s) && BurstStory(s) && RecoveryStory(s) && Step(s, l) == Some(t)
    ensures StopStory(t) && BurstStory(t) && RecoveryStory(t)
  {
    match l
    case Start => StoryLifecycle(s, l, t);
    case StartTimeout => StoryLifecycle(s, l, t);
    case CloseFails(_) => StoryLifecycle(s, l, t);
    case CloseWorker => StoryClose(s, t);
    case SubmitCheck(item) => StoryCheck(s, item, t);
    case SubmitCommit => StoryCommit(s, t);
    case SubmitStop(waiter) => StoryAsk(s, waiter, t);
    case FailPreempted(_) => StoryFutures(s, t);
    case CancelFuture(_) => StoryFutures(s, t);
    case Owner(c) => StoryOwner(s, c, t);
  }
}
