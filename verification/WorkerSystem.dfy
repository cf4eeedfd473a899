/**
 The serial worker as a concurrent step system.

 Any number of caller threads submit work, ask for a stop, close the worker or cancel a
 future while the single owning thread connects, dispatches, stops and recovers. One
 label is one atomic step: a critical section of the condition lock, a publication of
 the session state, one wire action, or one resolution of a future. A run is any
 sequence of enabled labels.
 */
module WorkerSystem {
  import opened Common
  import opened Session
  import opened WorkerQueue

  // ---------- futures ----------

  /** Why the dispatch callback withdrew an item before its first byte. */
  datatype Withdrawal = DeadlineExpired | NotRecorded

  datatype Error =
    | PreemptedByStop
    | PreemptedByRecovery
    | WorkerUncertain
    | WorkerStopped
    | Withdrawn(why: Withdrawal)
    | Faulted(fault: Fault)

  datatype Outcome = Completed(ok: bool) | SessionReady | StopTrusted | Raised(error: Error)

  datatype Future = Pending | Active | Cancelled | Done(outcome: Outcome)

  // ---------- the observable history ----------

  /** Wire actions of the owning thread, and markers for the steps the claims speak of. */
  datatype Event =
    | Checked(id: nat, ready: bool)     // an admission read the session state
    | StopAsked(waiter: Option<nat>)        // the stop flag went up, for a waiter or for a shutdown
    | StopJoined(id: nat)               // a waiter joined a stop already asked for
    | GateOpened(id: nat)               // the dispatch callback let the item through
    | WroteItem(id: nat)                // the command of an admitted item
    | WroteStop                         // the exact `stop` line
    | WroteOther                        // handshake, profile query, recovery traffic
    | PublishedReady                    // the handshake is complete and READY is published
    | SessionLost                       // the session is given up or torn down
    | ReadStatus(id: nat, action: SessionAction)   // the status that concludes a session intent
    | ReadStopped                       // the exact `stopped` line
    | ReadTerminal(id: nat, ok: bool)   // the correlated terminal of an item
    | ReadOther                         // any other line
    | RecoveryBegan                     // `_recover` published RECOVERING
    | WorkerFailed                      // the worker entered FAILED

  predicate Wire(e: Event) {
    || e.WroteItem? || e.WroteStop? || e.WroteOther? || e.PublishedReady?
    || e.ReadStopped? || e.ReadTerminal? || e.ReadStatus? || e.ReadOther?
  }

  function Push(t: seq<Event>, e: Event): (r: seq<Event>)
    ensures |r| == |t| + 1 && r[..|t|] == t && r[|t|] == e
    ensures forall x :: x in r <==> x in t || x == e
  {
    t + [e]
  }

  // ---------- the owning thread ----------

  /** Who called `_connect`. */
  datatype Origin = FromRun | FromReconnect(attempt: nat, cause: Fault) | FromSession

  /** Who called `out_of_band_stop`: the stop lane, a request in flight, or a finished one. */
  datatype StopContext = Lane | During | After

  /** What follows `_resolve_stop`. */
  datatype Next = Continue | FailSession(cause: Fault) | FailWorker(cause: Fault)

  /** Inside `_connect`. */
  datatype OpenPoint = Opening | OpenFailed(cause: Fault)

  /** The run loop between items, and the two halves of `_fail_session`. */
  datatype LoopPoint =
    | AfterConnect
    | Idle
    | ToUncertain(cause: Fault, leave: bool)
    | ToFailed(cause: Fault, leave: bool)

  /** Inside `out_of_band_stop`, its call sites and `_resolve_stop`. */
  datatype StopPoint =
    | StopWrite(context: StopContext)
    | StopWait(context: StopContext)
    | StopSeen(context: StopContext)
    | StopUnsafe(context: StopContext, cause: Fault)
    | StopResolve(trusted: bool, cause: Fault, next: Next)
    | StopNotify(trusted: bool, cause: Fault, next: Next)

  /** Inside `_execute_item` and `_execute_session_intent`. */
  datatype ItemPoint =
    | ItemStart
    | ItemGate
    | ItemSend
    | ItemAwait
    | ItemResult(ok: bool)
    | ItemFault(cause: Fault)
    | SessionRun
    | SessionStatus

  /** Inside `_recover` and `_reconnect`. */
  datatype RecoverPoint = Publish | Drain | FailDrained | Decide | Reactivate | CloseLink | Try(attempt: nat)

  datatype FinishPoint = Finishing | FinishFail(cause: Option<Fault>) | Ended

  /** Where the owning thread is; its item and the futures it took are fields of the system. */
  datatype Pc =
    | Unstarted
    | Open(origin: Origin, open: OpenPoint)
    | Loop(loop: LoopPoint)
    | Stop(stop: StopPoint)
    | Serve(serve: ItemPoint)
    | Profile
    | Mend(mend: RecoverPoint, fault: Fault)
    | Finish(finish: FinishPoint)

  /** Does the owning thread have an item in hand at this point? */
  predicate Working(pc: Pc) {
    match pc
    case Open(o, _) => o.FromSession?
    case Stop(p) => !(p.StopResolve? || p.StopNotify? || p.context.Lane?)
    case Serve(_) => true
    case _ => false
  }

  /** Points between taking an item from the lane and writing its command. */
  predicate BeforeWrite(pc: Pc) {
    pc == Serve(ItemStart) || pc == Serve(ItemGate) || pc == Serve(ItemSend)
  }

  // ---------- the system ----------

  /** A caller inside `submit`, holding the condition lock, after reading the session. */
  datatype Holder = Holder(item: Item, ready: bool)

  datatype Sys = Sys(
    capacity: nat,
    maxReconnects: nat,
    core: Core,
    session: Connection,
    pc: Pc,
    hand: Option<Item>,             // the item the owning thread works on
    taken: seq<nat>,                // futures the owning thread took and has to resolve
    lock: Option<Holder>,
    preempted: seq<nat>,            // taken out of the lane by a caller, not failed yet
    futures: map<nat, Future>,
    history: seq<Event>)

  function Init(capacity: nat, maxReconnects: nat): Sys {
    Sys(capacity, maxReconnects, Core(New, [], false, [], None), Disconnected, Unstarted, None, [], None, [], map[], [])
  }

  /** How the owning thread's next blocking or foreign call turns out. */
  datatype Choice =
    | Go                        // the only way on, or the well-behaved way
    | Progress(to: Connection)  // a handshake stage was published
    | ShutdownSeen              // `_is_closing` answered true inside `_connect`
    | OtherLine                 // a line that settles nothing
    | Terminal(ok: bool)        // the correlated terminal of the request in flight
    | Poll                      // the interrupt callback was consulted
    | Withdraw(why: Withdrawal) // the dispatch callback raised
    | Fails(fault: Fault)

  datatype Label =
    | Start
    | StartTimeout
    | CloseWorker
    | SubmitCheck(item: Item)
    | SubmitCommit
    | SubmitStop(waiter: nat)
    | FailPreempted(index: nat)
    | CancelFuture(id: nat)
    | CloseFails(fault: Fault)
    | Owner(choice: Choice)

  function Ids(items: seq<Item>): (r: seq<nat>)
    ensures |r| == |items|
    ensures forall i :: 0 <= i < |r| ==> r[i] == items[i].id
  {
    seq(|items|, i requires 0 <= i < |items| => items[i].id)
  }

  /** `set_result` or `set_exception`, after `set_running_or_notify_cancel` where the source calls it. */
  function Resolve(fs: map<nat, Future>, id: nat, o: Outcome): map<nat, Future> {
    if id in fs && (fs[id].Pending? || fs[id].Active?) then fs[id := Done(o)] else fs
  }

  function Fail(s: Sys, f: Fault): Sys {
    if s.core.state == Closed || s.core.state == Failed then s
    else s.(core := MarkFailed(s.core, f), history := Push(s.history, WorkerFailed))
  }

  /** Where a failing `_close_transport` can be reported. */
  predicate ClosesLink(pc: Pc) {
    match pc
    case Open(_, p) => p.OpenFailed?
    case Serve(p) => p.SessionRun?
    case Mend(p, _) => p.Decide? || p.CloseLink?
    case Finish(p) => p.Finishing?
    case _ => false
  }

  /** Starting, a start that timed out, and a failing `_close_transport`. */
  function LifecycleStep(s: Sys, l: Label): Option<Sys>
    requires l.Start? || l.StartTimeout? || l.CloseFails?
  {
    if s.lock.Some? then None else
    match l
    case Start =>
      if s.core.state == New then Some(s.(core := s.core.(state := Starting), pc := Open(FromRun, Opening))) else None
    case StartTimeout =>
      if s.core.state == Starting then Some(s.(core := s.core.(state := Closing))) else None
    case CloseFails(f) =>
      // reported where the owning thread has just closed a link
      if ClosesLink(s.pc) then Some(Fail(s, f)) else None
  }

  function CloseStep(s: Sys): Option<Sys> {
    if s.lock.Some? then None else
    var (c, items) := Close(s.core);
    var asked := c.stopRequested && !s.core.stopRequested;
    Some(s.(core := c, preempted := s.preempted + Ids(items),
            history := if asked then Push(s.history, StopAsked(None)) else s.history))
  }

  /** The two halves of `submit`: reading the session, then deciding, under one lock hold. */
  function CheckStep(s: Sys, item: Item): Option<Sys> {
    if s.lock.None? && s.core.state == Running && item.id !in s.futures then
      var ready := s.session == Ready;
      Some(s.(lock := Some(Holder(item, ready)), history := Push(s.history, Checked(item.id, ready))))
    else None
  }

  function CommitStep(s: Sys): Option<Sys> {
    if s.lock.None? then None else
    var h := s.lock.value;
    var (c, refusal) := Submit(s.core, s.capacity, h.ready, h.item);
    Some(s.(core := c, lock := None,
            futures := if refusal.None? then s.futures[h.item.id := Pending] else s.futures))
  }

  function AskStep(s: Sys, waiter: nat): Option<Sys> {
    if s.lock.Some? || waiter in s.futures then None else
    var (c, r) := AskStop(s.core, waiter);
    if r.Err? then None else
    Some(s.(core := c, preempted := s.preempted + Ids(r.value), futures := s.futures[waiter := Pending],
            history := Push(s.history, if s.core.stopRequested then StopJoined(waiter) else StopAsked(Some(waiter)))))
  }

  function FailPreemptedStep(s: Sys, i: nat): Option<Sys> {
    if i >= |s.preempted| then None else
    Some(s.(preempted := s.preempted[..i] + s.preempted[i + 1..],
            futures := Resolve(s.futures, s.preempted[i], Raised(PreemptedByStop))))
  }

  function CancelStep(s: Sys, id: nat): Option<Sys> {
    if id in s.futures && s.futures[id].Pending? then Some(s.(futures := s.futures[id := Cancelled])) else None
  }

  function Step(s: Sys, l: Label): Option<Sys> {
    match l
    case Start => LifecycleStep(s, l)
    case StartTimeout => LifecycleStep(s, l)
    case CloseFails(_) => LifecycleStep(s, l)
    case CloseWorker => CloseStep(s)
    case SubmitCheck(item) => CheckStep(s, item)
    case SubmitCommit => CommitStep(s)
    case SubmitStop(waiter) => AskStep(s, waiter)
    case FailPreempted(i) => FailPreemptedStep(s, i)
    case CancelFuture(id) => CancelStep(s, id)
    case Owner(choice) => OwnerStep(s, choice)
  }

  /** One step of the owning thread. Steps that enter the condition lock need it free. */
  function OwnerStep(s: Sys, choice: Choice): Option<Sys> {
    if Working(s.pc) != s.hand.Some? then None else
    match s.pc
    case Unstarted => None
    case Open(_, _) => OpenStep(s, choice)
    case Loop(_) => LoopStep(s, choice)
    case Stop(p) =>
      if p.StopWrite? || p.StopWait? then StopWireStep(s, choice) else StopSettleStep(s, choice)
    case Serve(p) =>
      if p.ItemStart? || p.ItemGate? then ItemOpenStep(s, choice)
      else if p.ItemSend? || p.ItemAwait? then ItemWireStep(s, choice)
      else if p.SessionRun? || p.SessionStatus? then SessionStep(s, choice)
      else ItemSettleStep(s, choice)
    case Profile => ProfileStep(s, choice)
    case Mend(p, _) =>
      if p.Reactivate? || p.CloseLink? || p.Try? then ReconnectStep(s, choice) else RecoverStep(s, choice)
    case Finish(_) => FinishStep(s, choice)
  }

  /** The owning thread appends to the history and moves on. */
  function Log(s: Sys, e: Event, pc: Pc): Sys {
    s.(history := Push(s.history, e), pc := pc)
  }

  /** The owning thread resolves its item and lets go of it. */
  function Conclude(s: Sys, o: Outcome, pc: Pc): Sys
    requires s.hand.Some?
  {
    s.(futures := Resolve(s.futures, s.hand.value.id, o), hand := None, pc := pc)
  }

  /** The owning thread resolves the first future it took. */
  function ConcludeFirst(s: Sys, o: Outcome): Sys
    requires s.taken != []
  {
    s.(futures := Resolve(s.futures, s.taken[0], o), taken := s.taken[1..])
  }

  /** `_connect`, for whichever caller it runs; a failed one closes its transport first. */
  function OpenStep(s: Sys, choice: Choice): Option<Sys>
    requires s.pc.Open? && Working(s.pc) == s.hand.Some?
  {
    var origin := s.pc.origin;
    match s.pc.open
    case OpenFailed(f) =>
      if choice != Go then None else
      Some(match origin
           case FromRun => s.(pc := Loop(ToUncertain(f, true)))
           case FromReconnect(k, cause) => s.(session := Disconnected, pc := Mend(Try(k + 1), cause))
           case FromSession => Conclude(s, Raised(Faulted(f)), Loop(ToUncertain(f, true))))
    case Opening =>
      (match choice
       case Progress(to) =>
         if to == Connecting || to == VerifyingV1 || to == ActivatingV2 then
           Some(Log(s, WroteOther, s.pc).(session := to))
         else None
       case Go => Some(Log(s, PublishedReady, Connected(origin, true)).(session := Ready))
       case ShutdownSeen =>
         if s.lock.Some? || s.core.state != Closing then None
         else Some(s.(pc := Connected(origin, false)))
       case Fails(f) => Some(s.(pc := Open(origin, OpenFailed(f))))
       case _ => None)
  }

  /** Where `_connect` returns to, with or without a verified session. */
  function Connected(o: Origin, verified: bool): Pc {
    match o
    case FromRun => Loop(AfterConnect)
    case FromReconnect(_, _) => if verified then Loop(Idle) else Finish(Finishing)
    case FromSession => Serve(SessionStatus)
  }

  function LoopStep(s: Sys, choice: Choice): Option<Sys>
    requires s.pc.Loop?
  {
    if choice != Go then None else
    match s.pc.loop
    case AfterConnect =>
      if s.lock.Some? then None
      else if s.core.state == Closing then Some(s.(pc := Finish(Finishing)))
      else Some(s.(core := s.core.(state := Running), pc := Loop(Idle)))
    case Idle =>
      if s.lock.Some? then None else
      var (c, action) := NextAction(s.core);
      (match action
       case None => None
       case Some(StopLane) => Some(s.(core := c, pc := Stop(StopWrite(Lane))))
       case Some(Leave) => Some(s.(core := c, pc := Finish(Finishing)))
       case Some(Work(item)) => Some(s.(core := c, hand := Some(item), pc := Serve(ItemStart))))
    case ToUncertain(f, leave) => Some(Log(s, SessionLost, Loop(ToFailed(f, leave))).(session := Uncertain))
    case ToFailed(f, leave) =>
      if s.lock.Some? then None
      else Some(Fail(s, f).(pc := if leave then Finish(Finishing) else Loop(Idle)))
  }

  /** `out_of_band_stop`: write `stop`, then read until the exact `stopped`. */
  function StopWireStep(s: Sys, choice: Choice): Option<Sys>
    requires s.pc.Stop? && (s.pc.stop.StopWrite? || s.pc.stop.StopWait?)
  {
    var ctx := s.pc.stop.context;
    match choice
    case Go =>
      Some(if s.pc.stop.StopWrite? then Log(s, WroteStop, Stop(StopWait(ctx)))
           else Log(s, ReadStopped, Stop(StopSeen(ctx))))
    case OtherLine => if s.pc.stop.StopWait? then Some(Log(s, ReadOther, s.pc)) else None
    case Fails(f) => Some(Log(s, WroteOther, Stop(StopUnsafe(ctx, f))))
    case _ => None
  }

  /** What each call site does with the stop's outcome, then `_resolve_stop`. */
  function StopSettleStep(s: Sys, choice: Choice): Option<Sys>
    requires s.pc.Stop? && !s.pc.stop.StopWrite? && !s.pc.stop.StopWait?
    requires Working(s.pc) == s.hand.Some?
  {
    if choice != Go then None else
    match s.pc.stop
    case StopSeen(ctx) =>
      var next := Stop(StopResolve(true, Unexpected, Continue));
      Some(if ctx.Lane? then s.(pc := next) else Conclude(s, Raised(PreemptedByStop), next))
    case StopUnsafe(ctx, f) =>
      var next := Stop(StopResolve(false, f, if ctx.During? then FailWorker(f) else FailSession(f)));
      Some(if ctx.Lane? then s.(pc := next) else Conclude(s, Raised(WorkerUncertain), next))
    case StopResolve(trusted, f, next) =>
      if s.lock.Some? then None else
      var (c, ids) := ResolveStop(s.core);
      Some(s.(core := c, taken := ids, pc := Stop(StopNotify(trusted, f, next))))
    case StopNotify(trusted, f, next) =>
      if s.taken != [] then Some(ConcludeFirst(s, if trusted then StopTrusted else Raised(Faulted(f))))
      else Some(s.(pc := match next
                         case Continue => Loop(Idle)
                         case FailSession(cause) => Loop(ToUncertain(cause, false))
                         case FailWorker(cause) => Loop(ToFailed(cause, false))))
  }

  /** The common opening of `_execute_item` and `_execute_session_intent`. */
  function ItemOpenStep(s: Sys, choice: Choice): Option<Sys>
    requires s.pc == Serve(ItemStart) || s.pc == Serve(ItemGate)
    requires s.hand.Some?
  {
    var item := s.hand.value;
    if s.pc.serve.ItemStart? then
      if choice != Go then None
      else if item.id in s.futures && s.futures[item.id].Pending? then
        Some(s.(futures := s.futures[item.id := Active], pc := Serve(ItemGate)))
      else Some(s.(hand := None, pc := Loop(Idle)))
    else
      match choice
      case Go => Some(Log(s, GateOpened(item.id), Serve(if item.intent.SessionIntent? then SessionRun else ItemSend)))
      case Withdraw(why) => Some(Conclude(s, Raised(Withdrawn(why)), Loop(Idle)))
      case _ => None
  }

  /** `client.request` for the item in hand. */
  function ItemWireStep(s: Sys, choice: Choice): Option<Sys>
    requires s.pc == Serve(ItemSend) || s.pc == Serve(ItemAwait)
    requires s.hand.Some?
  {
    var item := s.hand.value;
    if s.pc.serve.ItemSend? then
      match choice
      case Go => Some(Log(s, WroteItem(item.id), Serve(ItemAwait)))
      case Fails(f) => Some(s.(pc := Serve(ItemFault(f))))
      case _ => None
    else
      match choice
      case OtherLine => Some(Log(s, ReadOther, s.pc))
      case Terminal(ok) => Some(Log(s, ReadTerminal(item.id, ok), Serve(ItemResult(ok))))
      case Poll =>
        if s.lock.Some? || item.intent.QueryIntent? then None
        else if s.core.stopRequested then Some(s.(pc := Stop(StopWrite(During))))
        else Some(s)
      case Fails(f) => Some(Log(s, WroteOther, Serve(ItemFault(f))))
      case _ => None
  }

  /** `_execute_item` after the request returned or raised: the stop flag decides. */
  function ItemSettleStep(s: Sys, choice: Choice): Option<Sys>
    requires s.pc.Serve? && (s.pc.serve.ItemResult? || s.pc.serve.ItemFault?)
    requires s.hand.Some?
  {
    if choice != Go || s.lock.Some? then None else
    match s.pc.serve
    case ItemResult(ok) =>
      if s.core.stopRequested then Some(s.(pc := Stop(StopWrite(After))))
      else Some(Conclude(s, Completed(ok), if s.hand.value.intent.QueryIntent? then Loop(Idle) else Profile))
    case ItemFault(f) =>
      if s.core.stopRequested then
        Some(Conclude(s, Raised(WorkerUncertain), Stop(StopResolve(false, f, FailWorker(f)))))
      else Some(Conclude(s, Raised(Faulted(f)), if f.Broken? then Mend(Publish, f) else Loop(Idle)))
  }

  /** The profile read that follows a completed movement. */
  function ProfileStep(s: Sys, choice: Choice): Option<Sys>
    requires s.pc.Profile?
  {
    match choice
    case Go => Some(Log(s, WroteOther, Loop(Idle)))
    case Fails(f) => Some(Log(s, WroteOther, if f.Broken? then Mend(Publish, f) else Loop(Idle)))
    case _ => None
  }

  /** `_recover` up to its decision. */
  function RecoverStep(s: Sys, choice: Choice): Option<Sys>
    requires s.pc.Mend? && (s.pc.mend.Publish? || s.pc.mend.Drain? || s.pc.mend.FailDrained? || s.pc.mend.Decide?)
  {
    if choice != Go then None else
    var f := s.pc.fault;
    match s.pc.mend
    case Publish => Some(Log(s, RecoveryBegan, Mend(Drain, f)).(session := Recovering))
    case Drain =>
      if s.lock.Some? then None else
      var (c, items) := DrainQueue(s.core);
      Some(s.(core := c, taken := Ids(items), pc := Mend(FailDrained, f)))
    case FailDrained =>
      if s.taken == [] then Some(s.(pc := Mend(Decide, f)))
      else Some(ConcludeFirst(s, Raised(PreemptedByRecovery)))
    case Decide =>
      if s.lock.Some? then None
      else if s.core.state == Closing then Some(s.(pc := Finish(Finishing)))
      else if f == Broken(true) then Some(s.(session := VerifyingV1, pc := Mend(Reactivate, f)))
      else Some(s.(pc := Mend(CloseLink, f)))
  }

  /** Reactivating in session, and `_reconnect`. */
  function ReconnectStep(s: Sys, choice: Choice): Option<Sys>
    requires s.pc.Mend? && (s.pc.mend.Reactivate? || s.pc.mend.CloseLink? || s.pc.mend.Try?)
  {
    var f := s.pc.fault;
    match s.pc.mend
    case Reactivate =>
      (match choice
       case Progress(to) => if to == ActivatingV2 then Some(Log(s, WroteOther, s.pc).(session := to)) else None
       case Go => Some(Log(s, PublishedReady, Loop(Idle)).(session := Ready))
       case Fails(g) => Some(Log(s, WroteOther, Mend(CloseLink, g)))
       case _ => None)
    case CloseLink =>
      if choice != Go then None else Some(s.(session := Disconnected, pc := Mend(Try(0), f)))
    case Try(k) =>
      if choice != Go || s.lock.Some? then None
      else if k >= s.maxReconnects then Some(s.(pc := Loop(ToUncertain(f, true))))
      else if s.core.state == Closing then Some(s.(pc := Finish(Finishing)))
      else Some(s.(session := Connecting, pc := Open(FromReconnect(k, f), Opening)))
  }

  /** `_execute_session_intent` once its gate is open. */
  function SessionStep(s: Sys, choice: Choice): Option<Sys>
    requires s.pc == Serve(SessionRun) || s.pc == Serve(SessionStatus)
    requires s.hand.Some?
  {
    if s.pc.serve.SessionRun? then
      if choice != Go then None
      else if s.hand.value.intent == SessionIntent(SessionAction.Recover) || s.session != Ready then
        Some(Log(s, SessionLost, Open(FromSession, Opening)).(session := Disconnected))
      else Some(s.(pc := Serve(SessionStatus)))
    else
      match choice
      case Go =>
        // `get_status` raises unless the client is in an active v2 session
        if s.session != Ready || !s.hand.value.intent.SessionIntent? then None
        else
          var read := ReadStatus(s.hand.value.id, s.hand.value.intent.action);
          Some(Conclude(Log(s, read, s.pc), SessionReady, Loop(Idle)))
      case Fails(f) => Some(Conclude(Log(s, WroteOther, s.pc), Raised(Faulted(f)), Loop(ToUncertain(f, true))))
      case _ => None
  }

  /** The `finally` block of the thread. */
  function FinishStep(s: Sys, choice: Choice): Option<Sys>
    requires s.pc.Finish?
  {
    if choice != Go then None else
    match s.pc.finish
    case Finishing =>
      if s.lock.Some? then None else
      var (c, items, stops) := FinishThread(s.core);
      Some(s.(core := c, taken := Ids(items) + stops, pc := Finish(FinishFail(c.failure)),
              session := if s.session == Uncertain then Uncertain else Disconnected))
    case FinishFail(cause) =>
      if s.taken == [] then Some(s.(pc := Finish(Ended)))
      else Some(ConcludeFirst(s, Raised(if cause.Some? then Faulted(cause.value) else WorkerStopped)))
    case Ended => None
  }

  // ---------- runs ----------

  function Exec(s: Sys, labels: seq<Label>): Option<Sys>
    decreases |labels|
  {
    if labels == [] then Some(s)
    else match Step(s, labels[0])
      case None => None
      case Some(t) => Exec(t, labels[1..])
  }

  ghost predicate Reachable(s: Sys) {
    exists capacity: nat, maxReconnects: nat, labels: seq<Label> ::
      Exec(Init(capacity, maxReconnects), labels) == Some(s)
  }
}
