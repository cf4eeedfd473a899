/**
 What stands behind each resolved future: the gate it passed, the bytes written for it
 and the line that settled it.
 */
module WorkerEvidence {
  import opened Common
  import opened WorkerQueue
  import opened WorkerSystem
  import opened WorkerOnce
  import opened WorkerStory
  import opened WorkerReadiness
  import opened Session

  /** Events that belong to one item. */
  predicate Own(e: Event, id: nat) {
    || e == GateOpened(id) || e == WroteItem(id)
    || e == ReadTerminal(id, true) || e == ReadTerminal(id, false)
    || e == ReadStatus(id, SessionAction.Connect) || e == ReadStatus(id, SessionAction.Recover)
  }

  /** The item never passed its dispatch gate, and nothing was written or read for it. */
  predicate Untouched(h: seq<Event>, id: nat) {
    && GateOpened(id) !in h && WroteItem(id) !in h
    && ReadTerminal(id, true) !in h && ReadTerminal(id, false) !in h
    && ReadStatus(id, SessionAction.Connect) !in h && ReadStatus(id, SessionAction.Recover) !in h
  }

  /** A confirmed stop exchange lies wholly after the item's command. */
  ghost predicate StoppedAfter(h: seq<Event>, id: nat) {
    exists n | 0 <= n <= |h| :: StopConfirmed(h[..n]) && WroteItem(id) in h[..n]
  }

  /** The waiter asked for a stop, as the first one or joining one already asked for. */
  predicate Requested(h: seq<Event>, id: nat) {
    StopAsked(Some(id)) in h || StopJoined(id) in h
  }

  /**
   At some moment after the waiter's request the last thing on the wire was the exact
   `stopped` in answer to `stop`: the exchange follows the request, or precedes it with
   nothing written in between.
   */
  ghost predicate ConfirmedFor(h: seq<Event>, id: nat) {
    exists n | 0 <= n <= |h| :: StopConfirmed(h[..n]) && Requested(h[..n], id)
  }

  predicate WrittenOnce(h: seq<Event>, id: nat) {
    forall i, j :: 0 <= i < j < |h| && h[i] == WroteItem(id) ==> h[j] != WroteItem(id)
  }

  /** A RECOVER in hand has published READY itself. */
  predicate Renewed(s: Sys, id: nat) {
    s.hand == Some(Item(id, SessionIntent(SessionAction.Recover))) ==> RenewedSince(s.history, id)
  }

  /** What the history must hold for the item in hand. */
  predicate InHand(s: Sys, id: nat) {
    match s.pc
    case Serve(p) =>
      (match p
       case ItemStart => true
       case ItemGate => Untouched(s.history, id)
       case ItemSend => GateOpened(id) in s.history && WroteItem(id) !in s.history
       case ItemAwait => GateOpened(id) in s.history && WroteItem(id) in s.history
       case ItemResult(ok) =>
         GateOpened(id) in s.history && WroteItem(id) in s.history && ReadTerminal(id, ok) in s.history
       case SessionStatus => GateOpened(id) in s.history && (s.session == Ready ==> Renewed(s, id))
       case _ => GateOpened(id) in s.history)
    case Stop(_) => GateOpened(id) in s.history && WroteItem(id) in s.history
    case _ => GateOpened(id) in s.history
  }

  ghost predicate Backed(h: seq<Event>, id: nat, o: Outcome) {
    match o
    case Completed(ok) => GateOpened(id) in h && WroteItem(id) in h && ReadTerminal(id, ok) in h
    case SessionReady =>
      GateOpened(id) in h && (Verified(h, id, SessionAction.Connect) || Verified(h, id, SessionAction.Recover))
    case StopTrusted => Untouched(h, id) && ConfirmedFor(h, id)
    case Raised(e) =>
      (match e
       case PreemptedByStop => Untouched(h, id) || (GateOpened(id) in h && StoppedAfter(h, id))
       case PreemptedByRecovery => Untouched(h, id)
       case WorkerStopped => Untouched(h, id)
       case Withdrawn(_) => Untouched(h, id)
       case WorkerUncertain => GateOpened(id) in h
       case Faulted(_) => Untouched(h, id) || GateOpened(id) in h)
  }

  /** Whoever waits for a stop, or is about to be told of one, has asked for it. */
  predicate Asked(s: Sys, id: nat) {
    Waits(s, id) ==> Requested(s.history, id)
  }

  ghost predicate Evidence(s: Sys, id: nat) {
    && WrittenOnce(s.history, id)
    && (WroteItem(id) in s.history ==> GateOpened(id) in s.history)
    && (id !in s.futures || s.futures[id].Pending? || s.futures[id].Cancelled? ==> Untouched(s.history, id))
    && (s.hand.Some? && s.hand.value.id == id ==> InHand(s, id))
    && Asked(s, id)
    && (id in s.futures && s.futures[id].Done? ==> Backed(s.history, id, s.futures[id].outcome))
  }

  /** What one step can do to a future: what is settled stays settled, what a stop took stays taken. */
  predicate Fate(s: Sys, t: Sys, id: nat) {
    id in s.futures ==>
      && id in t.futures
      && (s.futures[id].Done? ==> t.futures[id] == s.futures[id])
      && (s.futures[id].Done? && Untouched(s.history, id) ==> Untouched(t.history, id))
      && (s.futures[id].Cancelled? ==> t.futures[id].Cancelled?)
      && (s.futures[id].Pending? && id in s.preempted ==>
            || (t.futures[id].Pending? && id in t.preempted)
            || t.futures[id].Cancelled?
            || (t.futures[id] == Done(Raised(PreemptedByStop)) && Untouched(t.history, id)))
  }

  // ---------- a growing history ----------

  lemma WitnessesGrow(h: seq<Event>, e: Event, id: nat)
    ensures StoppedAfter(h, id) ==> StoppedAfter(Push(h, e), id)
    ensures ConfirmedFor(h, id) ==> ConfirmedFor(Push(h, e), id)
  {
    forall n | 0 <= n <= |h| ensures Push(h, e)[..n] == h[..n] {
    }
  }

  lemma SessionWitnessesGrow(h: seq<Event>, e: Event, id: nat)
    ensures RenewedSince(h, id) ==> RenewedSince(Push(h, e), id)
    ensures Verified(h, id, SessionAction.Connect) ==> Verified(Push(h, e), id, SessionAction.Connect)
    ensures Verified(h, id, SessionAction.Recover) ==> Verified(Push(h, e), id, SessionAction.Recover)
  {
    assert Before(Push(h, e)) == h;
  }

  lemma WrittenOnceGrows(h: seq<Event>, e: Event, id: nat)
    requires WrittenOnce(h, id) && (e == WroteItem(id) ==> e !in h)
    ensures WrittenOnce(Push(h, e), id)
  {
  }

  /** Nothing about a settled future is lost by an event that is not its own. */
  lemma BackedGrows(h: seq<Event>, e: Event, id: nat, o: Outcome)
    requires Backed(h, id, o) && !Own(e, id)
    ensures Backed(Push(h, e), id, o)
  {
    match o
    case Completed(_) =>
    case SessionReady => SessionWitnessesGrow(h, e, id);
    case StopTrusted => WitnessesGrow(h, e, id);
    case Raised(_) => WitnessesGrow(h, e, id);
  }

  lemma ConfirmedNow(h: seq<Event>, id: nat)
    requires StopConfirmed(h)
    ensures Requested(h, id) ==> ConfirmedFor(h, id)
    ensures WroteItem(id) in h ==> StoppedAfter(h, id)
  {
    assert h[..|h|] == h;
  }

  // ---------- steps of somebody else ----------

  predicate Holds(s: Sys, id: nat) {
    s.hand.Some? && s.hand.value.id == id
  }

  predicate Waits(s: Sys, id: nat) {
    id in s.core.waiters || (s.pc.Stop? && id in s.taken)
  }

  /** The owning thread is about to resolve this future for work it never started. */
  predicate First(s: Sys, id: nat) {
    s.taken != [] && s.taken[0] == id
  }

  /** A step that is not about this future: the history grows by an event of somebody else, if at all. */
  predicate Quiet(s: Sys, t: Sys, id: nat) {
    && (|| t.history == s.history
        || (t.history != [] && t.history == Push(s.history, Last(t.history)) && !Own(Last(t.history), id)))
    && (id in s.futures <==> id in t.futures)
    && (id in s.futures ==> t.futures[id] == s.futures[id] || (s.futures[id].Pending? && t.futures[id].Cancelled?))
    && (Holds(t, id) ==>
          t.pc == Serve(ItemStart) || (t.hand == s.hand && t.pc == s.pc && t.session == s.session))
    && (Waits(t, id) ==> Waits(s, id))
    && (id in s.preempted ==> id in t.preempted)
  }

  lemma InHandKept(s: Sys, t: Sys, id: nat)
    requires Quiet(s, t, id) && t.hand == s.hand && t.pc == s.pc && t.session == s.session
    requires InHand(s, id)
    ensures InHand(t, id)
  {
    if t.history != s.history { SessionWitnessesGrow(s.history, Last(t.history), id); }
  }

  lemma EvidenceKept(s: Sys, t: Sys, id: nat)
    requires Evidence(s, id) && Quiet(s, t, id)
    ensures Evidence(t, id) && Fate(s, t, id)
  {
    if Holds(t, id) && t.pc != Serve(ItemStart) { InHandKept(s, t, id); }
    if t.history != s.history {
      WrittenOnceGrows(s.history, Last(t.history), id);
      if id in s.futures && s.futures[id].Done? {
        BackedGrows(s.history, Last(t.history), id, s.futures[id].outcome);
      }
    }
  }

  lemma QuietOpen(s: Sys, c: Choice, t: Sys, id: nat)
    requires s.pc.Open? && OwnerStep(s, c) == Some(t) && !Holds(s, id)
    ensures Quiet(s, t, id)
  {
    match s.pc.open
    case Opening =>
      match c { case Progress(_) => case Go => case ShutdownSeen => case Fails(_) => case _ => }
    case OpenFailed(_) =>
      match s.pc.origin { case FromRun => case FromReconnect(_, _) => case FromSession => }
  }

  lemma QuietLoop(s: Sys, c: Choice, t: Sys, id: nat)
    requires Shape(s) && s.pc.Loop? && OwnerStep(s, c) == Some(t)
    ensures Quiet(s, t, id)
  {
    match s.pc.loop
    case Idle =>
    case AfterConnect =>
    case ToUncertain(_, _) =>
    case ToFailed(_, _) =>
  }

  lemma QuietStopWire(s: Sys, c: Choice, t: Sys, id: nat)
    requires Shape(s) && s.pc.Stop? && (s.pc.stop.StopWrite? || s.pc.stop.StopWait?)
    requires OwnerStep(s, c) == Some(t) && !Holds(s, id)
    ensures Quiet(s, t, id)
  {
    match c { case Go => case OtherLine => case Fails(_) => case _ => }
  }

  lemma QuietNotify(s: Sys, c: Choice, t: Sys, id: nat)
    requires Shape(s) && s.pc.Stop? && s.pc.stop.StopNotify? && OwnerStep(s, c) == Some(t) && !First(s, id)
    ensures Quiet(s, t, id)
  {
    if s.taken == [] { match s.pc.stop.next { case Continue => case FailSession(_) => case FailWorker(_) => } }
  }

  lemma QuietStop(s: Sys, c: Choice, t: Sys, id: nat)
    requires Shape(s) && s.pc.Stop? && OwnerStep(s, c) == Some(t) && !Holds(s, id) && !First(s, id)
    ensures Quiet(s, t, id)
  {
    match s.pc.stop
    case StopWrite(_) => QuietStopWire(s, c, t, id);
    case StopWait(_) => QuietStopWire(s, c, t, id);
    case StopSeen(_) =>
    case StopUnsafe(_, _) =>
    case StopResolve(_, _, _) =>
    case StopNotify(_, _, _) => QuietNotify(s, c, t, id);
  }

  lemma QuietServe(s: Sys, c: Choice, t: Sys, id: nat)
    requires Shape(s) && s.pc.Serve? && OwnerStep(s, c) == Some(t) && !Holds(s, id)
    ensures Quiet(s, t, id)
  {
    match s.pc.serve
    case ItemStart =>
    case ItemGate => match c { case Go => case Withdraw(_) => case _ => }
    case ItemSend => QuietWire(s, c, t, id);
    case ItemAwait => QuietWire(s, c, t, id);
    case ItemResult(_) => QuietSettle(s, c, t, id);
    case ItemFault(_) => QuietSettle(s, c, t, id);
    case SessionRun => QuietSession(s, c, t, id);
    case SessionStatus => QuietSession(s, c, t, id);
  }

  lemma QuietWire(s: Sys, c: Choice, t: Sys, id: nat)
    requires s.pc == Serve(ItemSend) || s.pc == Serve(ItemAwait)
    requires OwnerStep(s, c) == Some(t) && !Holds(s, id) && Shape(s)
    ensures Quiet(s, t, id)
  {
    match c { case Go => case OtherLine => case Terminal(_) => case Poll => case Fails(_) => case _ => }
  }

  lemma QuietSettle(s: Sys, c: Choice, t: Sys, id: nat)
    requires s.pc.Serve? && (s.pc.serve.ItemResult? || s.pc.serve.ItemFault?)
    requires OwnerStep(s, c) == Some(t) && !Holds(s, id) && Shape(s)
    ensures Quiet(s, t, id)
  {
    match s.pc.serve { case ItemResult(_) => case ItemFault(_) => }
  }

  lemma QuietSession(s: Sys, c: Choice, t: Sys, id: nat)
    requires s.pc == Serve(SessionRun) || s.pc == Serve(SessionStatus)
    requires OwnerStep(s, c) == Some(t) && !Holds(s, id) && Shape(s)
    ensures Quiet(s, t, id)
  {
    match c { case Go => case Fails(_) => case _ => }
  }

  lemma QuietReconnect(s: Sys, c: Choice, t: Sys, id: nat)
    requires Shape(s) && s.pc.Mend? && (s.pc.mend.Reactivate? || s.pc.mend.CloseLink? || s.pc.mend.Try?)
    requires OwnerStep(s, c) == Some(t)
    ensures Quiet(s, t, id)
  {
    match s.pc.mend
    case Reactivate => match c { case Progress(_) => case Go => case Fails(_) => case _ => }
    case CloseLink =>
    case Try(_) =>
  }

  lemma QuietMend(s: Sys, c: Choice, t: Sys, id: nat)
    requires Shape(s) && s.pc.Mend? && OwnerStep(s, c) == Some(t) && !First(s, id)
    ensures Quiet(s, t, id)
  {
    match s.pc.mend
    case Publish =>
    case Drain =>
    case FailDrained =>
    case Decide =>
    case Reactivate => QuietReconnect(s, c, t, id);
    case CloseLink => QuietReconnect(s, c, t, id);
    case Try(_) => QuietReconnect(s, c, t, id);
  }

  lemma QuietOwner(s: Sys, c: Choice, t: Sys, id: nat)
    requires Shape(s) && OwnerStep(s, c) == Some(t) && !Holds(s, id) && !First(s, id)
    ensures Quiet(s, t, id)
  {
    match s.pc
    case Unstarted =>
    case Open(_, _) => QuietOpen(s, c, t, id);
    case Loop(_) => QuietLoop(s, c, t, id);
    case Stop(_) => QuietStop(s, c, t, id);
    case Serve(_) => QuietServe(s, c, t, id);
    case Profile => match c { case Go => case Fails(_) => case _ => }
    case Mend(_, _) => QuietMend(s, c, t, id);
    case Finish(p) => match p { case Finishing => case FinishFail(_) => case Ended => }
  }

  /** The callers' steps that are about one future. */
  predicate Concerns(s: Sys, l: Label, id: nat) {
    match l
    case SubmitCommit => s.lock.Some? && s.lock.value.item.id == id
    case SubmitStop(waiter) => waiter == id
    case FailPreempted(i) => i < |s.preempted| && s.preempted[i] == id
    case _ => false
  }

  lemma QuietClose(s: Sys, t: Sys, id: nat)
    requires CloseStep(s) == Some(t)
    ensures Quiet(s, t, id)
  {
  }

  lemma QuietAsk(s: Sys, waiter: nat, t: Sys, id: nat)
    requires AskStep(s, waiter) == Some(t) && waiter != id
    ensures Quiet(s, t, id)
  {
  }

  lemma QuietCommit(s: Sys, t: Sys, id: nat)
    requires CommitStep(s) == Some(t) && s.lock.value.item.id != id
    ensures Quiet(s, t, id)
  {
  }

  lemma QuietFailPreempted(s: Sys, i: nat, t: Sys, id: nat)
    requires FailPreemptedStep(s, i) == Some(t) && s.preempted[i] != id
    ensures Quiet(s, t, id)
  {
    if id in s.preempted {
      var k :| 0 <= k < |s.preempted| && s.preempted[k] == id;
      assert t.preempted[if k < i then k else k - 1] == id;
    }
  }

  lemma QuietCaller(s: Sys, l: Label, t: Sys, id: nat)
    requires Shape(s) && !l.Owner? && Step(s, l) == Some(t) && !Concerns(s, l, id)
    ensures Quiet(s, t, id)
  {
    match l
    case Start =>
    case StartTimeout =>
    case CloseFails(_) =>
    case CloseWorker => QuietClose(s, t, id);
    case SubmitCheck(_) =>
    case SubmitCommit => QuietCommit(s, t, id);
    case SubmitStop(waiter) => QuietAsk(s, waiter, t, id);
    case FailPreempted(i) => QuietFailPreempted(s, i, t, id);
    case CancelFuture(_) =>
  }

  // ---------- steps about the future ----------

  lemma EvidenceCommit(s: Sys, t: Sys, id: nat)
    requires Shape(s) && Ledger(s, id) && Evidence(s, id)
    requires CommitStep(s) == Some(t) && s.lock.value.item.id == id
    ensures Evidence(t, id) && Fate(s, t, id)
  {
  }

  lemma EvidenceAsk(s: Sys, t: Sys, id: nat)
    requires Shape(s) && Ledger(s, id) && Evidence(s, id) && AskStep(s, id) == Some(t)
    ensures Evidence(t, id) && Fate(s, t, id)
  {
    WrittenOnceGrows(s.history, Last(t.history), id);
  }

  lemma EvidenceFailPreempted(s: Sys, i: nat, t: Sys, id: nat)
    requires Shape(s) && Ledger(s, id) && Evidence(s, id)
    requires FailPreemptedStep(s, i) == Some(t) && s.preempted[i] == id
    ensures Evidence(t, id) && Fate(s, t, id)
  {
    CountRemove(s.preempted, i, id);
  }

  lemma EvidenceCaller(s: Sys, l: Label, t: Sys, id: nat)
    requires Shape(s) && Ledger(s, id) && Evidence(s, id)
    requires Step(s, l) == Some(t) && Concerns(s, l, id)
    ensures Evidence(t, id) && Fate(s, t, id)
  {
    match l
    case SubmitCommit => EvidenceCommit(s, t, id);
    case SubmitStop(_) => EvidenceAsk(s, t, id);
    case FailPreempted(i) => EvidenceFailPreempted(s, i, t, id);
    case _ =>
  }

  /** Outcomes the owning thread gives to futures whose work it never started. */
  ghost predicate TakenOutcome(h: seq<Event>, id: nat, o: Outcome) {
    match o
    case StopTrusted => ConfirmedFor(h, id)
    case Raised(e) => e.PreemptedByRecovery? || e.WorkerStopped? || e.Faulted?
    case _ => false
  }

  lemma EvidenceConcluded(s: Sys, o: Outcome, id: nat)
    requires Shape(s) && Ledger(s, id) && Evidence(s, id) && First(s, id) && TakenOutcome(s.history, id, o)
    ensures Evidence(ConcludeFirst(s, o), id) && Fate(s, ConcludeFirst(s, o), id)
  {
    CountFirst(s.taken, id);
  }

  /** The owning thread resolves the first future it took. */
  lemma EvidenceTaken(s: Sys, c: Choice, t: Sys, id: nat)
    requires Shape(s) && Ledger(s, id) && StopStory(s) && Evidence(s, id)
    requires OwnerStep(s, c) == Some(t) && First(s, id)
    ensures Evidence(t, id) && Fate(s, t, id)
  {
    match s.pc
    case Stop(p) =>
      if p.trusted { ConfirmedNow(s.history, id); }
      EvidenceConcluded(s, if p.trusted then StopTrusted else Raised(Faulted(p.cause)), id);
    case Mend(_, _) => EvidenceConcluded(s, Raised(PreemptedByRecovery), id);
    case Finish(p) =>
      EvidenceConcluded(s, Raised(if p.cause.Some? then Faulted(p.cause.value) else WorkerStopped), id);
  }

  lemma EvidenceOpen(s: Sys, c: Choice, t: Sys, id: nat)
    requires Shape(s) && Ledger(s, id) && ReadyStory(s) && Evidence(s, id) && Holds(s, id)
    requires s.pc.Open? && OwnerStep(s, c) == Some(t)
    ensures Evidence(t, id) && Fate(s, t, id)
  {
    match s.pc.open
    case Opening =>
      match c { case Progress(_) => case Go => case ShutdownSeen => case Fails(_) => case _ => }
    case OpenFailed(_) =>
      match s.pc.origin { case FromRun => case FromReconnect(_, _) => case FromSession => }
  }

  lemma EvidenceStop(s: Sys, c: Choice, t: Sys, id: nat)
    requires Shape(s) && Ledger(s, id) && StopStory(s) && Evidence(s, id) && Holds(s, id)
    requires s.pc.Stop? && OwnerStep(s, c) == Some(t)
    ensures Evidence(t, id) && Fate(s, t, id)
  {
    match s.pc.stop
    case StopWrite(_) => match c { case Go => case Fails(_) => case _ => }
    case StopWait(_) => match c { case Go => case OtherLine => case Fails(_) => case _ => }
    case StopSeen(_) => ConfirmedNow(s.history, id);
    case StopUnsafe(_, _) =>
    case StopResolve(_, _, _) =>
    case StopNotify(_, _, _) =>
  }

  lemma EvidenceStart(s: Sys, c: Choice, t: Sys, id: nat)
    requires Shape(s) && Ledger(s, id) && Evidence(s, id) && Holds(s, id)
    requires (s.pc == Serve(ItemStart) || s.pc == Serve(ItemGate)) && OwnerStep(s, c) == Some(t)
    ensures Evidence(t, id) && Fate(s, t, id)
  {
    match c
    case Go => WrittenOnceGrows(s.history, GateOpened(id), id);
    case Withdraw(_) =>
    case _ =>
  }

  /** The item in hand, from its write to its terminal. */
  lemma EvidenceInFlight(s: Sys, c: Choice, t: Sys, id: nat)
    requires Shape(s) && Ledger(s, id) && Evidence(s, id) && Holds(s, id)
    requires (s.pc == Serve(ItemSend) || s.pc == Serve(ItemAwait)) && OwnerStep(s, c) == Some(t)
    ensures Evidence(t, id) && Fate(s, t, id)
  {
    if t.history != s.history { WrittenOnceGrows(s.history, t.history[|s.history|], id); }
    match c { case Go => case OtherLine => case Terminal(_) => case Poll => case Fails(_) => case _ => }
  }

  lemma EvidenceSettle(s: Sys, c: Choice, t: Sys, id: nat)
    requires Shape(s) && Ledger(s, id) && Evidence(s, id) && Holds(s, id)
    requires s.pc.Serve? && (s.pc.serve.ItemResult? || s.pc.serve.ItemFault?) && OwnerStep(s, c) == Some(t)
    ensures Evidence(t, id) && Fate(s, t, id)
  {
    match s.pc.serve { case ItemResult(_) => case ItemFault(_) => }
  }

  lemma EvidenceSession(s: Sys, c: Choice, t: Sys, id: nat)
    requires Shape(s) && Ledger(s, id) && Evidence(s, id) && Holds(s, id)
    requires s.pc == Serve(SessionRun) && OwnerStep(s, c) == Some(t)
    ensures Evidence(t, id) && Fate(s, t, id)
  {
  }

  /** A status read in a ready session verifies the intent in hand. */
  lemma StatusVerifies(s: Sys, id: nat)
    requires s.pc == Serve(SessionStatus) && Holds(s, id) && InHand(s, id) && ReadyStory(s)
    requires s.session == Ready && s.hand.value.intent.SessionIntent?
    ensures var a := s.hand.value.intent.action; Verified(Push(s.history, ReadStatus(id, a)), id, a)
  {
    assert Before(Push(s.history, ReadStatus(id, s.hand.value.intent.action))) == s.history;
  }

  /** The item in hand ends with an event that is not a command. */
  lemma EvidenceEnds(s: Sys, e: Event, o: Outcome, pc: Pc, id: nat)
    requires Shape(s) && Ledger(s, id) && Evidence(s, id) && Holds(s, id) && s.pc.Serve? && !s.pc.serve.ItemStart?
    requires !e.WroteItem? && !pc.Stop? && Backed(Push(s.history, e), id, o)
    ensures var t := Conclude(Log(s, e, s.pc), o, pc); Evidence(t, id) && Fate(s, t, id)
  {
    WrittenOnceGrows(s.history, e, id);
  }

  lemma EvidenceRead(s: Sys, id: nat)
    requires Shape(s) && Ledger(s, id) && ReadyStory(s) && Evidence(s, id) && Holds(s, id)
    requires s.pc == Serve(SessionStatus) && s.session == Ready && s.hand.value.intent.SessionIntent?
    ensures var read := ReadStatus(id, s.hand.value.intent.action);
            var t := Conclude(Log(s, read, s.pc), SessionReady, Loop(Idle));
            Evidence(t, id) && Fate(s, t, id)
  {
    var read := ReadStatus(id, s.hand.value.intent.action);
    assert Backed(Push(s.history, read), id, SessionReady) by {
      StatusVerifies(s, id);
      match read.action { case Connect => case Recover => }
    }
    EvidenceEnds(s, read, SessionReady, Loop(Idle), id);
  }

  lemma EvidenceStatus(s: Sys, c: Choice, t: Sys, id: nat)
    requires Shape(s) && Ledger(s, id) && ReadyStory(s) && Evidence(s, id) && Holds(s, id)
    requires s.pc == Serve(SessionStatus) && OwnerStep(s, c) == Some(t)
    ensures Evidence(t, id) && Fate(s, t, id)
  {
    match c
    case Go => EvidenceRead(s, id);
    case Fails(f) => EvidenceEnds(s, WroteOther, Raised(Faulted(f)), Loop(ToUncertain(f, true)), id);
    case _ =>
  }

  lemma EvidenceOwner(s: Sys, c: Choice, t: Sys, id: nat)
    requires Shape(s) && Ledger(s, id) && StopStory(s) && ReadyStory(s) && Evidence(s, id)
    requires OwnerStep(s, c) == Some(t) && Holds(s, id)
    ensures Evidence(t, id) && Fate(s, t, id)
  {
    match s.pc
    case Open(_, _) => EvidenceOpen(s, c, t, id);
    case Stop(_) => EvidenceStop(s, c, t, id);
    case Serve(p) =>
      match p {
        case ItemStart => EvidenceStart(s, c, t, id);
        case ItemGate => EvidenceStart(s, c, t, id);
        case ItemSend => EvidenceInFlight(s, c, t, id);
        case ItemAwait => EvidenceInFlight(s, c, t, id);
        case ItemResult(_) => EvidenceSettle(s, c, t, id);
        case ItemFault(_) => EvidenceSettle(s, c, t, id);
        case SessionRun => EvidenceSession(s, c, t, id);
        case SessionStatus => EvidenceStatus(s, c, t, id);
      }
  }

  lemma EvidenceStep(s: Sys, l: Label, t: Sys, id: nat)
    requires Shape(s) && Ledger(s, id) && StopStory(s) && ReadyStory(s) && Evidence(s, id) && Step(s, l) == Some(t)
    ensures Evidence(t, id) && Fate(s, t, id)
  {
    if l.Owner? {
      if Holds(s, id) {
        EvidenceOwner(s, l.choice, t, id);
      } else if First(s, id) {
        EvidenceTaken(s, l.choice, t, id);
      } else {
        QuietOwner(s, l.choice, t, id);
        EvidenceKept(s, t, id);
      }
    } else if Concerns(s, l, id) {
      EvidenceCaller(s, l, t, id);
    } else {
      QuietCaller(s, l, t, id);
      EvidenceKept(s, t, id);
    }
  }
}
