/**
 What a READY session rests on: READY is published after a completed handshake, and from
 then on until it is lost or a recovery begins the history says that the session is up.
 */
module WorkerReadiness {
  import opened Common
  import opened Session
  import opened WorkerQueue
  import opened WorkerSystem
  import opened WorkerStory

  /** READY was published, and the session was neither lost nor under recovery since. */
  predicate UpNow(h: seq<Event>) {
    h != [] &&
    match Last(h)
    case PublishedReady => true
    case SessionLost => false
    case RecoveryBegan => false
    case _ => UpNow(Before(h))
  }

  /** READY was published after the item passed its dispatch gate. */
  predicate RenewedSince(h: seq<Event>, id: nat) {
    h != [] &&
    ((Last(h) == PublishedReady && GateOpened(id) in Before(h)) || RenewedSince(Before(h), id))
  }

  /**
   The status that concluded the intent was read behind its gate in a session that was up;
   for RECOVER, READY was published anew between the gate and that status.
   */
  predicate Verified(h: seq<Event>, id: nat, action: SessionAction) {
    h != [] &&
    (|| (&& Last(h) == ReadStatus(id, action)
         && GateOpened(id) in Before(h)
         && UpNow(Before(h))
         && (action.Recover? ==> RenewedSince(Before(h), id)))
     || Verified(Before(h), id, action))
  }

  lemma VerifiedWasRead(h: seq<Event>, id: nat, action: SessionAction)
    requires Verified(h, id, action)
    ensures ReadStatus(id, action) in h
  {
    if Last(h) != ReadStatus(id, action) { VerifiedWasRead(Before(h), id, action); }
  }

  /** Points of `_execute_session_intent` behind the gate. */
  predicate OnSession(pc: Pc) {
    pc == Serve(SessionRun) || pc == Serve(SessionStatus) || (pc.Open? && pc.origin.FromSession?)
  }

  /** READY rests on the history, and no handshake starts from it. */
  predicate ReadyStory(s: Sys) {
    && (s.session == Ready ==> UpNow(s.history))
    && (s.pc.Unstarted? || (s.pc.Open? && s.pc.open.Opening?) ==> s.session != Ready)
    && (OnSession(s.pc) && s.hand.Some? ==> s.hand.value.intent.SessionIntent?)
  }

  lemma ReadyItem(s: Sys, c: Choice, t: Sys)
    requires ReadyStory(s) && (s.pc == Serve(ItemSend) || s.pc == Serve(ItemAwait)) && OwnerStep(s, c) == Some(t)
    ensures ReadyStory(t)
  {
    match c { case Go => case OtherLine => case Terminal(_) => case Poll => case Fails(_) => case _ => }
  }

  lemma ReadySession(s: Sys, c: Choice, t: Sys)
    requires ReadyStory(s) && (s.pc == Serve(SessionRun) || s.pc == Serve(SessionStatus))
    requires OwnerStep(s, c) == Some(t)
    ensures ReadyStory(t)
  {
    match c { case Go => case Fails(_) => case _ => }
  }

  lemma ReadyServe(s: Sys, c: Choice, t: Sys)
    requires ReadyStory(s) && s.pc.Serve? && OwnerStep(s, c) == Some(t)
    ensures ReadyStory(t)
  {
    match s.pc.serve
    case ItemStart =>
    case ItemGate => match c { case Go => case Withdraw(_) => case _ => }
    case ItemSend => ReadyItem(s, c, t);
    case ItemAwait => ReadyItem(s, c, t);
    case ItemResult(_) =>
    case ItemFault(_) =>
    case SessionRun => ReadySession(s, c, t);
    case SessionStatus => ReadySession(s, c, t);
  }

  lemma ReadyStop(s: Sys, c: Choice, t: Sys)
    requires ReadyStory(s) && s.pc.Stop? && OwnerStep(s, c) == Some(t)
    ensures ReadyStory(t)
  {
    match s.pc.stop
    case StopWrite(_) => match c { case Go => case Fails(_) => case _ => }
    case StopWait(_) => match c { case Go => case OtherLine => case Fails(_) => case _ => }
    case StopSeen(_) =>
    case StopUnsafe(_, _) =>
    case StopResolve(_, _, _) =>
    case StopNotify(_, _, next) => match next { case Continue => case FailSession(_) => case FailWorker(_) => }
  }

  lemma ReadyMend(s: Sys, c: Choice, t: Sys)
    requires ReadyStory(s) && s.pc.Mend? && OwnerStep(s, c) == Some(t)
    ensures ReadyStory(t)
  {
    match s.pc.mend
    case Publish =>
    case Drain =>
    case FailDrained =>
    case Decide =>
    case Reactivate => match c { case Progress(_) => case Go => case Fails(_) => case _ => }
    case CloseLink =>
    case Try(_) =>
  }

  lemma ReadyOpen(s: Sys, c: Choice, t: Sys)
    requires ReadyStory(s) && s.pc.Open? && OwnerStep(s, c) == Some(t)
    ensures ReadyStory(t)
  {
    match s.pc.open
    case Opening =>
      match c { case Progress(_) => case Go => case ShutdownSeen => case Fails(_) => case _ => }
    case OpenFailed(_) =>
      match s.pc.origin { case FromRun => case FromReconnect(_, _) => case FromSession => }
  }

  lemma ReadyOwner(s: Sys, c: Choice, t: Sys)
    requires ReadyStory(s) && OwnerStep(s, c) == Some(t)
    ensures ReadyStory(t)
  {
    match s.pc
    case Unstarted =>
    case Open(_, _) => ReadyOpen(s, c, t);
    case Loop(p) =>
      match p { case Idle => case AfterConnect => case ToUncertain(_, _) => case ToFailed(_, _) => }
    case Stop(_) => ReadyStop(s, c, t);
    case Serve(_) => ReadyServe(s, c, t);
    case Profile => match c { case Go => case Fails(_) => case _ => }
    case Mend(_, _) => ReadyMend(s, c, t);
    case Finish(p) => match p { case Finishing => case FinishFail(_) => case Ended => }
  }

  lemma ReadyStep(s: Sys, l: Label, t: Sys)
    requires ReadyStory(s) && (s.core.state == New ==> s.pc.Unstarted?) && Step(s, l) == Some(t)
    ensures ReadyStory(t)
  {
    match l
    case Owner(c) => ReadyOwner(s, c, t);
    case Start =>
    case StartTimeout =>
    case CloseFails(_) =>
    case CloseWorker =>
    case SubmitCheck(_) =>
    case SubmitCommit =>
    case SubmitStop(_) =>
    case FailPreempted(_) =>
    case CancelFuture(_) =>
  }
}
