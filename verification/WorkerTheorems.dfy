/** What holds of the serial worker in every run, for every interleaving. */
module WorkerTheorems {
  import opened Common
  import opened Session
  import opened WorkerQueue
  import opened WorkerSystem
  import opened WorkerOnce
  import opened WorkerStory
  import opened WorkerReadiness
  import opened WorkerEvidence

  // ---------- histories of whole runs ----------

  function Commands(h: seq<Event>): nat {
    if h == [] then 0 else Commands(Before(h)) + if Last(h).WroteItem? then 1 else 0
  }

  /** From any stop request until the next `stop` line or worker failure, at most one admitted command. */
  ghost predicate StopSafe(h: seq<Event>) {
    forall i, j :: 0 <= i < j <= |h| && h[i].StopAsked? && Unanswered(h, i, j) ==> Commands(h[i..j]) <= 1
  }

  predicate Unanswered(h: seq<Event>, i: nat, j: nat)
    requires j <= |h|
  {
    forall k :: i < k < j ==> h[k] != WroteStop && h[k] != WorkerFailed
  }

  /** Between a recovery and a later command lies an admission check of that item that saw READY. */
  ghost predicate NeverReplayed(h: seq<Event>) {
    forall j, k :: 0 <= j < k < |h| && h[j] == RecoveryBegan && h[k].WroteItem? ==>
      exists i :: j < i < k && h[i] == Checked(h[k].id, true)
  }

  ghost predicate BurstBounded(h: seq<Event>) {
    forall n :: 0 <= n <= |h| ==> Burst(h[..n]) <= 1
  }

  ghost predicate Inv(s: Sys) {
    && Shape(s) && StopStory(s) && BurstStory(s) && RecoveryStory(s) && ReadyStory(s)
    && NeverReplayed(s.history) && BurstBounded(s.history)
    && (forall id :: Ledger(s, id)) && (forall id :: Evidence(s, id))
  }

  /** A step appends at most one event, and only the sending point writes a command. */
  predicate Appends(s: Sys, t: Sys) {
    || t.history == s.history
    || (&& |t.history| == |s.history| + 1
        && t.history[..|s.history|] == s.history
        && (t.history[|s.history|].WroteItem? ==>
              s.pc == Serve(ItemSend) && s.hand.Some? && t.history[|s.history|].id == s.hand.value.id))
  }

  lemma OwnerAppends(s: Sys, c: Choice, t: Sys)
    requires OwnerStep(s, c) == Some(t)
    ensures Appends(s, t)
  {
    match s.pc
    case Open(_, p) => match p { case Opening => case OpenFailed(_) => }
    case Loop(p) => match p { case Idle => case AfterConnect => case ToUncertain(_, _) => case ToFailed(_, _) => }
    case _ =>
  }

  lemma StepAppends(s: Sys, l: Label, t: Sys)
    requires Step(s, l) == Some(t)
    ensures Appends(s, t)
  {
    if l.Owner? { OwnerAppends(s, l.choice, t); }
  }

  lemma CheckedReadyMeans(h: seq<Event>, id: nat, j: nat)
    requires CheckedReady(h, id) && j < |h| && h[j] == RecoveryBegan
    ensures exists i :: j < i < |h| && h[i] == Checked(id, true)
  {
    if Last(h) == Checked(id, true) {
      assert h[|h| - 1] == Checked(id, true);
    } else {
      CheckedReadyMeans(Before(h), id, j);
      var i :| j < i < |h| - 1 && Before(h)[i] == Checked(id, true);
      assert h[i] == Checked(id, true);
    }
  }

  lemma NeverReplayedGrows(g: seq<Event>, h: seq<Event>)
    requires NeverReplayed(g) && |h| == |g| + 1 && h[..|g|] == g
    requires h[|g|].WroteItem? ==> CheckedReady(g, h[|g|].id)
    ensures NeverReplayed(h)
  {
    forall j, k | 0 <= j < k < |h| && h[j] == RecoveryBegan && h[k].WroteItem?
      ensures exists i :: j < i < k && h[i] == Checked(h[k].id, true)
    {
      assert h[j] == g[j];
      var i: int;
      if k < |g| {
        assert h[k] == g[k];
        i :| j < i < k && g[i] == Checked(g[k].id, true);
      } else {
        CheckedReadyMeans(g, h[k].id, j);
        i :| j < i < |g| && g[i] == Checked(h[k].id, true);
      }
      assert h[i] == g[i];
    }
  }

  lemma NeverReplayedStep(s: Sys, l: Label, t: Sys)
    requires RecoveryStory(s) && NeverReplayed(s.history) && Step(s, l) == Some(t)
    ensures NeverReplayed(t.history)
  {
    StepAppends(s, l, t);
    if t.history != s.history { NeverReplayedGrows(s.history, t.history); }
  }

  lemma BurstBoundedStep(s: Sys, l: Label, t: Sys)
    requires BurstBounded(s.history) && BurstStory(t) && Step(s, l) == Some(t)
    ensures BurstBounded(t.history)
  {
    StepAppends(s, l, t);
    forall n | 0 <= n <= |t.history| ensures Burst(t.history[..n]) <= 1 {
      if n == |t.history| {
        assert t.history[..n] == t.history;
      } else {
        assert t.history[..n] == s.history[..n];
      }
    }
  }

  lemma InvStep(s: Sys, l: Label, t: Sys)
    requires Inv(s) && Step(s, l) == Some(t)
    ensures Inv(t)
  {
    LedgerStep(s, l, t, 0);
    StoryStep(s, l, t);
    ReadyStep(s, l, t);
    NeverReplayedStep(s, l, t);
    BurstBoundedStep(s, l, t);
    forall id ensures Ledger(t, id) { LedgerStep(s, l, t, id); }
    forall id ensures Evidence(t, id) { EvidenceStep(s, l, t, id); }
  }

  lemma {:induction false} InvExec(s: Sys, labels: seq<Label>, t: Sys)
    requires Inv(s) && Exec(s, labels) == Some(t)
    ensures Inv(t)
    decreases |labels|
  {
    if labels != [] {
      var m := Step(s, labels[0]).value;
      InvStep(s, labels[0], m);
      InvExec(m, labels[1..], t);
    }
  }

  lemma InvReachable(s: Sys)
    requires Reachable(s)
    ensures Inv(s)
  {
    var capacity: nat, maxReconnects: nat, labels: seq<Label> :|
      Exec(Init(capacity, maxReconnects), labels) == Some(s);
    InvExec(Init(capacity, maxReconnects), labels, s);
  }

  // ---------- exactly-once resolution ----------

  /** At every step an accepted future is unresolved exactly while one party holds it. */
  lemma FuturesAreHeldUntilResolved(s: Sys, id: nat)
    requires Reachable(s)
    ensures Held(s, id) <= 1
    ensures id in s.futures && (s.futures[id].Pending? || s.futures[id].Active?) ==> Held(s, id) == 1
    ensures Held(s, id) == 1 ==> id in s.futures && !s.futures[id].Done?
  {
    InvReachable(s);
    assert Ledger(s, id);
  }

  /**
   When the owning thread has ended, a future is unresolved only while the caller that took
   it out of the lane has yet to fail it.
   */
  lemma NothingPendingAtTheEnd(s: Sys, id: nat)
    requires Reachable(s) && s.pc == Finish(Ended) && id in s.futures
    ensures s.futures[id].Done? || s.futures[id].Cancelled? || (s.futures[id].Pending? && id in s.preempted)
  {
    InvReachable(s);
    assert Ledger(s, id);
    assert Ids(s.core.normal) == [];
  }

  /** The step resolves this future: a caller fails it, or the owning thread lets go of it. */
  predicate Resolving(s: Sys, l: Label, t: Sys, id: nat) {
    match l
    case FailPreempted(i) => i < |s.preempted| && s.preempted[i] == id
    case Owner(_) => (Holds(s, id) && t.hand.None?) || (First(s, id) && |t.taken| < |s.taken|)
    case _ => false
  }

  /** Steps that have nothing to do with the future do not resolve it. */
  lemma HolderResolves(s: Sys, l: Label, t: Sys, id: nat)
    requires Shape(s) && Step(s, l) == Some(t) && id in s.futures && !s.futures[id].Done?
    ensures id in t.futures && t.futures[id].Done? ==> Resolving(s, l, t, id)
  {
    if l.Owner? && !Holds(s, id) && !First(s, id) {
      QuietOwner(s, l.choice, t, id);
    } else if l.Owner? && Holds(s, id) {
      HandResolves(s, l.choice, t, id);
    } else if !l.Owner? && !Concerns(s, l, id) {
      QuietCaller(s, l, t, id);
    }
  }

  /** While the owning thread keeps its item in hand, its future stays unresolved. */
  lemma HandResolves(s: Sys, c: Choice, t: Sys, id: nat)
    requires Shape(s) && OwnerStep(s, c) == Some(t) && Holds(s, id)
    ensures t.hand == s.hand ==> id in s.futures ==> id in t.futures && (t.futures[id].Done? ==> s.futures[id].Done?)
    ensures t.hand == s.hand || t.hand.None?
  {
    match s.pc
    case Open(_, _) =>
    case Stop(p) =>
      match p {
        case StopWrite(_) =>
        case StopWait(_) =>
        case StopSeen(_) =>
        case StopUnsafe(_, _) =>
        case StopResolve(_, _, _) =>
        case StopNotify(_, _, _) =>
      }
    case Serve(p) =>
      match p {
        case ItemStart =>
        case ItemGate =>
        case ItemSend =>
        case ItemAwait =>
        case ItemResult(_) =>
        case ItemFault(_) =>
        case SessionRun =>
        case SessionStatus =>
      }
  }

  /** Letting go of an item resolves it, unless it turned out to be cancelled before it started. */
  lemma HandLetsGo(s: Sys, c: Choice, t: Sys, id: nat)
    requires Shape(s) && OwnerStep(s, c) == Some(t) && Holds(s, id) && t.hand.None?
    requires id in s.futures && (s.futures[id].Pending? || (s.futures[id].Active? && s.pc != Serve(ItemStart)))
    ensures id in t.futures && t.futures[id].Done?
  {
    match s.pc
    case Open(_, p) => match p { case Opening => case OpenFailed(_) => }
    case Stop(p) => match p { case StopSeen(_) => case StopUnsafe(_, _) => case _ => }
    case Serve(p) =>
      match p {
        case ItemStart =>
        case ItemGate =>
        case ItemSend =>
        case ItemAwait =>
        case ItemResult(_) =>
        case ItemFault(_) =>
        case SessionRun =>
        case SessionStatus =>
      }
  }

  /**
   A resolution never meets a finished future, so no `set_result` or `set_exception` is
   attempted twice; and a future is finished by such a step only.
   */
  lemma ResolvesOnce(s: Sys, l: Label, t: Sys, id: nat)
    requires Reachable(s) && Step(s, l) == Some(t)
    ensures Resolving(s, l, t, id) ==> id in s.futures && !s.futures[id].Done?
    ensures Resolving(s, l, t, id) && !s.futures[id].Cancelled? ==> id in t.futures && t.futures[id].Done?
    ensures id in s.futures && !s.futures[id].Done? && id in t.futures && t.futures[id].Done? ==> Resolving(s, l, t, id)
  {
    InvReachable(s);
    assert Ledger(s, id);
    if Resolving(s, l, t, id) { ResolvingMeets(s, l, t, id); }
    if id in s.futures && !s.futures[id].Done? { HolderResolves(s, l, t, id); }
  }

  lemma ResolvingMeets(s: Sys, l: Label, t: Sys, id: nat)
    requires Shape(s) && Ledger(s, id) && Step(s, l) == Some(t) && Resolving(s, l, t, id)
    ensures id in s.futures && !s.futures[id].Done?
    ensures !s.futures[id].Cancelled? ==> id in t.futures && t.futures[id].Done?
  {
    match l
    case FailPreempted(i) => CountRemove(s.preempted, i, id);
    case Owner(c) =>
      if !Holds(s, id) {
        TakenResolves(s, c, t, id);
      } else if !s.futures[id].Cancelled? {
        HandLetsGo(s, c, t, id);
      }
    case _ =>
  }

  lemma TakenResolves(s: Sys, c: Choice, t: Sys, id: nat)
    requires Shape(s) && Ledger(s, id) && OwnerStep(s, c) == Some(t) && First(s, id)
    ensures id in s.futures && !s.futures[id].Done?
    ensures !s.futures[id].Cancelled? ==> id in t.futures && t.futures[id].Done?
  {
    CountFirst(s.taken, id);
    match s.pc { case Stop(_) => case Mend(_, _) => case Finish(_) => }
  }

  /** A resolved future never changes again, along any continuation. */
  lemma {:induction false} ResolvedIsFinal(s: Sys, labels: seq<Label>, t: Sys, id: nat)
    requires Inv(s) && Exec(s, labels) == Some(t) && id in s.futures && s.futures[id].Done?
    ensures id in t.futures && t.futures[id] == s.futures[id]
    decreases |labels|
  {
    if labels != [] {
      var m := Step(s, labels[0]).value;
      assert Ledger(s, id) && Evidence(s, id);
      EvidenceStep(s, labels[0], m, id);
      InvStep(s, labels[0], m);
      ResolvedIsFinal(m, labels[1..], t, id);
    }
  }

  // ---------- priority stop ----------

  predicate NewlyTrusted(s: Sys, t: Sys, id: nat) {
    id in t.futures && t.futures[id] == Done(StopTrusted) && !(id in s.futures && s.futures[id] == Done(StopTrusted))
  }

  lemma OnlyNotifyTrusts(s: Sys, c: Choice, t: Sys, id: nat)
    requires OwnerStep(s, c) == Some(t) && NewlyTrusted(s, t, id)
    ensures s.pc.Stop? && s.pc.stop.StopNotify? && s.pc.stop.trusted && First(s, id)
  {
    match s.pc
    case Open(_, p) => match p { case Opening => case OpenFailed(_) => }
    case Loop(p) => match p { case Idle => case AfterConnect => case ToUncertain(_, _) => case ToFailed(_, _) => }
    case Serve(p) =>
      if p.ItemStart? || p.ItemGate? {
      } else if p.ItemSend? || p.ItemAwait? {
      } else if p.SessionRun? || p.SessionStatus? {
      }
    case _ =>
  }

  /** A stop waiter succeeds only while the exact `stopped` in answer to `stop` is the last word, and after it asked. */
  lemma StopSucceedsOnlyWhenConfirmed(s: Sys, l: Label, t: Sys, id: nat)
    requires Reachable(s) && Step(s, l) == Some(t) && NewlyTrusted(s, t, id)
    ensures StopConfirmed(s.history) && Requested(s.history, id) && t.history == s.history
  {
    InvReachable(s);
    assert Evidence(s, id);
    if l.Owner? { OnlyNotifyTrusts(s, l.choice, t, id); }
  }

  lemma BurstCounts(h: seq<Event>, i: nat)
    requires i < |h| && h[i].StopAsked? && Unanswered(h, i, |h|)
    ensures Armed(h) && Burst(h) >= Commands(h[i..])
  {
    if i == |h| - 1 {
      assert h[i..] == [h[i]] && Before(h[i..]) == [];
    } else {
      assert Before(h[i..]) == Before(h)[i..];
      BurstCounts(Before(h), i);
    }
  }

  /** A stop request lets at most one more admitted command reach the wire. */
  lemma StopLetsOneCommandOut(s: Sys)
    requires Reachable(s)
    ensures StopSafe(s.history)
  {
    InvReachable(s);
    InvIsStopSafe(s);
  }

  lemma InvIsStopSafe(s: Sys)
    requires Inv(s)
    ensures StopSafe(s.history)
  {
    var h := s.history;
    forall i, j | 0 <= i < j <= |h| && h[i].StopAsked? && Unanswered(h, i, j)
      ensures Commands(h[i..j]) <= 1
    {
      var g := h[..j];
      assert Unanswered(g, i, |g|);
      BurstCounts(g, i);
      assert g[i..] == h[i..j];
    }
  }

  /** The future of work a stop took out of the lane. */
  predicate Doomed(s: Sys, id: nat) {
    && id in s.futures
    && (|| (s.futures[id].Pending? && id in s.preempted)
        || s.futures[id].Cancelled?
        || (s.futures[id] == Done(Raised(PreemptedByStop)) && Untouched(s.history, id)))
  }

  /** Work that a stop or a shutdown took out of the lane is failed, and never written. */
  lemma {:induction false} PreemptedIsNeverWritten(s: Sys, labels: seq<Label>, t: Sys, id: nat)
    requires Inv(s) && Exec(s, labels) == Some(t) && Doomed(s, id)
    ensures Doomed(t, id) && WroteItem(id) !in t.history
    decreases |labels|
  {
    assert Ledger(s, id) && Evidence(s, id);
    if labels != [] {
      var m := Step(s, labels[0]).value;
      EvidenceStep(s, labels[0], m, id);
      assert Doomed(m, id);
      InvStep(s, labels[0], m);
      PreemptedIsNeverWritten(m, labels[1..], t, id);
    }
  }

  /** What `submit_priority_stop` finds in the lane is doomed by that very step. */
  lemma StopTakesTheWholeLane(s: Sys, waiter: nat, t: Sys, item: Item)
    requires Reachable(s) && Step(s, SubmitStop(waiter)) == Some(t) && item in s.core.normal
    ensures t.core.normal == [] && Doomed(t, item.id)
  {
    InvReachable(s);
    var k :| 0 <= k < |s.core.normal| && s.core.normal[k] == item;
    assert Ids(s.core.normal)[k] == item.id;
    assert item.id in Ids(s.core.normal);
    assert Ledger(s, item.id);
    assert !s.core.stopRequested;
  }

  // ---------- recovery ----------

  /** Nothing that was checked before a recovery is written after it. */
  lemma RecoveryNeverReplays(s: Sys)
    requires Reachable(s)
    ensures NeverReplayed(s.history)
  {
    InvReachable(s);
  }

  /** No admitted command is written twice. */
  lemma EachCommandIsWrittenOnce(s: Sys, id: nat)
    requires Reachable(s)
    ensures WrittenOnce(s.history, id)
    ensures WroteItem(id) in s.history ==> GateOpened(id) in s.history
  {
    InvReachable(s);
    assert Evidence(s, id);
  }

  // ---------- an operator recovery keeps the lane ----------

  /** The owning thread takes queued work only to serve it, to drain for a recovery, or to finish. */
  lemma OnlyRecoveryDrains(s: Sys, c: Choice, t: Sys, item: Item)
    requires OwnerStep(s, c) == Some(t) && item in s.core.normal && item !in t.core.normal
    ensures (s.pc == Loop(Idle) && t.hand == Some(item)) || (s.pc.Mend? && s.pc.mend.Drain?)
            || s.pc == Finish(Finishing)
  {
    match s.pc
    case Open(_, p) => match p { case Opening => case OpenFailed(_) => }
    case Loop(p) =>
      match p {
        case Idle => assert s.core.normal == [s.core.normal[0]] + s.core.normal[1..];
        case AfterConnect =>
        case ToUncertain(_, _) =>
        case ToFailed(_, _) =>
      }
    case Stop(p) => if p.StopWrite? || p.StopWait? { } else { }
    case Serve(p) =>
      if p.ItemStart? || p.ItemGate? { } else if p.ItemSend? || p.ItemAwait? { }
      else if p.SessionRun? || p.SessionStatus? { } else { }
    case Profile =>
    case Mend(p, _) => if p.Reactivate? || p.CloseLink? || p.Try? { } else { }
    case Finish(_) =>
    case Unstarted =>
  }

  lemma {:induction false} ExecAppend(s: Sys, labels: seq<Label>, l: Label)
    requires Exec(s, labels).Some?
    ensures Exec(s, labels + [l]) == Step(Exec(s, labels).value, l)
    decreases |labels|
  {
    if labels == [] {
      assert [l][1..] == [];
      assert labels + [l] == [l];
    } else {
      assert (labels + [l])[0] == labels[0] && (labels + [l])[1..] == labels[1..] + [l];
      ExecAppend(Step(s, labels[0]).value, labels[1..], l);
    }
  }

  ghost predicate RunsTo(s: Sys, t: Sys) {
    exists labels: seq<Label> :: Exec(s, labels) == Some(t)
  }

  lemma RunsStep(from: Sys, s: Sys, l: Label, t: Sys)
    requires RunsTo(from, s) && Step(s, l) == Some(t)
    ensures RunsTo(from, t)
  {
    var labels: seq<Label> :| Exec(from, labels) == Some(s);
    ExecAppend(from, labels, l);
  }

  /** A worker at rest between items, with a verified session and nothing asking it to stop. */
  predicate Resting(s: Sys) {
    && s.pc == Loop(Idle) && s.hand.None? && s.lock.None? && !s.core.stopRequested
    && s.core.state == Running && s.session == Ready
  }

  /** The lane is as it was, and so is every future but one. */
  predicate OthersKept(s: Sys, t: Sys, lane: seq<Item>, id: nat) {
    && t.core.normal == lane
    && forall k :: k != id && k in s.futures ==> k in t.futures && t.futures[k] == s.futures[k]
  }

  /** The session intent in hand opens its session and is done; the lane stays. */
  lemma SessionReplaced(from: Sys, s: Sys) returns (t: Sys)
    requires RunsTo(from, s) && s.pc == Open(FromSession, Opening)
    requires s.hand.Some? && s.hand.value.intent.SessionIntent?
    requires s.lock.None? && !s.core.stopRequested && s.core.state == Running
    ensures RunsTo(from, t) && Resting(t) && OthersKept(s, t, s.core.normal, s.hand.value.id)
  {
    var go := Owner(Go);
    var d := Step(s, go).value; RunsStep(from, s, go, d);
    t := Step(d, go).value; RunsStep(from, d, go, t);
  }

  /** The owning thread takes the first item, sets its future running and opens its gate. */
  lemma GatePassed(from: Sys, s: Sys) returns (t: Sys)
    requires RunsTo(from, s) && Resting(s) && s.core.normal != []
    requires s.core.normal[0].id in s.futures && s.futures[s.core.normal[0].id].Pending?
    ensures RunsTo(from, t)
    ensures var item := s.core.normal[0];
            && t.pc == Serve(if item.intent.SessionIntent? then SessionRun else ItemSend)
            && t == s.(core := s.core.(normal := s.core.normal[1..]), hand := Some(item), pc := t.pc,
                       futures := s.futures[item.id := Active], history := Push(s.history, GateOpened(item.id)))
  {
    var go := Owner(Go);
    var a := Step(s, go).value; RunsStep(from, s, go, a);
    var b := Step(a, go).value; RunsStep(from, a, go, b);
    t := Step(b, go).value; RunsStep(from, b, go, t);
  }

  /** An ordinary item whose command is about to go out gets its terminal. */
  lemma CommandAnswered(from: Sys, s: Sys) returns (t: Sys)
    requires RunsTo(from, s) && s.pc == Serve(ItemSend) && s.hand.Some?
    ensures RunsTo(from, t) && t == s.(pc := Serve(ItemResult(true)), history := t.history)
  {
    var go, ends := Owner(Go), Owner(Terminal(true));
    var a := Step(s, go).value; RunsStep(from, s, go, a);
    t := Step(a, ends).value; RunsStep(from, a, ends, t);
  }

  /** A command that got its terminal is settled, and the profile is read after a movement. */
  lemma CommandSettled(from: Sys, s: Sys) returns (t: Sys)
    requires RunsTo(from, s) && s.pc == Serve(ItemResult(true)) && s.hand.Some?
    requires s.lock.None? && !s.core.stopRequested && s.core.state == Running && s.session == Ready
    ensures RunsTo(from, t) && Resting(t) && OthersKept(s, t, s.core.normal, s.hand.value.id)
  {
    var go := Owner(Go);
    var p := Step(s, go).value; RunsStep(from, s, go, p);
    if s.hand.value.intent.QueryIntent? {
      t := p;
    } else {
      t := Step(p, go).value; RunsStep(from, p, go, t);
    }
  }

  lemma CommandServed(from: Sys, s: Sys) returns (t: Sys)
    requires RunsTo(from, s) && s.pc == Serve(ItemSend) && s.hand.Some?
    requires s.lock.None? && !s.core.stopRequested && s.core.state == Running && s.session == Ready
    ensures RunsTo(from, t) && Resting(t) && OthersKept(s, t, s.core.normal, s.hand.value.id)
  {
    var a := CommandAnswered(from, s);
    t := CommandSettled(from, a);
  }

  lemma SessionServed(from: Sys, s: Sys) returns (t: Sys)
    requires RunsTo(from, s) && s.pc == Serve(SessionRun) && s.hand.Some? && s.hand.value.intent.SessionIntent?
    requires s.lock.None? && !s.core.stopRequested && s.core.state == Running && s.session == Ready
    ensures RunsTo(from, t) && Resting(t) && OthersKept(s, t, s.core.normal, s.hand.value.id)
  {
    var go := Owner(Go);
    var a := Step(s, go).value; RunsStep(from, s, go, a);
    if a.pc.Open? {
      t := SessionReplaced(from, a);
    } else {
      t := Step(a, go).value; RunsStep(from, a, go, t);
    }
  }

  /** The first item of the lane can be dealt with, whatever it is. */
  lemma FirstServed(from: Sys, s: Sys) returns (t: Sys)
    requires RunsTo(from, s) && Resting(s) && s.core.normal != []
    ensures RunsTo(from, t) && Resting(t) && OthersKept(s, t, s.core.normal[1..], s.core.normal[0].id)
  {
    var id := s.core.normal[0].id;
    if id in s.futures && s.futures[id].Pending? {
      var g := GatePassed(from, s);
      if g.pc == Serve(SessionRun) { t := SessionServed(from, g); } else { t := CommandServed(from, g); }
    } else {
      var go := Owner(Go);
      var a := Step(s, go).value; RunsStep(from, s, go, a);
      t := Step(a, go).value; RunsStep(from, a, go, t);
    }
  }

  /** No item is queued twice. */
  predicate Distinct(items: seq<Item>) {
    forall i, j :: 0 <= i < j < |items| ==> items[i].id != items[j].id
  }

  lemma LaneIsDistinct(s: Sys)
    requires Inv(s)
    ensures Distinct(s.core.normal)
  {
    forall i, j | 0 <= i < j < |s.core.normal| ensures s.core.normal[i].id != s.core.normal[j].id {
      assert Ledger(s, s.core.normal[i].id);
      CountTwice(Ids(s.core.normal), i, j);
    }
  }

  lemma CountTwice(ids: seq<nat>, i: nat, j: nat)
    requires i < j < |ids|
    ensures ids[i] == ids[j] ==> Count(ids, ids[i]) >= 2
  {
    var rest := ids[..i] + ids[i + 1..];
    CountRemove(ids, i, ids[i]);
    assert rest[j - 1] == ids[j];
    assert ids[j] in rest;
  }

  /** Whatever waits before it, a pending ordinary item can be reached and written. */
  lemma {:induction false} ItemWritten(from: Sys, s: Sys, k: nat) returns (t: Sys)
    requires RunsTo(from, s) && Resting(s) && k < |s.core.normal| && Distinct(s.core.normal)
    requires !s.core.normal[k].intent.SessionIntent?
    requires s.core.normal[k].id in s.futures && s.futures[s.core.normal[k].id].Pending?
    ensures RunsTo(from, t) && WroteItem(s.core.normal[k].id) in t.history
    decreases k
  {
    if k == 0 {
      var g := GatePassed(from, s);
      t := Step(g, Owner(Go)).value; RunsStep(from, g, Owner(Go), t);
    } else {
      var m := FirstServed(from, s);
      assert m.core.normal[k - 1] == s.core.normal[k];
      t := ItemWritten(from, m, k - 1);
    }
  }

  /**
   From every reachable state in which an operator's CONNECT or RECOVER has torn the session
   down, with nothing asking the worker to stop, every ordinary item that was queued before
   and not cancelled has a continuation that writes it: only `_recover` drains.
   */
  lemma OperatorRecoverKeepsTheLane(s: Sys, k: nat) returns (t: Sys)
    requires Reachable(s) && s.pc == Open(FromSession, Opening) && s.core.state == Running
    requires s.lock.None? && !s.core.stopRequested
    requires k < |s.core.normal| && !s.core.normal[k].intent.SessionIntent?
    requires s.core.normal[k].id in s.futures && s.futures[s.core.normal[k].id].Pending?
    ensures s.session != Ready && WroteItem(s.core.normal[k].id) !in s.history
    ensures RunsTo(s, t) && WroteItem(s.core.normal[k].id) in t.history
  {
    InvReachable(s);
    var id := s.core.normal[k].id;
    assert Evidence(s, id) && Ledger(s, id);
    LaneIsDistinct(s);
    assert Exec(s, []) == Some(s);
    assert id != s.hand.value.id by { assert Ids(s.core.normal)[k] == id; assert id in Ids(s.core.normal); }
    var idle := SessionReplaced(s, s);
    t := ItemWritten(s, idle, k);
  }

  // ---------- such a state exists ----------

  lemma ReadyWorker() returns (s: Sys)
    ensures RunsTo(Init(2, 1), s) && Resting(s) && s.capacity == 2 && s.core.normal == [] && s.futures == map[]
  {
    var i := Init(2, 1);
    assert Exec(i, []) == Some(i);
    var a := Step(i, Start).value; RunsStep(i, i, Start, a);
    var b := Step(a, Owner(Go)).value; RunsStep(i, a, Owner(Go), b);
    s := Step(b, Owner(Go)).value; RunsStep(i, b, Owner(Go), s);
  }

  lemma Admitted(from: Sys, s: Sys, item: Item) returns (t: Sys)
    requires RunsTo(from, s) && Resting(s) && |s.core.normal| < s.capacity && item.id !in s.futures
    ensures RunsTo(from, t) && Resting(t) && t.capacity == s.capacity && t.core.normal == s.core.normal + [item]
    ensures t.futures == s.futures[item.id := Pending]
  {
    var a := Step(s, SubmitCheck(item)).value; RunsStep(from, s, SubmitCheck(item), a);
    t := Step(a, SubmitCommit).value; RunsStep(from, a, SubmitCommit, t);
  }

  /** An operator's RECOVER has torn the session down while a sort admitted after it waits. */
  lemma TornDown() returns (s: Sys)
    ensures Reachable(s) && s.pc == Open(FromSession, Opening) && s.core.state == Running
    ensures s.lock.None? && !s.core.stopRequested
    ensures s.core.normal == [Item(1, SortIntent(3))] && 1 in s.futures && s.futures[1].Pending?
  {
    var i := Init(2, 1);
    var w := ReadyWorker();
    var x := Admitted(i, w, Item(0, SessionIntent(SessionAction.Recover)));
    var y := Admitted(i, x, Item(1, SortIntent(3)));
    var z := GatePassed(i, y);
    s := Step(z, Owner(Go)).value; RunsStep(i, z, Owner(Go), s);
  }
}
