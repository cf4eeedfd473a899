/** What holds of admission, the journal and the published view in every run of a daemon life. */
module DomainTheorems {
  import opened Common
  import opened Operations
  import opened Journal
  import opened Machine
  import opened Configuration
  import opened Domain

  // ---------- the journal refines the published view ----------

  /** An audit entry of this daemon life that is not an admission. */
  predicate Lifecycle(log: seq<Transition>, base: nat, i: int) {
    base <= i < |log| && log[i].from.Some?
  }

  /** Every lifecycle entry carries the generation whose view announces it, in increasing order. */
  ghost predicate Journaled(log: seq<Transition>, m: Views, base: nat) {
    && (forall i :: Lifecycle(log, base, i) ==>
          1 <= log[i].generation <= |m| && m[log[i].generation - 1].cause == OperationMoved(log[i].op, log[i].to))
    && (forall i, j :: Lifecycle(log, base, i) && Lifecycle(log, base, j) && i < j
          ==> log[i].generation < log[j].generation)
  }

  /** View `n` announces a transition. */
  predicate Moves(m: Views, n: int) {
    0 <= n < |m| && m[n].cause.OperationMoved?
  }

  /** Entry `i` is the one that view `n` announces. */
  predicate Announces(log: seq<Transition>, base: nat, i: int, m: Views, n: int)
    requires Moves(m, n)
  {
    Lifecycle(log, base, i) && log[i].op == m[n].cause.op && log[i].to == m[n].cause.state && log[i].generation == n + 1
  }

  /** A published view never announces a transition the journal does not hold. */
  ghost predicate Announced(log: seq<Transition>, m: Views, base: nat) {
    forall n :: Moves(m, n) ==> exists i :: Announces(log, base, i, m, n)
  }

  /** A stored key names a stored operation with the same fingerprint, and no two keys name the same one. */
  predicate KeysSound(j: Store<Values>) {
    && (forall k :: k in j.keys ==> j.keys[k].op in j.ops && j.ops[j.keys[k].op].fingerprint == j.keys[k].fingerprint)
    && (forall k, k' :: k in j.keys && k' in j.keys && j.keys[k].op == j.keys[k'].op ==> k == k')
  }

  /** The journal and the published views tell the same story. */
  ghost predicate Matches(j: Store<Values>, m: Views, base: nat) {
    && base <= |j.log|
    && Gapless(m)
    && (forall op :: Refines(j, op))
    && Journaled(j.log, m, base)
    && Announced(j.log, m, base)
    && KeysSound(j)
  }

  ghost predicate Good(d: Domain, base: nat) {
    Matches(d.journal, d.machine, base)
  }

  // ---------- growing the log and the views ----------

  lemma JournaledPublishes(log: seq<Transition>, m: Views, base: nat, v: Snapshot)
    requires Journaled(log, m, base)
    ensures Journaled(log, m + [v], base)
  {
    forall i | Lifecycle(log, base, i)
      ensures 1 <= log[i].generation <= |m + [v]|
      ensures (m + [v])[log[i].generation - 1].cause == OperationMoved(log[i].op, log[i].to)
    {
      assert (m + [v])[log[i].generation - 1] == m[log[i].generation - 1];
    }
  }

  lemma JournaledLogs(log: seq<Transition>, m: Views, base: nat, e: Transition)
    requires base <= |log| && Journaled(log, m, base)
    requires e.from.Some? ==>
               && 1 <= e.generation <= |m| && m[e.generation - 1].cause == OperationMoved(e.op, e.to)
               && forall i :: Lifecycle(log, base, i) ==> log[i].generation < e.generation
    ensures Journaled(log + [e], m, base)
  {
    var g := log + [e];
    forall i | Lifecycle(g, base, i)
      ensures 1 <= g[i].generation <= |m| && m[g[i].generation - 1].cause == OperationMoved(g[i].op, g[i].to)
    {
      if i < |log| { assert g[i] == log[i] && Lifecycle(log, base, i); }
    }
    forall i, j | Lifecycle(g, base, i) && Lifecycle(g, base, j) && i < j
      ensures g[i].generation < g[j].generation
    {
      assert g[i] == log[i] && Lifecycle(log, base, i);
      if j < |log| { assert g[j] == log[j] && Lifecycle(log, base, j); }
    }
  }

  lemma AnnouncedLogs(log: seq<Transition>, m: Views, base: nat, e: Transition)
    requires Announced(log, m, base)
    ensures Announced(log + [e], m, base)
  {
    var g := log + [e];
    forall n | Moves(m, n) ensures exists i :: Announces(g, base, i, m, n) {
      var i :| Announces(log, base, i, m, n);
      assert g[i] == log[i];
      assert Announces(g, base, i, m, n);
    }
  }

  lemma AnnouncedPublishes(log: seq<Transition>, m: Views, base: nat, v: Snapshot)
    requires Announced(log, m, base)
    requires Moves(m + [v], |m|) ==> exists i :: Announces(log, base, i, m + [v], |m|)
    ensures Announced(log, m + [v], base)
  {
    var k := m + [v];
    forall n | Moves(k, n) ensures exists i :: Announces(log, base, i, k, n) {
      if n < |m| {
        assert k[n] == m[n] && Moves(m, n);
        var i :| Announces(log, base, i, m, n);
        assert Announces(log, base, i, k, n);
      }
    }
  }

  /** A view that announces no operation. */
  lemma PublishMatches(j: Store<Values>, m: Views, base: nat, v: Snapshot)
    requires Matches(j, m, base) && v.generation == |m| + 1 && !v.cause.OperationMoved?
    ensures Matches(j, m + [v], base)
  {
    JournaledPublishes(j.log, m, base, v);
    AnnouncedPublishes(j.log, m, base, v);
  }

  lemma MoveJournaled(log: seq<Transition>, m: Views, base: nat, e: Transition, v: Snapshot)
    requires base <= |log| && Journaled(log, m, base)
    requires e.generation == |m| + 1 && v.cause == OperationMoved(e.op, e.to)
    ensures Journaled(log + [e], m + [v], base)
  {
    JournaledPublishes(log, m, base, v);
    assert (m + [v])[e.generation - 1] == v;
    JournaledLogs(log, m + [v], base, e);
  }

  lemma MoveAnnounced(log: seq<Transition>, m: Views, base: nat, e: Transition, v: Snapshot)
    requires base <= |log| && Announced(log, m, base)
    requires e.from.Some? && e.generation == |m| + 1 && v.cause == OperationMoved(e.op, e.to)
    ensures Announced(log + [e], m + [v], base)
  {
    AnnouncedLogs(log, m, base, e);
    var n := m + [v];
    assert n[|m|] == v && (log + [e])[|log|] == e;
    assert Announces(log + [e], base, |log|, n, |m|);
    AnnouncedPublishes(log + [e], m, base, v);
  }

  /** A log entry and the view that announces it. */
  lemma MoveMatches(j: Store<Values>, k: Store<Values>, m: Views, base: nat, e: Transition, v: Snapshot)
    requires Matches(j, m, base) && k.log == j.log + [e] && (forall op :: Refines(k, op)) && KeysSound(k)
    requires e.from.Some? && e.generation == |m| + 1 && v.generation == |m| + 1 && v.cause == OperationMoved(e.op, e.to)
    ensures Matches(k, m + [v], base)
  {
    MoveJournaled(j.log, m, base, e, v);
    MoveAnnounced(j.log, m, base, e, v);
  }

  /** An admission entry announces nothing. */
  lemma AdmissionMatches(j: Store<Values>, k: Store<Values>, m: Views, base: nat, e: Transition)
    requires Matches(j, m, base) && k.log == j.log + [e] && (forall op :: Refines(k, op)) && KeysSound(k)
    requires e.from.None?
    ensures Matches(k, m, base)
  {
    JournaledLogs(j.log, m, base, e);
    AnnouncedLogs(j.log, m, base, e);
  }

  lemma OtherTablesMatch(j: Store<Values>, k: Store<Values>, m: Views, base: nat)
    requires Matches(j, m, base) && k.ops == j.ops && k.log == j.log && KeysSound(k)
    ensures Matches(k, m, base)
  {
    forall op ensures Refines(k, op) { assert Refines(j, op); }
  }

  // ---------- steps ----------

  lemma PublishKeeps(d: Domain, v: Snapshot, base: nat)
    requires Good(d, base) && !v.cause.OperationMoved?
    ensures Matches(d.journal, Publish(d.machine, v), base)
  {
    assert Current(d.machine).generation == |d.machine|;
    PublishMatches(d.journal, d.machine, base, v.(generation := Current(d.machine).generation + 1));
  }

  lemma LatchKeeps(d: Domain, base: nat)
    requires Good(d, base)
    ensures Good(Latch(d), base)
  {
    PublishKeeps(d, Current(d.machine).(journalAvailable := false, cause := JournalFaulted), base);
  }

  lemma KeysStaySound(j: Store<Values>, op: OpId, row: Row, log: seq<Transition>)
    requires KeysSound(j) && op in j.ops && row.fingerprint == j.ops[op].fingerprint
    ensures KeysSound(j.(ops := j.ops[op := row], log := log))
  {
  }

  /** The durable write and the published generation of a transition agree, or neither happens. */
  lemma MoveKeeps(d: Domain, op: OpId, to: OpState, at: Time, commits: bool, base: nat)
    requires Good(d, base) && Move(d, op, to, at, commits).Ok?
    ensures Good(Move(d, op, to, at, commits).value, base)
  {
    var e := Move(d, op, to, at, commits).value;
    var g := Generation(d) + 1;
    assert g == |d.machine| + 1;
    forall id ensures Refines(e.journal, id) {
      TransitionRefines(d.journal, op, to, g, at, to.Succeeded?, commits, id);
    }
    KeysStaySound(d.journal, op, e.journal.ops[op], e.journal.log);
    var active := if Terminal(to) then None else Some(op);
    var v := Current(d.machine).(active := active, cause := OperationMoved(op, to), generation := g);
    MoveMatches(d.journal, e.journal, d.machine, base, Transition(op, Some(d.journal.ops[op].state), to, g, at), v);
  }

  lemma KeyIsSound(j: Store<Values>, op: OpId, row: Row, key: Key, rec: KeyRecord, log: seq<Transition>)
    requires KeysSound(j) && op !in j.ops && key !in j.keys && rec.op == op && rec.fingerprint == row.fingerprint
    ensures KeysSound(j.(ops := j.ops[op := row], log := log, keys := j.keys[key := rec]))
  {
  }

  lemma RecordedKeeps(d: Domain, q: Request, j: Store<Values>, c0: bool, base: nat)
    requires Good(d, base)
    requires RecordAdmission(d.journal, q.op, NewRow(d, q), q.key,
             KeyRecord(q.fingerprint, q.op, q.now, q.expiresAt), c0) == Ok(j)
    ensures Matches(j, d.machine, base)
  {
    var rec := KeyRecord(q.fingerprint, q.op, q.now, q.expiresAt);
    forall id ensures Refines(j, id) {
      AdmissionRefines(d.journal, q.op, NewRow(d, q), q.key, rec, c0, id);
    }
    KeyIsSound(d.journal, q.op, NewRow(d, q), q.key, rec, j.log);
    AdmissionMatches(d.journal, j, d.machine, base, Transition(q.op, None, Queued, Generation(d), q.now));
  }

  lemma AdmitKeeps(d: Domain, q: Request, c0: bool, c1: bool, base: nat)
    requires Good(d, base)
    ensures match Admit(d, q, c0, c1) case Ok(e) => Good(e, base) case Err(e) => Good(e, base)
  {
    var rec := KeyRecord(q.fingerprint, q.op, q.now, q.expiresAt);
    match RecordAdmission(d.journal, q.op, NewRow(d, q), q.key, rec, c0)
    case Err(_) => LatchKeeps(d, base);
    case Ok(j) =>
      RecordedKeeps(d, q, j, c0, base);
      MoveOrLatchKeeps(d.(journal := j), q.op, Accepted, q.now, c1, base);
  }

  lemma MoveOrLatchKeeps(d: Domain, op: OpId, to: OpState, at: Time, commits: bool, base: nat)
    requires Good(d, base)
    ensures Good(Latch(d), base)
    ensures Move(d, op, to, at, commits).Ok? ==> Good(Move(d, op, to, at, commits).value, base)
  {
    LatchKeeps(d, base);
    if Move(d, op, to, at, commits).Ok? { MoveKeeps(d, op, to, at, commits, base); }
  }

  lemma SubmitKeeps(d: Domain, q: Request, c0: bool, c1: bool, c2: bool, base: nat)
    requires Good(d, base)
    ensures Good(Submit(d, q, c0, c1, c2).0, base)
  {
    match Check(d, q)
    case Some(_) =>
    case None =>
      AdmitKeeps(d, q, c0, c1, base);
      match Admit(d, q, c0, c1)
      case Err(_) =>
      case Ok(accepted) => if q.action.Stop? { MoveOrLatchKeeps(accepted, q.op, Running, q.now, c2, base); }
  }

  lemma BeginKeeps(d: Domain, q: Request, call: Call, c0: bool, c1: bool, base: nat)
    requires Good(d, base)
    ensures Good(BeginConfigure(d, q, call, c0, c1).0, base)
  {
    match Check(d, q)
    case Some(_) =>
    case None =>
      AdmitKeeps(d, q, c0, c1, base);
      match Admit(d, q, c0, c1) { case Err(_) => case Ok(_) => }
  }

  lemma VersionKeeps(d: Domain, configs: seq<(nat, Values)>, base: nat)
    requires Good(d, base)
    ensures Matches(d.journal.(configs := configs), d.machine, base)
  {
    OtherTablesMatch(d.journal, d.journal.(configs := configs), d.machine, base);
  }

  lemma ContinueKeeps(d: Domain, at: Time, commits: bool, base: nat)
    requires Good(d, base) && d.holding.Some?
    ensures Good(ContinueConfigure(d, at, commits), base)
  {
    var h := d.holding.value;
    match h.stage
    case Recorded => MoveOrLatchKeeps(d, h.op, Running, at, commits, base);
    case Begun =>
      LatchKeeps(d, base);
      VersionKeeps(d, d.journal.configs + [(Generation(d) + 1, h.call.candidate)], base);
    case Stored =>
      PublishKeeps(d, Current(d.machine).(active := Some(h.op), cause := ConfigurationApplied(h.op)), base);
    case Announced => MoveOrLatchKeeps(d, h.op, Succeeded, at, commits, base);
  }

  lemma StepKeeps(d: Domain, l: Label, e: Domain, base: nat)
    requires Good(d, base) && Step(d, l) == Some(e)
    ensures Good(e, base)
  {
    match l
    case Asks(q, c0, c1, c2) => SubmitKeeps(d, q, c0, c1, c2, base);
    case AppliesConfiguration(call, q, c0, c1) => BeginKeeps(d, q, d.calls[call], c0, c1, base);
    case Moves(op, to, at, commits) => MoveOrLatchKeeps(d, op, to, at, commits, base);
    case Latches => LatchKeeps(d, base);
    case SeesConnection(c) => PublishKeeps(d, Current(d.machine).(connection := c, cause := ConnectionChanged), base);
    case SeesProfile(p) => PublishKeeps(d, Current(d.machine).(profile := p, cause := ProfileObserved), base);
    case PrunesKeys(_) => OtherTablesMatch(d.journal, e.journal, d.machine, base);
    case ReadsConfiguration(_, _, _) =>
    case ContinuesConfiguration(at, commits) => ContinueKeeps(d, at, commits, base);
  }

  lemma {:induction false} ExecKeeps(d: Domain, labels: seq<Label>, e: Domain, base: nat)
    requires Good(d, base) && Exec(d, labels) == Some(e)
    ensures Good(e, base)
    decreases |labels|
  {
    if labels != [] {
      var m := Step(d, labels[0]).value;
      StepKeeps(d, labels[0], m, base);
      ExecKeeps(m, labels[1..], e, base);
    }
  }

  /** A journal that a daemon life may start from. */
  ghost predicate Sound(j: Store<Values>) {
    (forall op :: Refines(j, op)) && KeysSound(j)
  }

  /**
   In every run of a daemon life: generations have no gap, each row is the replay of its
   log, lifecycle entries carry exactly the generation whose view announces them, and no
   view announces a transition the journal does not hold.
   */
  lemma JournalRefinesView(j: Store<Values>, labels: seq<Label>, d: Domain)
    requires Sound(j) && Exec(Boot(j), labels) == Some(d)
    ensures Good(d, |j.log|)
  {
    ExecKeeps(Boot(j), labels, d, |j.log|);
  }

  // ---------- what is terminal stays ----------

  /** What an existing row and an existing key keep across any step that admits or moves. */
  predicate Retains(d: Domain, e: Domain, id: OpId, key: Key) {
    && (id in d.journal.ops ==>
          && id in e.journal.ops
          && (Terminal(d.journal.ops[id].state) ==> e.journal.ops[id] == d.journal.ops[id]))
    && (key in d.journal.keys ==> key in e.journal.keys && e.journal.keys[key] == d.journal.keys[key])
  }

  lemma AdmitRetains(d: Domain, q: Request, c0: bool, c1: bool, id: OpId, key: Key)
    ensures match Admit(d, q, c0, c1) case Ok(e) => Retains(d, e, id, key) case Err(e) => Retains(d, e, id, key)
  {
    match RecordAdmission(d.journal, q.op, NewRow(d, q), q.key, KeyRecord(q.fingerprint, q.op, q.now, q.expiresAt), c0)
    case Err(_) =>
    case Ok(j) => match Move(d.(journal := j), q.op, Accepted, q.now, c1) { case Ok(_) => case Err(_) => }
  }

  lemma SubmitRetains(d: Domain, q: Request, c0: bool, c1: bool, c2: bool, id: OpId, key: Key)
    ensures Retains(d, Submit(d, q, c0, c1, c2).0, id, key)
  {
    match Check(d, q)
    case Some(_) =>
    case None =>
      AdmitRetains(d, q, c0, c1, id, key);
      match Admit(d, q, c0, c1)
      case Err(_) =>
      case Ok(accepted) =>
        if q.action.Stop? {
          match Move(accepted, q.op, Running, q.now, c2) { case Ok(_) => case Err(_) => }
        }
  }

  lemma BeginRetains(d: Domain, q: Request, call: Call, c0: bool, c1: bool, id: OpId, key: Key)
    ensures Retains(d, BeginConfigure(d, q, call, c0, c1).0, id, key)
  {
    match Check(d, q)
    case Some(_) =>
    case None =>
      AdmitRetains(d, q, c0, c1, id, key);
      match Admit(d, q, c0, c1) { case Err(_) => case Ok(_) => }
  }

  lemma ContinueRetains(d: Domain, at: Time, commits: bool, id: OpId, key: Key)
    requires d.holding.Some?
    ensures Retains(d, ContinueConfigure(d, at, commits), id, key)
  {
    var op := d.holding.value.op;
    match d.holding.value.stage
    case Recorded => match Move(d, op, Running, at, commits) { case Ok(_) => case Err(_) => }
    case Begun =>
    case Stored =>
    case Announced => match Move(d, op, Succeeded, at, commits) { case Ok(_) => case Err(_) => }
  }

  /** No step rewrites a terminal record. */
  lemma TerminalIsFinalStep(d: Domain, l: Label, e: Domain, id: OpId)
    requires Step(d, l) == Some(e) && id in d.journal.ops
    ensures id in e.journal.ops
    ensures Terminal(d.journal.ops[id].state) ==> e.journal.ops[id] == d.journal.ops[id]
  {
    match l
    case Asks(q, c0, c1, c2) => SubmitRetains(d, q, c0, c1, c2, id, 0);
    case AppliesConfiguration(call, q, c0, c1) => BeginRetains(d, q, d.calls[call], c0, c1, id, 0);
    case ContinuesConfiguration(at, commits) => ContinueRetains(d, at, commits, id, 0);
    case _ =>
  }

  lemma {:induction false} TerminalIsFinal(d: Domain, labels: seq<Label>, e: Domain, id: OpId)
    requires Exec(d, labels) == Some(e) && id in d.journal.ops && Terminal(d.journal.ops[id].state)
    ensures id in e.journal.ops && e.journal.ops[id] == d.journal.ops[id]
    decreases |labels|
  {
    if labels != [] {
      TerminalIsFinalStep(d, labels[0], Step(d, labels[0]).value, id);
      TerminalIsFinal(Step(d, labels[0]).value, labels[1..], e, id);
    }
  }

  // ---------- idempotent admission ----------

  /** A stored key is never bound to anything else; only a pruning past its expiry removes it. */
  lemma KeyStaysBound(d: Domain, l: Label, e: Domain, key: Key)
    requires Step(d, l) == Some(e) && key in d.journal.keys
    ensures key in e.journal.keys ==> e.journal.keys[key] == d.journal.keys[key]
    ensures !(l.PrunesKeys? && l.at >= d.journal.keys[key].expiresAt) ==> key in e.journal.keys
  {
    match l
    case Asks(q, c0, c1, c2) => SubmitRetains(d, q, c0, c1, c2, 0, key);
    case AppliesConfiguration(call, q, c0, c1) => BeginRetains(d, q, d.calls[call], c0, c1, 0, key);
    case ContinuesConfiguration(at, commits) => ContinueRetains(d, at, commits, 0, key);
    case _ =>
  }

  ghost predicate NeverPruned(labels: seq<Label>, expiry: Time) {
    forall i :: 0 <= i < |labels| && labels[i].PrunesKeys? ==> labels[i].at < expiry
  }

  lemma {:induction false} KeySurvives(d: Domain, labels: seq<Label>, e: Domain, key: Key)
    requires Exec(d, labels) == Some(e) && key in d.journal.keys && NeverPruned(labels, d.journal.keys[key].expiresAt)
    ensures key in e.journal.keys && e.journal.keys[key] == d.journal.keys[key]
    decreases |labels|
  {
    if labels != [] {
      var m := Step(d, labels[0]).value;
      KeyStaysBound(d, labels[0], m, key);
      assert forall i :: 0 <= i < |labels[1..]| ==> labels[1..][i] == labels[i + 1];
      KeySurvives(m, labels[1..], e, key);
    }
  }

  /** How a request reaches the daemon: as a machine operation or as a `configure`. */
  datatype Route = ByOperation(c2: bool) | ByConfigure(call: Call)

  function Enter(d: Domain, q: Request, c0: bool, c1: bool, route: Route): (Domain, Verdict) {
    match route
    case ByOperation(c2) => Submit(d, q, c0, c1, c2)
    case ByConfigure(call) => BeginConfigure(d, q, call, c0, c1)
  }

  /** An admission, by either route, binds its key to its operation. */
  lemma AdmissionBinds(d: Domain, q: Request, c0: bool, c1: bool, route: Route)
    requires Enter(d, q, c0, c1, route).1.Admitted?
    ensures var e := Enter(d, q, c0, c1, route).0;
            && q.op !in d.journal.ops && q.key !in d.journal.keys
            && q.op in e.journal.ops && e.journal.ops[q.op].fingerprint == q.fingerprint
            && q.key in e.journal.keys && e.journal.keys[q.key] == KeyRecord(q.fingerprint, q.op, q.now, q.expiresAt)
  {
    match Admit(d, q, c0, c1)
    case Err(_) =>
    case Ok(accepted) =>
      match route
      case ByConfigure(_) =>
      case ByOperation(c2) =>
        if q.action.Stop? {
          match Move(accepted, q.op, Running, q.now, c2) { case Ok(_) => case Err(_) => }
        }
  }

  /**
   Whatever happens between two calls with one live key, and whichever of the two is a
   `configure`: an equal fingerprint returns the first operation whatever generation the second
   call expects, a different one admits nothing, and a latched daemon refuses.
   */
  lemma SameKeySameOperation(
    d: Domain, q: Request, c0: bool, c1: bool, first: Route, labels: seq<Label>, e: Domain,
    r: Request, k0: bool, k1: bool, second: Route)
    requires Enter(d, q, c0, c1, first).1.Admitted? && Exec(Enter(d, q, c0, c1, first).0, labels) == Some(e)
    requires NeverPruned(labels, q.expiresAt) && r.key == q.key && r.now < q.expiresAt
    ensures Enter(e, r, k0, k1, second) ==
            (e, if !Current(e.machine).journalAvailable then Undurable
                else if r.fingerprint == q.fingerprint then Replayed(q.op) else Conflict)
  {
    AdmissionBinds(d, q, c0, c1, first);
    KeySurvives(Enter(d, q, c0, c1, first).0, labels, e, q.key);
  }

  /**
   A key that is stored never admits a second operation, by either route. When it has expired
   but was not pruned, an otherwise admissible request loses the journal instead: the fault
   latches.
   */
  lemma StoredKeyNeverAdmits(d: Domain, q: Request, c0: bool, c1: bool, route: Route)
    requires q.key in d.journal.keys
    ensures var (e, v) := Enter(d, q, c0, c1, route);
            && !v.Admitted? && e.journal == d.journal
            && (v.StorageLost? <==> Check(d, q).None?)
            && (v.StorageLost? ==> !Current(e.machine).journalAvailable && d.journal.keys[q.key].expiresAt <= q.now)
            && (!v.StorageLost? ==> e == d)
  {
    match route { case ByOperation(_) => case ByConfigure(_) => }
  }
}
