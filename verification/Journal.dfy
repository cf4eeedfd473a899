/** Durable operation identity and lifecycle: the vocabulary of `operations.py`. */
module Operations {
  import opened Common

  datatype Action = Connect | Recover | Home | Sort | Feed | Stop | Configure

  datatype OpState = Queued | Accepted | Running | Succeeded | Failed | Cancelled | Uncertain

  predicate Terminal(s: OpState) {
    s.Succeeded? || s.Failed? || s.Cancelled? || s.Uncertain?
  }

  /** `SUCCEEDED` only from `RUNNING`; everything unfinished may fail, be cancelled or become uncertain. */
  predicate CanTransition(from: OpState, to: OpState) {
    match from
    case Queued => to.Accepted? || to.Failed? || to.Cancelled? || to.Uncertain?
    case Accepted => to.Running? || to.Failed? || to.Cancelled? || to.Uncertain?
    case Running => to.Succeeded? || to.Failed? || to.Cancelled? || to.Uncertain?
    case _ => false
  }

  type OpId = nat
  type Key = nat
  type Time = nat

  /** A request fingerprint: an injective image of action, body and actor. */
  type Fingerprint = nat
}

/**
 The durable journal: operations, their append-only transition log, idempotency keys and
 configuration versions. Each function is one transaction; `commits` is false when the
 storage engine fails it, and then nothing changes.
 */
module Journal {
  import opened Common
  import opened Operations

  datatype Row = Row(
    action: Action,
    fingerprint: Fingerprint,
    state: OpState,
    generation: nat,
    createdAt: Time,
    deadlineAt: Time,
    trusted: bool,
    terminalAt: Option<Time>)

  datatype Transition = Transition(op: OpId, from: Option<OpState>, to: OpState, generation: nat, at: Time)

  datatype KeyRecord = KeyRecord(fingerprint: Fingerprint, op: OpId, createdAt: Time, expiresAt: Time)

  datatype Store<!V> = Store(
    ops: map<OpId, Row>,
    log: seq<Transition>,
    keys: map<Key, KeyRecord>,
    configs: seq<(nat, V)>)

  datatype JournalError =
    | StorageFailed          // `JournalError`
    | InvalidTransition      // a defect of the caller, not of the storage

  // ---------- transactions ----------

  function RecordAdmission<V>(j: Store<V>, op: OpId, row: Row, key: Key, rec: KeyRecord, commits: bool)
    : Result<Store<V>, JournalError>
  {
    if row.state != Queued || rec.op != op || rec.fingerprint != row.fingerprint then Err(InvalidTransition)
    // the primary keys of both tables; an expired key still occupies its row
    else if op in j.ops || key in j.keys || !commits then Err(StorageFailed)
    else Ok(j.(ops := j.ops[op := row],
               log := j.log + [Transition(op, None, Queued, row.generation, row.createdAt)],
               keys := j.keys[key := rec]))
  }

  function RecordTransition<V>(
    j: Store<V>, op: OpId, to: OpState, generation: nat, at: Time, trusted: bool, commits: bool)
    : Result<Store<V>, JournalError>
  {
    if to.Succeeded? != trusted then Err(InvalidTransition)
    else if op !in j.ops then Err(StorageFailed)
    else
      var row := j.ops[op];
      if !CanTransition(row.state, to) || generation < row.generation then Err(InvalidTransition)
      else if !commits then Err(StorageFailed)
      else Ok(j.(ops := j.ops[op := row.(state := to, generation := generation, trusted := trusted,
                                         terminalAt := if Terminal(to) then Some(at) else None)],
                 log := j.log + [Transition(op, Some(row.state), to, generation, at)]))
  }

  /** The live record of a key; an expired one reads as absent and is not deleted. */
  function LiveKey<V>(j: Store<V>, key: Key, at: Time): Option<KeyRecord> {
    if key in j.keys && at < j.keys[key].expiresAt then Some(j.keys[key]) else None
  }

  function Prune<V>(j: Store<V>, at: Time): Store<V> {
    j.(keys := map k | k in j.keys && j.keys[k].expiresAt > at :: j.keys[k])
  }

  function RecordConfiguration<V>(j: Store<V>, generation: nat, values: V, commits: bool)
    : Result<Store<V>, JournalError>
  {
    if commits then Ok(j.(configs := j.configs + [(generation, values)])) else Err(StorageFailed)
  }

  /** `ORDER BY generation DESC, rowid DESC LIMIT 1`. */
  function Newest<V>(configs: seq<(nat, V)>): Option<(nat, V)> {
    if configs == [] then None
    else
      var last := configs[|configs| - 1];
      match Newest(configs[..|configs| - 1])
      case None => Some(last)
      case Some(best) => Some(if best.0 <= last.0 then last else best)
  }

  // ---------- the log determines the rows ----------

  datatype Position = Position(state: OpState, generation: nat, terminalAt: Option<Time>)

  function PositionOf(row: Row): Position {
    Position(row.state, row.generation, row.terminalAt)
  }

  /** One audit entry applied to where the operation was; `None` when it does not follow on. */
  function Advance(p: Option<Position>, e: Transition): Option<Position> {
    if p.None? then
      if e.from.None? && e.to.Queued? then Some(Position(Queued, e.generation, None)) else None
    else if e.from == Some(p.value.state) && CanTransition(p.value.state, e.to)
        && p.value.generation <= e.generation then
      Some(Position(e.to, e.generation, if Terminal(e.to) then Some(e.at) else None))
    else None
  }

  /** Replaying the whole log for one operation. */
  function Fold(log: seq<Transition>, op: OpId): Option<Position> {
    if log == [] then None
    else
      var e := log[|log| - 1];
      var p := Fold(log[..|log| - 1], op);
      if e.op != op then p else Advance(p, e)
  }

  predicate Entered(log: seq<Transition>, op: OpId, state: OpState) {
    exists i :: 0 <= i < |log| && log[i].op == op && log[i].to == state
  }

  /** The row of an operation is exactly what its log replays to, and absent when the log is silent. */
  predicate Refines<V>(j: Store<V>, op: OpId) {
    && (op in j.ops ==> Fold(j.log, op) == Some(PositionOf(j.ops[op])))
    && (op !in j.ops ==> Silent(j.log, op))
    && (op in j.ops ==> (j.ops[op].trusted <==> j.ops[op].state.Succeeded?))
    && (op in j.ops && j.ops[op].state.Succeeded? ==> Entered(j.log, op, Running))
    && (op in j.ops && j.ops[op].state.Running? ==> Entered(j.log, op, Running))
    && (op in j.ops && (j.ops[op].state.Queued? || j.ops[op].state.Accepted?) ==> !Entered(j.log, op, Running))
  }

  predicate Silent(log: seq<Transition>, op: OpId) {
    forall i :: 0 <= i < |log| ==> log[i].op != op
  }

  lemma {:induction false} SilentFolds(log: seq<Transition>, op: OpId)
    requires Silent(log, op)
    ensures Fold(log, op) == None
  {
    if log != [] { SilentFolds(log[..|log| - 1], op); }
  }

  lemma LogGrows(log: seq<Transition>, e: Transition, op: OpId)
    ensures Fold(log + [e], op) == if e.op != op then Fold(log, op) else Advance(Fold(log, op), e)
    ensures forall s :: Entered(log + [e], op, s) <==> Entered(log, op, s) || (e.op == op && e.to == s)
    ensures Silent(log + [e], op) <==> Silent(log, op) && e.op != op
  {
    var g := log + [e];
    assert g[..|log|] == log && g[|log|] == e;
    forall s ensures Entered(g, op, s) <==> Entered(log, op, s) || (e.op == op && e.to == s) {
      if Entered(log, op, s) {
        var i :| 0 <= i < |log| && log[i].op == op && log[i].to == s;
        assert g[i] == log[i];
      }
      if Entered(g, op, s) {
        var i :| 0 <= i < |g| && g[i].op == op && g[i].to == s;
        assert i < |log| ==> g[i] == log[i];
      }
    }
    assert forall i :: 0 <= i < |log| ==> g[i] == log[i];
  }

  /** Admission keeps every row equal to the replay of its log. */
  lemma AdmissionRefines<V>(j: Store<V>, op: OpId, row: Row, key: Key, rec: KeyRecord, commits: bool, id: OpId)
    requires Refines(j, id) && !row.trusted && row.terminalAt.None?
    requires RecordAdmission(j, op, row, key, rec, commits).Ok?
    ensures Refines(RecordAdmission(j, op, row, key, rec, commits).value, id)
  {
    LogGrows(j.log, Transition(op, None, Queued, row.generation, row.createdAt), id);
    if id == op { SilentFolds(j.log, op); }
  }

  /** A transition keeps every row equal to the replay of its log. */
  lemma TransitionRefines<V>(
    j: Store<V>, op: OpId, to: OpState, g: nat, at: Time, trusted: bool, commits: bool, id: OpId)
    requires Refines(j, id) && RecordTransition(j, op, to, g, at, trusted, commits).Ok?
    ensures Refines(RecordTransition(j, op, to, g, at, trusted, commits).value, id)
  {
    LogGrows(j.log, Transition(op, Some(j.ops[op].state), to, g, at), id);
  }

  // ---------- configuration versions ----------

  /**
   Reading back returns what was just stored exactly when no stored version, of this or
   of an earlier daemon life, carries a higher generation.
   */
  lemma {:induction false} ReadBack<V>(configs: seq<(nat, V)>, g: nat, values: V)
    ensures Newest(configs + [(g, values)]) == Some((g, values))
            <==> (forall i :: 0 <= i < |configs| ==> configs[i].0 <= g) || Newest(configs) == Some((g, values))
    ensures (forall i :: 0 <= i < |configs| ==> configs[i].0 <= g)
            <==> (Newest(configs).Some? ==> Newest(configs).value.0 <= g)
  {
    var all := configs + [(g, values)];
    assert all[..|configs|] == configs;
    NewestIsHighest(configs);
  }

  lemma {:induction false} NewestIsHighest<V>(configs: seq<(nat, V)>)
    ensures configs != [] <==> Newest(configs).Some?
    ensures forall i :: 0 <= i < |configs| ==> configs[i].0 <= Newest(configs).value.0
    ensures configs != [] ==> exists i :: 0 <= i < |configs| && configs[i] == Newest(configs).value
  {
    if configs != [] {
      var rest := configs[..|configs| - 1];
      NewestIsHighest(rest);
      if rest != [] {
        var k :| 0 <= k < |rest| && rest[k] == Newest(rest).value;
        assert configs[k] == rest[k];
      }
      forall i | 0 <= i < |configs| ensures configs[i].0 <= Newest(configs).value.0 {
        if i < |rest| { assert configs[i] == rest[i]; }
      }
      assert configs[|configs| - 1] == Newest(configs).value || rest != [];
    }
  }

  // ---------- the journal object ----------

  /** `Journal`: the tables as mutable fields; every method commits wholly or changes nothing. */
  class JournalFile<V(0)> {
    var ops: map<OpId, Row>
    var log: seq<Transition>
    var keys: map<Key, KeyRecord>
    var configs: seq<(nat, V)>

    constructor ()
      ensures Tables() == Store(map[], [], map[], [])
    {
      ops, log, keys, configs := map[], [], map[], [];
    }

    function Tables(): Store<V>
      reads this
    {
      Store(ops, log, keys, configs)
    }

    method Admit(op: OpId, row: Row, key: Key, rec: KeyRecord, commits: bool) returns (error: Option<JournalError>)
      modifies this
      ensures match error
              case None => RecordAdmission(old(Tables()), op, row, key, rec, commits) == Ok(Tables())
              case Some(e) =>
                && RecordAdmission(old(Tables()), op, row, key, rec, commits) == Err(e)
                && Tables() == old(Tables())
    {
      if row.state != Queued { return Some(InvalidTransition); }
      if rec.op != op || rec.fingerprint != row.fingerprint { return Some(InvalidTransition); }
      var ops', log', keys' := ops, log, keys;
      if op in ops { return Some(StorageFailed); }
      ops := ops[op := row];
      log := log + [Transition(op, None, Queued, row.generation, row.createdAt)];
      if key in keys || !commits {
        ops, log, keys := ops', log', keys';
        return Some(StorageFailed);
      }
      keys := keys[key := rec];
      return None;
    }

    method Move(op: OpId, to: OpState, generation: nat, at: Time, trusted: bool, commits: bool)
      returns (error: Option<JournalError>)
      modifies this
      ensures match error
              case None => RecordTransition(old(Tables()), op, to, generation, at, trusted, commits) == Ok(Tables())
              case Some(e) =>
                && RecordTransition(old(Tables()), op, to, generation, at, trusted, commits) == Err(e)
                && Tables() == old(Tables())
    {
      if to.Succeeded? && !trusted { return Some(InvalidTransition); }
      if trusted && !to.Succeeded? { return Some(InvalidTransition); }
      if op !in ops { return Some(StorageFailed); }
      var current := ops[op];
      if !CanTransition(current.state, to) { return Some(InvalidTransition); }
      if generation < current.generation { return Some(InvalidTransition); }
      if !commits { return Some(StorageFailed); }
      var terminalAt := if Terminal(to) then Some(at) else None;
      ops := ops[op := current.(state := to, generation := generation, trusted := trusted, terminalAt := terminalAt)];
      log := log + [Transition(op, Some(current.state), to, generation, at)];
      return None;
    }

    method PruneKeys(at: Time)
      modifies this
      ensures Tables() == Prune(old(Tables()), at)
    {
      keys := map k | k in keys && keys[k].expiresAt > at :: keys[k];
    }

    /** The newest configuration by generation, ties broken by insertion order. */
    method ReadConfiguration() returns (r: Option<(nat, V)>)
      ensures r == Newest(configs)
    {
      r := None;
      var i := 0;
      while i < |configs|
        invariant 0 <= i <= |configs|
        invariant r == Newest(configs[..i])
      {
        assert configs[..i + 1][..i] == configs[..i];
        if r.None? || r.value.0 <= configs[i].0 { r := Some(configs[i]); }
        i := i + 1;
      }
      assert configs[..|configs|] == configs;
    }
  }
}
