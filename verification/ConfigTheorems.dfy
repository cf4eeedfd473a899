/**
 Configuration has no lost update, although `configure` reads the values it changes outside
 the admission lock; and exactly how far a caller may guess ahead before that ends.
 */
module ConfigTheorems {
  import opened Common
  import opened Operations
  import opened Journal
  import opened Machine
  import opened Configuration
  import opened Domain

  // ---------- how far ahead a reader may guess ----------

  /** Generations until the next version that a reader of this state has not seen takes hold. */
  function Slack(d: Domain): nat {
    if d.holding.None? then 4
    else match d.holding.value.stage
      case Recorded => 3
      case Begun => 2
      case Stored => 6
      case Announced => 5
  }

  /** Generations the current holder of the lock still publishes after storing its values. */
  function Margin(d: Domain): nat {
    if d.holding.None? then 0
    else match d.holding.value.stage
      case Recorded => 0
      case Begun => 0
      case Stored => 2
      case Announced => 1
  }

  function InForce(configs: seq<(nat, Values)>): Values {
    match Newest(configs)
    case None => DEFAULTS
    case Some(row) => row.1
  }

  /** A call that has missed a version can no longer be admitted. */
  predicate Fits(d: Domain, c: Call) {
    && c.seen <= |d.journal.configs| && c.base == InForce(d.journal.configs[..c.seen])
    && WithChanges(c.base, c.changes) == Some(c.candidate)
    && c.expected < Generation(d) + if c.seen == |d.journal.configs| then Slack(d) else Margin(d)
  }

  predicate Storing(d: Domain, c: Call) {
    d.holding.Some? && d.holding.value.call == c
        && (d.holding.value.stage == Recorded || d.holding.value.stage == Begun)
  }

  predicate Safe(d: Domain, c: Call) {
    Fits(d, c) && (Storing(d, c) ==> c.seen == |d.journal.configs|)
  }

  // ---------- what the holder of the lock can rely on ----------

  /** While `configure` holds the lock the journal is available and its own row is where its stage says. */
  predicate Live(d: Domain) {
    d.holding.Some? ==>
      var h := d.holding.value;
      && Current(d.machine).journalAvailable
      && h.op in d.journal.ops && d.journal.ops[h.op].generation <= Generation(d)
      && d.journal.ops[h.op].state == if h.stage == Recorded then Accepted else Running
  }

  /** What one step of the holder does to the generation, the versions and the stage. */
  predicate Continues(d: Domain, e: Domain)
    requires d.holding.Some?
  {
    var h := d.holding.value;
    && e.calls == d.calls
    && (match h.stage
        case Recorded =>
          e.journal.configs == d.journal.configs && Generation(e) == Generation(d) + 1
          && (e.holding.None? || e.holding == Some(h.(stage := Begun)))
        case Begun =>
          if e.holding.None? then e.journal.configs == d.journal.configs && Generation(e) == Generation(d) + 1
          else
            && e.holding == Some(h.(stage := Stored)) && Generation(e) == Generation(d)
            && e.journal.configs == d.journal.configs + [(Generation(d) + 1, h.call.candidate)]
        case Stored =>
          e.journal.configs == d.journal.configs && Generation(e) == Generation(d) + 1
          && e.holding == Some(h.(stage := Announced))
        case Announced =>
          e.journal.configs == d.journal.configs && Generation(e) == Generation(d) + 1 && e.holding.None?)
  }

  lemma ContinueFacts(d: Domain, at: Time, commits: bool)
    requires Live(d) && d.holding.Some?
    ensures var e := ContinueConfigure(d, at, commits); Continues(d, e) && Live(e)
    ensures var e := ContinueConfigure(d, at, commits);
            commits ==> Current(e.machine).journalAvailable && (e.holding.None? <==> d.holding.value.stage == Announced)
  {
    var op := d.holding.value.op;
    match d.holding.value.stage
    case Recorded => match Move(d, op, Running, at, commits) { case Ok(_) => case Err(_) => }
    case Begun =>
    case Stored =>
    case Announced => match Move(d, op, Succeeded, at, commits) { case Ok(_) => case Err(_) => }
  }

  /** `configure` either goes no further than its check, or holds the lock with its operation accepted. */
  predicate Begins(d: Domain, q: Request, call: Call, e: Domain) {
    && e.journal.configs == d.journal.configs && e.calls == d.calls
    && (if e.holding.None? then Generation(d) <= Generation(e)
        else
          && Check(d, q).None? && e.holding == Some(Holding(q.op, call, Recorded))
          && Generation(e) == Generation(d) + 1)
  }

  lemma AdmitFacts(d: Domain, q: Request, c0: bool, c1: bool)
    ensures match Admit(d, q, c0, c1)
            case Ok(e) =>
              && e == d.(journal := e.journal, machine := e.machine) && e.journal.configs == d.journal.configs
              && Generation(e) == Generation(d) + 1
              && Current(e.machine).journalAvailable == Current(d.machine).journalAvailable
              && q.op in e.journal.ops && e.journal.ops[q.op].state == Accepted
              && e.journal.ops[q.op].generation == Generation(e)
            case Err(e) =>
              e == d.(journal := e.journal, machine := e.machine) && e.journal.configs == d.journal.configs
                  && Generation(d) <= Generation(e)
    ensures q.op !in d.journal.ops && q.key !in d.journal.keys && c0 && c1 ==> Admit(d, q, c0, c1).Ok?
  {
    match RecordAdmission(d.journal, q.op, NewRow(d, q), q.key, KeyRecord(q.fingerprint, q.op, q.now, q.expiresAt), c0)
    case Err(_) =>
    case Ok(j) => match Move(d.(journal := j), q.op, Accepted, q.now, c1) { case Ok(_) => case Err(_) => }
  }

  lemma BeginFacts(d: Domain, q: Request, call: Call, c0: bool, c1: bool)
    requires d.holding.None?
    ensures var e := BeginConfigure(d, q, call, c0, c1).0; Begins(d, q, call, e) && Live(e)
  {
    AdmitFacts(d, q, c0, c1);
    match Check(d, q)
    case Some(_) =>
    case None => match Admit(d, q, c0, c1) { case Err(_) => case Ok(_) => }
  }

  /** Every other step leaves the values and the lock alone, and publishes only while it is free. */
  predicate Leaves(d: Domain, e: Domain) {
    && e.journal.configs == d.journal.configs && e.holding == d.holding && Generation(d) <= Generation(e)
    && (d.holding.Some? ==> Generation(e) == Generation(d) && e.journal.ops == d.journal.ops && e.machine == d.machine)
  }

  lemma SubmitLeaves(d: Domain, q: Request, c0: bool, c1: bool, c2: bool)
    requires d.holding.None?
    ensures Leaves(d, Submit(d, q, c0, c1, c2).0)
  {
    AdmitFacts(d, q, c0, c1);
    match Check(d, q)
    case Some(_) =>
    case None =>
      match Admit(d, q, c0, c1)
      case Err(_) =>
      case Ok(accepted) =>
        if q.action.Stop? {
          match Move(accepted, q.op, Running, q.now, c2) { case Ok(_) => case Err(_) => }
        }
  }

  lemma OtherLeaves(d: Domain, l: Label, e: Domain)
    requires Step(d, l) == Some(e) && !l.AppliesConfiguration? && !l.ContinuesConfiguration?
    ensures Leaves(d, e)
  {
    match l
    case Asks(q, c0, c1, c2) => SubmitLeaves(d, q, c0, c1, c2);
    case Moves(op, to, at, commits) => match Move(d, op, to, at, commits) { case Ok(_) => case Err(_) => }
    case Latches =>
    case SeesConnection(_) =>
    case SeesProfile(_) =>
    case PrunesKeys(_) =>
    case ReadsConfiguration(_, _, _) =>
  }

  lemma LiveStep(d: Domain, l: Label, e: Domain)
    requires Live(d) && Step(d, l) == Some(e)
    ensures Live(e)
  {
    match l
    case AppliesConfiguration(call, q, c0, c1) => BeginFacts(d, q, d.calls[call], c0, c1);
    case ContinuesConfiguration(at, commits) => ContinueFacts(d, at, commits);
    case _ => OtherLeaves(d, l, e);
  }

  lemma {:induction false} LiveRun(d: Domain, labels: seq<Label>, e: Domain)
    requires Live(d) && Exec(d, labels) == Some(e)
    ensures Live(e)
    decreases |labels|
  {
    if labels != [] {
      LiveStep(d, labels[0], Step(d, labels[0]).value);
      LiveRun(Step(d, labels[0]).value, labels[1..], e);
    }
  }

  /** Every state of every daemon life is live. */
  lemma AlwaysLive(j: Store<Values>, labels: seq<Label>, d: Domain)
    requires Exec(Boot(j), labels) == Some(d)
    ensures Live(d)
  {
    LiveRun(Boot(j), labels, d);
  }

  // ---------- no lost update ----------

  /** Nothing but the store of a version makes a call that fits miss one. */
  lemma FitsWhenLeft(d: Domain, e: Domain, c: Call)
    requires Safe(d, c) && Leaves(d, e)
    ensures Safe(e, c)
  {
  }

  lemma SafeContinue(d: Domain, at: Time, commits: bool, c: Call)
    requires Live(d) && Safe(d, c) && d.holding.Some?
    ensures Safe(ContinueConfigure(d, at, commits), c)
  {
    ContinueFacts(d, at, commits);
    var e := ContinueConfigure(d, at, commits);
    if e.journal.configs != d.journal.configs { assert e.journal.configs[..c.seen] == d.journal.configs[..c.seen]; }
  }

  lemma SafeStep(d: Domain, l: Label, e: Domain, c: Call)
    requires Live(d) && Safe(d, c) && Step(d, l) == Some(e)
    ensures Safe(e, c)
  {
    match l
    case AppliesConfiguration(call, q, c0, c1) => BeginFacts(d, q, d.calls[call], c0, c1);
    case ContinuesConfiguration(at, commits) => SafeContinue(d, at, commits, c);
    case _ => OtherLeaves(d, l, e); FitsWhenLeft(d, e, c);
  }

  lemma {:induction false} SafeRun(d: Domain, labels: seq<Label>, e: Domain, c: Call)
    requires Live(d) && Safe(d, c) && Exec(d, labels) == Some(e)
    ensures Live(e) && Safe(e, c)
    decreases |labels|
  {
    if labels != [] {
      var m := Step(d, labels[0]).value;
      LiveStep(d, labels[0], m);
      SafeStep(d, labels[0], m, c);
      SafeRun(m, labels[1..], e, c);
    }
  }

  lemma ReadIsSafe(d: Domain, k: nat, expected: nat, changes: Changes, e: Domain)
    requires Step(d, ReadsConfiguration(k, expected, changes)) == Some(e) && expected < Generation(d) + Slack(d)
    ensures Safe(e, e.calls[k])
  {
    assert d.journal.configs[..|d.journal.configs|] == d.journal.configs;
  }

  /**
   From every live state, along every run: a call whose expected generation is less than the
   slack ahead of the generation at its read stores, if it stores anything, the values in force
   at that moment with exactly its own changes. A generation the caller observed is never ahead,
   so it always qualifies, even when it was published by a `configure` still holding the lock.
   */
  lemma NoLostUpdate(
    d: Domain, k: nat, expected: nat, changes: Changes, e: Domain,
    labels: seq<Label>, f: Domain, at: Time, commits: bool, g: Domain)
    requires Live(d) && Step(d, ReadsConfiguration(k, expected, changes)) == Some(e)
    requires expected < Generation(d) + Slack(d)
    requires Exec(e, labels) == Some(f) && f.holding.Some? && f.holding.value.call == e.calls[k]
    requires Step(f, ContinuesConfiguration(at, commits)) == Some(g) && g.journal.configs != f.journal.configs
    ensures |g.journal.configs| == |f.journal.configs| + 1
    ensures g.journal.configs[..|f.journal.configs|] == f.journal.configs
    ensures WithChanges(Applied(f.journal), changes) == Some(g.journal.configs[|f.journal.configs|].1)
  {
    var c := e.calls[k];
    ReadIsSafe(d, k, expected, changes, e);
    LiveStep(d, ReadsConfiguration(k, expected, changes), e);
    SafeRun(e, labels, f, c);
    ContinueFacts(f, at, commits);
    assert Storing(f, c);
    assert f.journal.configs[..c.seen] == f.journal.configs;
  }

  // ---------- the bound is exact ----------

  /** The call is about to store values that were computed without a version stored since. */
  predicate Overwrites(d: Domain, c: Call) {
    d.holding.Some? && d.holding.value.call == c && d.holding.value.stage == Begun && c.seen < |d.journal.configs|
  }

  ghost predicate Leads(d: Domain, e: Domain) {
    exists labels :: Exec(d, labels) == Some(e)
  }

  /** Some run makes the call overwrite a version it has not seen. */
  ghost predicate CanOverwrite(d: Domain, c: Call) {
    exists e :: Leads(d, e) && Overwrites(e, c)
  }

  lemma {:induction false} ExecAppend(d: Domain, labels: seq<Label>, l: Label)
    requires Exec(d, labels).Some?
    ensures Exec(d, labels + [l]) == Step(Exec(d, labels).value, l)
    decreases |labels|
  {
    if labels == [] {
      assert labels + [l] == [l] && [l][1..] == [];
    } else {
      assert (labels + [l])[0] == labels[0] && (labels + [l])[1..] == labels[1..] + [l];
      ExecAppend(Step(d, labels[0]).value, labels[1..], l);
    }
  }

  lemma LeadsOn(d: Domain, e: Domain, l: Label, f: Domain)
    requires Leads(d, e) && Step(e, l) == Some(f)
    ensures Leads(d, f)
  {
    var labels :| Exec(d, labels) == Some(e);
    ExecAppend(d, labels, l);
  }

  lemma LeadsHere(d: Domain)
    ensures Leads(d, d)
  {
    assert Exec(d, []) == Some(d);
  }

  /** A live state in which the lock is free and new work is recorded. */
  predicate Free(d: Domain) {
    d.holding.None? && Current(d.machine).journalAvailable
  }

  function Remaining(d: Domain): nat {
    if d.holding.None? then 0
    else match d.holding.value.stage
      case Recorded => 3
      case Begun => 2
      case Stored => 2
      case Announced => 1
  }

  /** The version the holder of the lock has still to store. */
  function ToStore(d: Domain): seq<(nat, Values)> {
    if d.holding.None? then []
    else match d.holding.value.stage
      case Recorded => [(Generation(d) + 2, d.holding.value.call.candidate)]
      case Begun => [(Generation(d) + 1, d.holding.value.call.candidate)]
      case _ => []
  }

  /** The holder of the lock comes to its end, with every transaction committing. */
  lemma {:induction false} RunsOut(o: Domain, d: Domain) returns (e: Domain)
    requires Leads(o, d) && Live(d) && Current(d.machine).journalAvailable
    ensures Leads(o, e) && Free(e) && Live(e) && e.calls == d.calls && Generation(e) == Generation(d) + Remaining(d)
    ensures e.journal.configs == d.journal.configs + ToStore(d)
    decreases if d.holding.None? then 0 else match d.holding.value.stage
      case Recorded => 4 case Begun => 3 case Stored => 2 case Announced => 1
  {
    e := d;
    assert d.journal.configs + [] == d.journal.configs;
    if d.holding.Some? {
      ContinueFacts(d, 0, true);
      var m := ContinueConfigure(d, 0, true);
      LeadsOn(o, d, ContinuesConfiguration(0, true), m);
      e := RunsOut(o, m);
    }
  }

  lemma {:induction false} Above(s: set<nat>) returns (n: nat)
    ensures forall x :: x in s ==> x < n
  {
    n := 0;
    if s != {} {
      var x :| x in s;
      var m := Above(s - {x});
      n := m + x + 1;
      forall y | y in s ensures y < n {
        if y != x { assert y in s - {x}; }
      }
    }
  }

  function AllOf(v: Values): Changes {
    map[Heartbeat := v.heartbeat, EventRetention := v.eventRetention,
        OperationRetention := v.operationRetention, MaxDeadline := v.maxDeadline]
  }

  lemma AllOfGives(base: Values, v: Values)
    requires InBounds(v)
    ensures WithChanges(base, AllOf(v)) == Some(v)
  {
    assert Heartbeat in AllOf(v);
  }

  function Plain(op: OpId, expected: nat): Request {
    Request(Configure, op, op, op, Some(expected), 0, 10, 10, true)
  }

  /** The call that has read everything is admitted and begins. */
  lemma Admits(o: Domain, d: Domain, k: nat) returns (e: Domain)
    requires Leads(o, d) && Free(d) && Live(d) && k in d.calls && d.calls[k].expected == Generation(d)
    ensures Leads(o, e) && Live(e) && e.holding.Some? && e.holding.value.call == d.calls[k]
    ensures e.holding.value.stage == Recorded
    ensures e.calls == d.calls - {k} && e.journal.configs == d.journal.configs && Generation(e) == Generation(d) + 1
    ensures Current(e.machine).journalAvailable
  {
    var op := Above(d.journal.ops.Keys + d.journal.keys.Keys);
    var q := Plain(op, Generation(d));
    AdmitFacts(d, q, true, true);
    var l := AppliesConfiguration(k, q, true, true);
    BeginFacts(d, q, d.calls[k], true, true);
    e := Step(d, l).value;
    LeadsOn(o, d, l, e);
  }

  /** Somebody else's `configure`, start to end: four generations and one version. */
  lemma SomebodyConfigures(o: Domain, d: Domain, v: Values) returns (e: Domain)
    requires Leads(o, d) && Free(d) && Live(d) && InBounds(v)
    ensures Leads(o, e) && Free(e) && Live(e) && e.calls == d.calls && Generation(e) == Generation(d) + 4
    ensures e.journal.configs == d.journal.configs + [(Generation(d) + 3, v)]
  {
    var k := Above(d.calls.Keys);
    AllOfGives(Applied(d.journal), v);
    var l := ReadsConfiguration(k, Generation(d), AllOf(v));
    var r := Step(d, l).value;
    LeadsOn(o, d, l, r);
    var a := Admits(o, r, k);
    assert a.calls == d.calls;
    e := RunsOut(o, a);
  }

  /** Other publications bring the generation wherever somebody wants it. */
  lemma {:induction false} Reaches(o: Domain, d: Domain, target: nat) returns (e: Domain)
    requires Leads(o, d) && Free(d) && Generation(d) <= target
    ensures Leads(o, e) && Free(e) && Generation(e) == target && e.calls == d.calls
    ensures e.journal.configs == d.journal.configs
    decreases target - Generation(d)
  {
    e := d;
    if Generation(d) < target {
      var l := SeesProfile(Current(d.machine).profile + 1);
      var m := Step(d, l).value;
      LeadsOn(o, d, l, m);
      e := Reaches(o, m, target);
    }
  }

  /** A guess that came true: the call is admitted although it has missed a version. */
  lemma GuessComesTrue(o: Domain, d: Domain, k: nat) returns (e: Domain)
    requires Leads(o, d) && Free(d) && k in d.calls && Generation(d) <= d.calls[k].expected
    requires d.calls[k].seen < |d.journal.configs|
    ensures Leads(o, e) && Overwrites(e, d.calls[k]) && e.journal.configs == d.journal.configs
  {
    var m := Reaches(o, d, d.calls[k].expected);
    var a := Admits(o, m, k);
    ContinueFacts(a, 0, true);
    e := ContinueConfigure(a, 0, true);
    LeadsOn(o, a, ContinuesConfiguration(0, true), e);
  }

  /** From the reader's state on, a version it has not seen can take hold within the slack. */
  lemma SlackSuffices(d: Domain, e: Domain, v: Values) returns (f: Domain)
    requires Live(d) && Current(d.machine).journalAvailable && InBounds(v)
    requires e == d.(calls := e.calls)
    ensures Leads(e, f) && Free(f) && f.calls == e.calls && Generation(f) == Generation(d) + Slack(d)
    ensures |f.journal.configs| > |d.journal.configs|
    ensures d.holding.None? ==> f.journal.configs == d.journal.configs + [(Generation(d) + 3, v)]
  {
    LeadsHere(e);
    var m := RunsOut(e, e);
    f := m;
    if |m.journal.configs| == |d.journal.configs| { f := SomebodyConfigures(e, m, v); }
  }

  /**
   From every live state with the journal available: some run makes a call that reads now
   overwrite a version it has not seen if and only if the generation it expects is at least the
   slack ahead: four when the lock is free, and less while another `configure` holds it with its
   values not yet stored.
   */
  lemma OverwritesExactlyWhen(d: Domain, k: nat, expected: nat, changes: Changes, e: Domain)
    requires Live(d) && Current(d.machine).journalAvailable
    requires Step(d, ReadsConfiguration(k, expected, changes)) == Some(e)
    ensures CanOverwrite(e, e.calls[k]) <==> expected >= Generation(d) + Slack(d)
  {
    var c := e.calls[k];
    if expected >= Generation(d) + Slack(d) {
      var f := SlackSuffices(d, e, DEFAULTS);
      var g := GuessComesTrue(e, f, k);
    } else {
      LiveStep(d, ReadsConfiguration(k, expected, changes), e);
      ReadIsSafe(d, k, expected, changes, e);
      forall f | Leads(e, f) ensures !Overwrites(f, c) {
        var labels :| Exec(e, labels) == Some(f);
        SafeRun(e, labels, f, c);
      }
    }
  }

  // ---------- which version is in force ----------

  /** No stored version is ahead of this life, except the one being announced right now. */
  predicate Ordered(d: Domain) {
    forall i :: 0 <= i < |d.journal.configs| ==>
      d.journal.configs[i].0 <= Generation(d) + if d.holding.Some? && d.holding.value.stage == Stored then 1 else 0
  }

  lemma OrderedStep(d: Domain, l: Label, e: Domain)
    requires Live(d) && Ordered(d) && Step(d, l) == Some(e)
    ensures Ordered(e)
  {
    match l
    case AppliesConfiguration(call, q, c0, c1) => BeginFacts(d, q, d.calls[call], c0, c1);
    case ContinuesConfiguration(at, commits) => ContinueFacts(d, at, commits);
    case _ => OtherLeaves(d, l, e);
  }

  lemma {:induction false} OrderedRun(d: Domain, labels: seq<Label>, e: Domain)
    requires Live(d) && Ordered(d) && Exec(d, labels) == Some(e)
    ensures Live(e) && Ordered(e)
    decreases |labels|
  {
    if labels != [] {
      var m := Step(d, labels[0]).value;
      LiveStep(d, labels[0], m);
      OrderedStep(d, labels[0], m);
      OrderedRun(m, labels[1..], e);
    }
  }

  lemma NewestApplies(configs: seq<(nat, Values)>, j: Store<Values>, version: nat, values: Values)
    requires j.configs == configs + [(version, values)] && forall i :: 0 <= i < |configs| ==> configs[i].0 <= version
    ensures Applied(j) == values
  {
    ReadBack(configs, version, values);
  }

  /**
   In any life, with any journal: values that are stored become the ones in force exactly when
   no stored version, of this or an earlier life, has a higher generation.
   */
  lemma VisibleExactlyWhenNewest(d: Domain, at: Time, commits: bool, e: Domain)
    requires Live(d) && Step(d, ContinuesConfiguration(at, commits)) == Some(e)
    requires e.journal.configs != d.journal.configs
    ensures var (version, values) := (Generation(d) + 1, d.holding.value.call.candidate);
            && e.journal.configs == d.journal.configs + [(version, values)]
            && (Newest(e.journal.configs) == Some((version, values)) <==>
                  (forall i :: 0 <= i < |d.journal.configs| ==> d.journal.configs[i].0 <= version)
                  || Newest(d.journal.configs) == Some((version, values)))
  {
    ContinueFacts(d, at, commits);
    ReadBack(d.journal.configs, Generation(d) + 1, d.holding.value.call.candidate);
  }

  /** In a life that starts with no version of a later generation, stored values take effect at once. */
  lemma UpdateTakesEffect(j: Store<Values>, labels: seq<Label>, d: Domain, at: Time, commits: bool, e: Domain)
    requires forall i :: 0 <= i < |j.configs| ==> j.configs[i].0 <= 1
    requires Exec(Boot(j), labels) == Some(d)
    requires Step(d, ContinuesConfiguration(at, commits)) == Some(e) && e.journal.configs != d.journal.configs
    ensures Applied(e.journal) == d.holding.value.call.candidate
  {
    OrderedRun(Boot(j), labels, d);
    ContinueFacts(d, at, commits);
    NewestApplies(d.journal.configs, e.journal, Generation(d) + 1, d.holding.value.call.candidate);
  }

  /**
   In such a life a caller that guesses four or more generations ahead of a free lock can
   overwrite values that differ from the ones it read.
   */
  lemma GuessedGenerationLosesAnUpdate(d: Domain, k: nat, expected: nat, changes: Changes, e: Domain)
    returns (f: Domain)
    requires Free(d) && Ordered(d) && Step(d, ReadsConfiguration(k, expected, changes)) == Some(e)
    requires expected >= Generation(d) + 4
    ensures Leads(e, f) && Overwrites(f, e.calls[k]) && Applied(f.journal) != e.calls[k].base
  {
    var c := e.calls[k];
    var v := DEFAULTS.(heartbeat := if c.base.heartbeat == 20_000 then 30_000 else 20_000);
    var m := SlackSuffices(d, e, v);
    NewestApplies(d.journal.configs, m.journal, Generation(d) + 3, v);
    f := GuessComesTrue(e, m, k);
    NewestApplies(d.journal.configs, f.journal, Generation(d) + 3, v);
  }
}
