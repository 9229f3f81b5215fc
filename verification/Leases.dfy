/**
 The single-writer lease: one holder and one deadline per key.

 The dictionary form is the specification.  The relational form runs "insert or
 ignore" and then "update where expired" over a table with a primary key, and is
 proved to give the same answers on every sequence of calls.
 */
module Leases {
  import opened Wrappers

  datatype Lease<H> = Lease(holder: H, until: real)

  type Table<H> = map<string, Lease<H>>

  // ----- the dictionary form -----

  predicate Held<H>(t: Table<H>, key: string, now: real) {
    key in t && t[key].until > now
  }

  function Acquire<H>(t: Table<H>, key: string, holder: H, until: real, now: real): (Table<H>, bool) {
    if Held(t, key, now) then (t, false) else (t[key := Lease(holder, until)], true)
  }

  function Release<H(==)>(t: Table<H>, key: string, holder: H): Table<H> {
    if key in t && t[key].holder == holder then t - {key} else t
  }

  datatype Op<H> =
    | AcquireOp(key: string, holder: H, until: real, now: real)
    | ReleaseOp(key: string, holder: H)
    | HeldOp(key: string, now: real)

  datatype Answer = Said(yes: bool) | Silent

  function Step<H(==)>(t: Table<H>, op: Op<H>): (Table<H>, Answer) {
    match op
    case AcquireOp(key, holder, until, now) =>
      var (t', granted) := Acquire(t, key, holder, until, now);
      (t', Said(granted))
    case ReleaseOp(key, holder) => (Release(t, key, holder), Silent)
    case HeldOp(key, now) => (t, Said(Held(t, key, now)))
  }

  function Run<H(==)>(t: Table<H>, ops: seq<Op<H>>): (Table<H>, seq<Answer>)
    decreases |ops|
  {
    if ops == [] then (t, [])
    else
      var (t1, a) := Step(t, ops[0]);
      var (t2, rest) := Run(t1, ops[1..]);
      (t2, [a] + rest)
  }

  // ----- the relational form -----

  datatype Row<H> = Row(key: string, holder: H, until: real)

  ghost predicate PrimaryKey<H>(rows: seq<Row<H>>) {
    forall i, j :: 0 <= i < j < |rows| ==> rows[i].key != rows[j].key
  }

  /** The first row stored under a key. */
  function Find<H>(rows: seq<Row<H>>, key: string): Option<Row<H>> {
    if rows == [] then None
    else if rows[0].key == key then Some(rows[0])
    else Find(rows[1..], key)
  }

  function Keys<H>(rows: seq<Row<H>>): set<string> {
    set i | 0 <= i < |rows| :: rows[i].key
  }

  /** The dictionary a table stands for. */
  function Abstract<H>(rows: seq<Row<H>>): Table<H> {
    map k | k in Keys(rows) && Find(rows, k).Some? :: Lease(Find(rows, k).value.holder, Find(rows, k).value.until)
  }

  function InsertOrIgnore<H>(rows: seq<Row<H>>, row: Row<H>): (seq<Row<H>>, nat) {
    if Find(rows, row.key).Some? then (rows, 0) else (rows + [row], 1)
  }

  /** UPDATE ... WHERE key = row.key AND until <= now, with its row count. */
  function UpdateExpired<H>(rows: seq<Row<H>>, row: Row<H>, now: real): (seq<Row<H>>, nat) {
    if rows == [] then ([], 0)
    else
      var (rest, n) := UpdateExpired(rows[1..], row, now);
      if rows[0].key == row.key && rows[0].until <= now
      then ([row] + rest, n + 1)
      else ([rows[0]] + rest, n)
  }

  /** DELETE ... WHERE key = key AND holder = holder. */
  function DeleteHeldBy<H(==)>(rows: seq<Row<H>>, key: string, holder: H): seq<Row<H>> {
    if rows == [] then []
    else if rows[0].key == key && rows[0].holder == holder then DeleteHeldBy(rows[1..], key, holder)
    else [rows[0]] + DeleteHeldBy(rows[1..], key, holder)
  }

  function SqlAcquire<H>(rows: seq<Row<H>>, key: string, holder: H, until: real, now: real): (seq<Row<H>>, bool) {
    var (rows1, inserted) := InsertOrIgnore(rows, Row(key, holder, until));
    if inserted == 1 then (rows1, true)
    else
      var (rows2, updated) := UpdateExpired(rows1, Row(key, holder, until), now);
      (rows2, updated == 1)
  }

  predicate SqlHeld<H>(rows: seq<Row<H>>, key: string, now: real) {
    var row := Find(rows, key);
    row.Some? && row.value.until > now
  }

  function SqlStep<H(==)>(rows: seq<Row<H>>, op: Op<H>): (seq<Row<H>>, Answer) {
    match op
    case AcquireOp(key, holder, until, now) =>
      var (rows', granted) := SqlAcquire(rows, key, holder, until, now);
      (rows', Said(granted))
    case ReleaseOp(key, holder) => (DeleteHeldBy(rows, key, holder), Silent)
    case HeldOp(key, now) => (rows, Said(SqlHeld(rows, key, now)))
  }

  function SqlRun<H(==)>(rows: seq<Row<H>>, ops: seq<Op<H>>): (seq<Row<H>>, seq<Answer>)
    decreases |ops|
  {
    if ops == [] then (rows, [])
    else
      var (rows1, a) := SqlStep(rows, ops[0]);
      var (rows2, rest) := SqlRun(rows1, ops[1..]);
      (rows2, [a] + rest)
  }

  // ----- tables seen through Find -----

  lemma {:induction false} FindIff<H>(rows: seq<Row<H>>, key: string)
    ensures Find(rows, key).Some? <==> key in Keys(rows)
    ensures Find(rows, key).Some? ==> Find(rows, key).value in rows && Find(rows, key).value.key == key
  {
    if rows != [] {
      FindIff(rows[1..], key);
      assert rows == [rows[0]] + rows[1..];
      assert forall i :: 0 <= i < |rows[1..]| ==> rows[1..][i] == rows[i + 1];
      assert forall i :: 1 <= i < |rows| ==> rows[i] == rows[1..][i - 1];
    }
  }

  lemma AbstractAt<H>(rows: seq<Row<H>>, key: string)
    ensures key in Abstract(rows) <==> Find(rows, key).Some?
    ensures key in Abstract(rows) ==>
              Abstract(rows)[key] == Lease(Find(rows, key).value.holder, Find(rows, key).value.until)
  {
    FindIff(rows, key);
  }

  lemma {:induction false} FindAppend<H>(rows: seq<Row<H>>, row: Row<H>, key: string)
    requires Find(rows, row.key).None?
    ensures Find(rows + [row], key) == if key == row.key then Some(row) else Find(rows, key)
  {
    if rows != [] {
      assert (rows + [row])[1..] == rows[1..] + [row];
      FindAppend(rows[1..], row, key);
    }
  }

  lemma {:induction false} UpdateEffect<H>(rows: seq<Row<H>>, row: Row<H>, now: real, key: string)
    requires PrimaryKey(rows)
    ensures var (out, n) := UpdateExpired(rows, row, now);
            var hit := Find(rows, row.key).Some? && Find(rows, row.key).value.until <= now;
            && n == (if hit then 1 else 0)
            && PrimaryKey(out) && Keys(out) == Keys(rows)
            && Find(out, key) == if hit && key == row.key then Some(row) else Find(rows, key)
  {
    if rows != [] {
      var (rest, n) := UpdateExpired(rows[1..], row, now);
      UpdateEffect(rows[1..], row, now, key);
      FindIff(rows[1..], row.key);
      var (out, m) := UpdateExpired(rows, row, now);
      assert out[1..] == rest && out == [out[0]] + rest && out[0].key == rows[0].key;
      KeysCons(rows[0], rows[1..]);
      KeysCons(out[0], rest);
      assert rows == [rows[0]] + rows[1..];
      FreshHead(rows);
      PrimaryKeyCons(out[0], rest);
    }
  }

  lemma KeysCons<H>(row: Row<H>, rows: seq<Row<H>>)
    ensures Keys([row] + rows) == {row.key} + Keys(rows)
  {
    var all := [row] + rows;
    forall k ensures k in Keys(all) <==> k in {row.key} + Keys(rows) {
      if k in Keys(rows) {
        var i :| 0 <= i < |rows| && rows[i].key == k;
        assert all[i + 1].key == k;
      }
      assert all[0] == row;
    }
  }

  lemma FreshHead<H>(rows: seq<Row<H>>)
    requires PrimaryKey(rows) && rows != []
    ensures rows[0].key !in Keys(rows[1..])
  {
  }

  lemma PrimaryKeyCons<H>(row: Row<H>, rows: seq<Row<H>>)
    requires PrimaryKey(rows) && row.key !in Keys(rows)
    ensures PrimaryKey([row] + rows)
  {
  }

  lemma {:induction false} DeleteEffect<H>(rows: seq<Row<H>>, key: string, holder: H, k: string)
    requires PrimaryKey(rows)
    ensures var out := DeleteHeldBy(rows, key, holder);
            && PrimaryKey(out) && Keys(out) <= Keys(rows)
            && Find(out, k) == if k == key && Find(rows, k).Some? && Find(rows, k).value.holder == holder
                               then None else Find(rows, k)
  {
    if rows != [] {
      var rest := DeleteHeldBy(rows[1..], key, holder);
      DeleteEffect(rows[1..], key, holder, k);
      assert rows == [rows[0]] + rows[1..];
      KeysCons(rows[0], rows[1..]);
      FreshHead(rows);
      FindIff(rows[1..], k);
      FindIff(rest, k);
      if !(rows[0].key == key && rows[0].holder == holder) {
        KeysCons(rows[0], rest);
        PrimaryKeyCons(rows[0], rest);
        assert ([rows[0]] + rest)[1..] == rest;
      }
    }
  }

  // ----- equivalence -----

  lemma AcquireEquivalent<H>(rows: seq<Row<H>>, key: string, holder: H, until: real, now: real)
    requires PrimaryKey(rows)
    ensures var (out, granted) := SqlAcquire(rows, key, holder, until, now);
            PrimaryKey(out) && (Abstract(out), granted) == Acquire(Abstract(rows), key, holder, until, now)
  {
    hide Abstract, Keys;
    var row, out := Row(key, holder, until), SqlAcquire(rows, key, holder, until, now).0;
    var spec := Acquire(Abstract(rows), key, holder, until, now).0;
    AbstractAt(rows, key);
    FindIff(rows, key);
    UpdateEffect(rows, row, now, key);
    assert PrimaryKey(out) by { AppendKept(rows, row); }
    forall k ensures (k in Abstract(out) <==> k in spec) && (k in spec ==> Abstract(out)[k] == spec[k]) {
      AbstractAt(rows, k);
      AbstractAt(out, k);
      UpdateEffect(rows, row, now, k);
      if Find(rows, key).None? { FindAppend(rows, row, k); }
    }
    assert Abstract(out) == spec;
  }

  lemma AppendKept<H>(rows: seq<Row<H>>, row: Row<H>)
    requires PrimaryKey(rows)
    ensures Find(rows, row.key).None? ==> PrimaryKey(rows + [row])
  {
    FindIff(rows, row.key);
  }

  lemma ReleaseEquivalent<H>(rows: seq<Row<H>>, key: string, holder: H)
    requires PrimaryKey(rows)
    ensures var out := DeleteHeldBy(rows, key, holder);
            PrimaryKey(out) && Abstract(out) == Release(Abstract(rows), key, holder)
  {
    hide Abstract, Keys;
    var out, spec := DeleteHeldBy(rows, key, holder), Release(Abstract(rows), key, holder);
    AbstractAt(rows, key);
    DeleteEffect(rows, key, holder, key);
    forall k ensures (k in Abstract(out) <==> k in spec) && (k in spec ==> Abstract(out)[k] == spec[k]) {
      AbstractAt(rows, k);
      AbstractAt(out, k);
      DeleteEffect(rows, key, holder, k);
    }
    assert Abstract(out) == spec;
  }

  /** Every single call: same answer, same dictionary, primary key kept. */
  lemma StepEquivalent<H>(rows: seq<Row<H>>, op: Op<H>)
    requires PrimaryKey(rows)
    ensures SqlStep(rows, op).1 == Step(Abstract(rows), op).1
    ensures PrimaryKey(SqlStep(rows, op).0)
    ensures Abstract(SqlStep(rows, op).0) == Step(Abstract(rows), op).0
  {
    match op {
      case AcquireOp(key, holder, until, now) => AcquireEquivalent(rows, key, holder, until, now);
      case ReleaseOp(key, holder) => ReleaseEquivalent(rows, key, holder);
      case HeldOp(key, now) => AbstractAt(rows, key);
    }
  }

  /** Trace equivalence of the two forms, over every sequence of calls. */
  lemma {:induction false} TraceEquivalent<H>(rows: seq<Row<H>>, ops: seq<Op<H>>)
    requires PrimaryKey(rows)
    ensures SqlRun(rows, ops).1 == Run(Abstract(rows), ops).1
    ensures Abstract(SqlRun(rows, ops).0) == Run(Abstract(rows), ops).0
    ensures PrimaryKey(SqlRun(rows, ops).0)
    decreases |ops|
  {
    if ops != [] {
      StepEquivalent(rows, ops[0]);
      TraceEquivalent(SqlStep(rows, ops[0]).0, ops[1..]);
    }
  }

  lemma {:induction false} RunNext<H>(t: Table<H>, ops: seq<Op<H>>, op: Op<H>)
    ensures Run(t, ops + [op]) == (Step(Run(t, ops).0, op).0, Run(t, ops).1 + [Step(Run(t, ops).0, op).1])
    decreases |ops|
  {
    if ops == [] {
      assert ops + [op] == [op] && [op][1..] == [];
      var (t1, a) := Step(t, op);
      assert Run(t1, []) == (t1, []) && [a] + [] == [] + [a];
    } else {
      assert (ops + [op])[1..] == ops[1..] + [op];
      RunNext(Step(t, ops[0]).0, ops[1..], op);
      var (t1, a) := Step(t, ops[0]);
      var (t2, rest) := Run(t1, ops[1..]);
      assert [a] + (rest + [Step(t2, op).1]) == ([a] + rest) + [Step(t2, op).1];
    }
  }

  // ----- exclusion until the deadline -----

  /** No call in `ops` frees or outlives the lease (key, h, u). */
  ghost predicate WithinTerm<H>(ops: seq<Op<H>>, key: string, h: H, u: real) {
    forall i :: 0 <= i < |ops| ==>
      && (ops[i].AcquireOp? && ops[i].key == key ==> ops[i].now < u)
      && ops[i] != ReleaseOp(key, h)
  }

  lemma {:induction false} TermKept<H>(t: Table<H>, ops: seq<Op<H>>, key: string, h: H, u: real)
    requires key in t && t[key] == Lease(h, u) && WithinTerm(ops, key, h, u)
    ensures |Run(t, ops).1| == |ops|
    ensures forall i :: 0 <= i < |ops| && ops[i].AcquireOp? && ops[i].key == key ==> Run(t, ops).1[i] == Said(false)
    ensures key in Run(t, ops).0 && Run(t, ops).0[key] == Lease(h, u)
    decreases |ops|
  {
    if ops != [] {
      assert ops[0] != ReleaseOp(key, h);
      var t1 := Step(t, ops[0]).0;
      assert key in t1 && t1[key] == Lease(h, u);
      TermKept(t1, ops[1..], key, h, u);
    }
  }

  /**
   After a granted acquire with deadline `u`, every later acquire of the key at a time
   before `u` is refused until that holder releases, and the first acquire after the
   release is granted, in both forms.
   */
  lemma ExclusiveUntilDeadline<H>(rows: seq<Row<H>>, key: string, h: H, u: real, now: real,
                                  ops: seq<Op<H>>, next: Op<H>)
    requires PrimaryKey(rows)
    requires SqlStep(rows, AcquireOp(key, h, u, now)).1 == Said(true)
    requires WithinTerm(ops, key, h, u)
    requires next.AcquireOp? && next.key == key
    ensures var first := AcquireOp(key, h, u, now);
            var after := Run(Step(Abstract(rows), first).0, ops);
            && Step(Abstract(rows), first).1 == Said(true)
            && |after.1| == |ops|
            && SqlRun(SqlStep(rows, first).0, ops).1 == after.1
            && (forall i :: 0 <= i < |ops| && ops[i].AcquireOp? && ops[i].key == key ==> after.1[i] == Said(false))
            && Run(after.0, [ReleaseOp(key, h), next]).1 == [Silent, Said(true)]
            && SqlRun(SqlRun(SqlStep(rows, first).0, ops).0, [ReleaseOp(key, h), next]).1 == [Silent, Said(true)]
  {
    var first := AcquireOp(key, h, u, now);
    StepEquivalent(rows, first);
    var rows1 := SqlStep(rows, first).0;
    TraceEquivalent(rows1, ops);
    TermKept(Step(Abstract(rows), first).0, ops, key, h, u);
    var t := Run(Step(Abstract(rows), first).0, ops).0;
    var tail := [ReleaseOp(key, h), next];
    TraceEquivalent(SqlRun(rows1, ops).0, tail);
    assert tail[1..] == [next] && tail[1..][1..] == [];
    var t1 := Step(t, tail[0]).0;
    assert key !in t1;
    assert Run(t1, [next]).1 == [Step(t1, next).1] + Run(Step(t1, next).0, []).1;
  }

  // ----- the stores, in place -----

  /** Leases of the in-memory vault store. */
  class VaultMemoryLeases {
    var leases: Table<string>

    constructor ()
      ensures leases == map[]
    {
      leases := map[];
    }

    method AcquireLease(key: string, holder: string, until: real, now: real) returns (granted: bool)
      modifies this
      ensures (leases, granted) == Acquire(old(leases), key, holder, until, now)
    {
      if key in leases && leases[key].until > now {
        return false;
      }
      leases := leases[key := Lease(holder, until)];
      return true;
    }

    method ReleaseLease(key: string, holder: string)
      modifies this
      ensures leases == Release(old(leases), key, holder)
    {
      if key in leases && leases[key].holder == holder {
        leases := leases - {key};
      }
    }

    method LeaseHeld(key: string, now: real) returns (held: bool)
      ensures held == Held(leases, key, now)
    {
      held := key in leases && leases[key].until > now;
    }

    /** One call. */
    method Perform(op: Op<string>) returns (a: Answer)
      modifies this
      ensures (leases, a) == Step(old(leases), op)
    {
      match op
      case AcquireOp(key, holder, until, now) =>
        var granted := AcquireLease(key, holder, until, now);
        a := Said(granted);
      case ReleaseOp(key, holder) =>
        ReleaseLease(key, holder);
        a := Silent;
      case HeldOp(key, now) =>
        var held := LeaseHeld(key, now);
        a := Said(held);
    }

    /** A whole sequence of calls. */
    method RunAll(ops: seq<Op<string>>) returns (answers: seq<Answer>)
      modifies this
      ensures (leases, answers) == Run(old(leases), ops)
    {
      answers := [];
      for i := 0 to |ops|
        invariant (leases, answers) == Run(old(leases), ops[..i])
      {
        var a := Perform(ops[i]);
        RunNext(old(leases), ops[..i], ops[i]);
        assert ops[..i + 1] == ops[..i] + [ops[i]];
        answers := answers + [a];
      }
      assert ops[..|ops|] == ops;
    }
  }

  /** Leases of the in-memory ledger store: the same rule, tested the other way round. */
  class BusMemoryLeases {
    var leases: Table<string>

    constructor ()
      ensures leases == map[]
    {
      leases := map[];
    }

    method AcquireLease(key: string, holder: string, until: real, now: real) returns (granted: bool)
      modifies this
      ensures (leases, granted) == Acquire(old(leases), key, holder, until, now)
    {
      if key !in leases || leases[key].until <= now {
        leases := leases[key := Lease(holder, until)];
        return true;
      }
      return false;
    }

    method ReleaseLease(key: string, holder: string)
      modifies this
      ensures leases == Release(old(leases), key, holder)
    {
      if key in leases && leases[key].holder == holder {
        leases := leases - {key};
      }
    }

    method LeaseHeld(key: string, now: real) returns (held: bool)
      ensures held == Held(leases, key, now)
    {
      held := key in leases && leases[key].until > now;
    }

    /** One call. */
    method Perform(op: Op<string>) returns (a: Answer)
      modifies this
      ensures (leases, a) == Step(old(leases), op)
    {
      match op
      case AcquireOp(key, holder, until, now) =>
        var granted := AcquireLease(key, holder, until, now);
        a := Said(granted);
      case ReleaseOp(key, holder) =>
        ReleaseLease(key, holder);
        a := Silent;
      case HeldOp(key, now) =>
        var held := LeaseHeld(key, now);
        a := Said(held);
    }

    /** A whole sequence of calls. */
    method RunAll(ops: seq<Op<string>>) returns (answers: seq<Answer>)
      modifies this
      ensures (leases, answers) == Run(old(leases), ops)
    {
      answers := [];
      for i := 0 to |ops|
        invariant (leases, answers) == Run(old(leases), ops[..i])
      {
        var a := Perform(ops[i]);
        RunNext(old(leases), ops[..i], ops[i]);
        assert ops[..i + 1] == ops[..i] + [ops[i]];
        answers := answers + [a];
      }
      assert ops[..|ops|] == ops;
    }
  }

  /** Leases of the relational stores: one table, statements run in one transaction. */
  class SqlLeases {
    var rows: seq<Row<string>>

    ghost predicate Valid()
      reads this
    {
      PrimaryKey(rows)
    }

    constructor ()
      ensures Valid() && Abstract(rows) == map[]
    {
      rows := [];
    }

    method AcquireLease(key: string, holder: string, until: real, now: real) returns (granted: bool)
      requires Valid()
      modifies this
      ensures Valid()
      ensures (Abstract(rows), granted) == Acquire(Abstract(old(rows)), key, holder, until, now)
    {
      StepEquivalent(rows, AcquireOp(key, holder, until, now));
      var (inserted, n) := InsertOrIgnore(rows, Row(key, holder, until));
      rows := inserted;
      if n == 1 {
        return true;
      }
      var (updated, m) := UpdateExpired(rows, Row(key, holder, until), now);
      rows := updated;
      return m == 1;
    }

    method ReleaseLease(key: string, holder: string)
      requires Valid()
      modifies this
      ensures Valid()
      ensures Abstract(rows) == Release(Abstract(old(rows)), key, holder)
    {
      StepEquivalent(rows, ReleaseOp(key, holder));
      rows := DeleteHeldBy(rows, key, holder);
    }

    method LeaseHeld(key: string, now: real) returns (held: bool)
      requires Valid()
      ensures held == Held(Abstract(rows), key, now)
    {
      AbstractAt(rows, key);
      var row := Find(rows, key);
      held := row.Some? && row.value.until > now;
    }

    /** One call. */
    method Perform(op: Op<string>) returns (a: Answer)
      requires Valid()
      modifies this
      ensures Valid() && (Abstract(rows), a) == Step(Abstract(old(rows)), op)
    {
      match op
      case AcquireOp(key, holder, until, now) =>
        var granted := AcquireLease(key, holder, until, now);
        a := Said(granted);
      case ReleaseOp(key, holder) =>
        ReleaseLease(key, holder);
        a := Silent;
      case HeldOp(key, now) =>
        var held := LeaseHeld(key, now);
        a := Said(held);
    }

    /** A whole sequence of calls gives the dictionary's answers. */
    method RunAll(ops: seq<Op<string>>) returns (answers: seq<Answer>)
      requires Valid()
      modifies this
      ensures Valid() && (Abstract(rows), answers) == Run(Abstract(old(rows)), ops)
    {
      answers := [];
      for i := 0 to |ops|
        invariant Valid() && (Abstract(rows), answers) == Run(Abstract(old(rows)), ops[..i])
      {
        var a := Perform(ops[i]);
        RunNext(Abstract(old(rows)), ops[..i], ops[i]);
        assert ops[..i + 1] == ops[..i] + [ops[i]];
        answers := answers + [a];
      }
      assert ops[..|ops|] == ops;
    }
  }
}
