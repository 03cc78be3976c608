/** The transaction layer: retries, and the lock prefix that keeps transactions from deadlocking. */
module Locks {
  import opened Base

  // ---------------------------------------------------------------------------
  // Retries
  // ---------------------------------------------------------------------------

  /** How the database fails a statement or a commit. */
  datatype Failure = SerializationFailure | DeadlockDetected | Other(error: Error)

  predicate Retryable(f: Failure) {
    f.SerializationFailure? || f.DeadlockDetected?
  }

  datatype Body<+T> = Done(value: T) | Failed(failure: Failure)

  /** What happens around one attempt: what others commit before it, and whether beginning or committing
      fails. */
  datatype Attempt<!T> = Attempt(rivals: T -> T, begin: Option<Failure>, commit: Option<Failure>)

  datatype Outcome = Committed(attempt: nat) | Refused(attempt: nat, failure: Failure) | Exhausted

  /** The contents an attempt starts from when no earlier attempt left a trace. */
  ghost function Before<T>(v: T, attempts: seq<Attempt<T>>, k: nat): T
    requires k < |attempts|
  {
    attempts[k].rivals(if k == 0 then v else Before(v, attempts, k - 1))
  }

  /** Why an attempt cannot commit. Failing to begin is final, whatever the failure. */
  function Trouble<T>(v: T, action: T -> Body<T>, a: Attempt<T>): Option<Failure> {
    if a.begin.Some? then a.begin
    else if action(v).Failed? then Some(action(v).failure)
    else a.commit
  }

  predicate Retried<T>(v: T, action: T -> Body<T>, a: Attempt<T>) {
    a.begin.None? && Trouble(v, action, a).Some? && Retryable(Trouble(v, action, a).value)
  }

  class Store<T> {
    var value: T

    constructor (v: T)
      ensures value == v
    {
      value := v;
    }

    /** Runs the body up to three times. A success is one run of the body on what others had committed,
        a failure leaves only what others committed, and a conflict is reported after exactly three
        conflicts. */
    method InTx(action: T -> Body<T>, attempts: seq<Attempt<T>>) returns (r: Outcome)
      requires |attempts| == 3
      modifies this
      ensures match r
              case Committed(k) =>
                && k < 3 && action(Before(old(value), attempts, k)) == Done(value)
                && Trouble(Before(old(value), attempts, k), action, attempts[k]).None?
                && forall j: nat :: j < k ==> Retried(Before(old(value), attempts, j), action, attempts[j])
              case Refused(k, failure) =>
                && k < 3 && value == Before(old(value), attempts, k)
                && Trouble(value, action, attempts[k]) == Some(failure) && !Retried(value, action, attempts[k])
                && forall j: nat :: j < k ==> Retried(Before(old(value), attempts, j), action, attempts[j])
              case Exhausted =>
                && value == Before(old(value), attempts, 2)
                && forall j: nat :: j < 3 ==> Retried(Before(old(value), attempts, j), action, attempts[j])
    {
      ghost var start := value;
      for k := 0 to 3
        invariant value == if k == 0 then start else Before(start, attempts, k - 1)
        invariant forall j: nat :: j < k ==> Retried(Before(start, attempts, j), action, attempts[j])
      {
        value := attempts[k].rivals(value);
        assert value == Before(start, attempts, k);
        if attempts[k].begin.Some? { return Refused(k, attempts[k].begin.value); }
        var saved := value;
        var failure: Option<Failure> := None;
        match action(value) {
          case Done(v) =>
            value := v;
            failure := attempts[k].commit;
          case Failed(f) =>
            failure := Some(f);
        }
        if failure.None? { return Committed(k); }
        value := saved;
        if !Retryable(failure.value) { return Refused(k, failure.value); }
      }
      return Exhausted;
    }
  }

  // ---------------------------------------------------------------------------
  // The ids to lock
  // ---------------------------------------------------------------------------

  predicate Sorted(s: seq<int>) {
    forall i, j :: 0 <= i < j < |s| ==> s[i] <= s[j]
  }

  predicate Ascending(s: seq<int>) {
    forall i, j :: 0 <= i < j < |s| ==> s[i] < s[j]
  }

  /** Puts the ids in order. */
  method Sort(ids: array<int>)
    modifies ids
    ensures Sorted(ids[..]) && multiset(ids[..]) == multiset(old(ids[..]))
  {
    for i := 0 to ids.Length
      invariant Sorted(ids[..i]) && multiset(ids[..]) == multiset(old(ids[..]))
    {
      var j := i;
      while j > 0 && ids[j - 1] > ids[j]
        invariant 0 <= j <= i
        invariant forall a, b :: 0 <= a < b <= i && b != j ==> ids[a] <= ids[b]
        invariant multiset(ids[..]) == multiset(old(ids[..]))
      {
        ids[j - 1], ids[j] := ids[j], ids[j - 1];
        j := j - 1;
      }
    }
    assert ids[..ids.Length] == ids[..];
  }

  /** What the compaction keeps: positive ids that differ from the last one kept. */
  function Distinct(s: seq<int>): seq<int> {
    if s == [] then []
    else
      var kept, id := Distinct(s[..|s| - 1]), s[|s| - 1];
      if id <= 0 || (kept != [] && kept[|kept| - 1] == id) then kept else kept + [id]
  }

  lemma {:induction false} DistinctIs(s: seq<int>)
    requires Sorted(s)
    ensures Ascending(Distinct(s)) && forall id :: id in Distinct(s) <==> id in s && id > 0
    ensures Distinct(s) != [] ==> Distinct(s)[|Distinct(s)| - 1] <= s[|s| - 1]
  {
    if s != [] {
      var n := |s| - 1;
      DistinctIs(s[..n]);
      assert s == s[..n] + [s[n]];
      var kept := Distinct(s[..n]);
      assert forall id :: id in kept ==> id in s[..n] && id <= s[n];
    }
  }

  /** Moves the distinct positive ids of a sorted array to its front, over the ids it has read already. */
  method Compact(ids: array<int>) returns (n: nat)
    modifies ids
    ensures n <= ids.Length && ids[..n] == Distinct(old(ids[..]))
  {
    ghost var all := ids[..];
    n := 0;
    for i := 0 to ids.Length
      invariant n <= i && ids[i..] == all[i..]
      invariant ids[..n] == Distinct(all[..i])
    {
      var id := ids[i];
      assert ids[i..][0] == all[i..][0] && all[..i + 1][..i] == all[..i];
      assert ids[i + 1..] == ids[i..][1..] && all[i + 1..] == all[i..][1..];
      if id <= 0 || (n > 0 && ids[n - 1] == id) { continue; }
      ids[n] := id;
      n := n + 1;
      assert ids[..n] == Distinct(all[..i]) + [id];
    }
    assert all[..ids.Length] == all;
  }

  /** The ids a transaction locks, in the order it locks them: the distinct positive ones, ascending. */
  method LockOrder(merchantIds: seq<int>) returns (unique: seq<int>)
    ensures Ascending(unique)
    ensures forall id :: id in unique <==> id in merchantIds && id > 0
  {
    var ids := new int[|merchantIds|](i requires 0 <= i < |merchantIds| => merchantIds[i]);
    assert ids[..] == merchantIds;
    Sort(ids);
    assert forall id :: id in ids[..] <==> id in multiset(ids[..]);
    assert forall id :: id in merchantIds <==> id in multiset(merchantIds);
    DistinctIs(ids[..]);
    var n := Compact(ids);
    unique := ids[..n];
  }

  /** Only one sequence is ascending and holds these ids, so every transaction locks a set of merchants in
      the same order. */
  lemma {:induction false} LockOrderIsUnique(a: seq<int>, b: seq<int>)
    requires Ascending(a) && Ascending(b) && forall id :: id in a <==> id in b
    ensures a == b
  {
    assert a != [] ==> a[0] in a;
    assert b != [] ==> b[0] in b;
    if a != [] && b != [] {
      var m, n := |a| - 1, |b| - 1;
      assert a[m] in b && b[n] in a;
      assert a[m] == b[n];
      forall id ensures id in a[..m] <==> id in b[..n] {
        assert id in a[..m] <==> id in a && id != a[m];
        assert id in b[..n] <==> id in b && id != b[n];
      }
      LockOrderIsUnique(a[..m], b[..n]);
      assert a == a[..m] + [a[m]] && b == b[..n] + [b[n]];
    }
  }

  // ---------------------------------------------------------------------------
  // Waiting for locks
  // ---------------------------------------------------------------------------

  /** Nothing yet; the settings row and the first `n` merchant rows; everything released. */
  datatype Stage = Starting | Holding(n: nat) | Finished

  datatype Tx = Tx(exclusive: bool, ids: seq<int>, stage: Stage)

  predicate HoldsSettings(t: Tx) {
    t.stage.Holding?
  }

  predicate HoldsRow(t: Tx, id: int) {
    t.stage.Holding? && t.stage.n <= |t.ids| && id in t.ids[..t.stage.n]
  }

  /** Whether transaction `k` gets what it asks for next. A lock is granted when no other transaction
      holds the row in a conflicting mode. */
  predicate CanStep(txs: seq<Tx>, k: nat) {
    && k < |txs|
    && match txs[k].stage
       case Starting =>
         forall j :: 0 <= j < |txs| && j != k && HoldsSettings(txs[j]) ==> !txs[k].exclusive && !txs[j].exclusive
       case Holding(n) =>
         n < |txs[k].ids| ==> forall j :: 0 <= j < |txs| && j != k ==> !HoldsRow(txs[j], txs[k].ids[n])
       case Finished => false
  }

  function Advance(t: Tx): Tx {
    match t.stage
    case Starting => t.(stage := Holding(0))
    case Holding(n) => t.(stage := if n < |t.ids| then Holding(n + 1) else Finished)
    case Finished => t
  }

  function Step(txs: seq<Tx>, k: nat): seq<Tx>
    requires CanStep(txs, k)
  {
    txs[k := Advance(txs[k])]
  }

  /** A schedule: which transaction moves next, one grant or release at a time. */
  ghost predicate Leads(txs: seq<Tx>, schedule: seq<nat>, txs': seq<Tx>)
    decreases schedule
  {
    if schedule == [] then txs' == txs
    else CanStep(txs, schedule[0]) && Leads(Step(txs, schedule[0]), schedule[1..], txs')
  }

  predicate Fresh(txs: seq<Tx>) {
    forall k :: 0 <= k < |txs| ==> txs[k].stage.Starting? && Ascending(txs[k].ids)
  }

  predicate InOrder(txs: seq<Tx>) {
    forall k :: 0 <= k < |txs| ==> Ascending(txs[k].ids) && (txs[k].stage.Holding? ==> txs[k].stage.n <= |txs[k].ids|)
  }

  /** Conflicting locks are never held together. */
  ghost predicate Exclusive(txs: seq<Tx>) {
    && (forall j, k :: 0 <= j < k < |txs| && HoldsSettings(txs[j]) && HoldsSettings(txs[k]) ==>
          !txs[j].exclusive && !txs[k].exclusive)
    && (forall j, k, id :: 0 <= j < |txs| && 0 <= k < |txs| && j != k && HoldsRow(txs[j], id) ==> !HoldsRow(txs[k], id))
  }

  lemma StepKeeps(txs: seq<Tx>, k: nat)
    requires InOrder(txs) && Exclusive(txs) && CanStep(txs, k)
    ensures InOrder(Step(txs, k)) && Exclusive(Step(txs, k))
  {
    var txs' := Step(txs, k);
    if txs[k].stage.Holding? && txs[k].stage.n < |txs[k].ids| {
      var n := txs[k].stage.n;
      assert txs[k].ids[..n + 1] == txs[k].ids[..n] + [txs[k].ids[n]];
    }
    forall i, j, id | 0 <= i < |txs'| && 0 <= j < |txs'| && i != j && HoldsRow(txs'[i], id)
      ensures !HoldsRow(txs'[j], id)
    {
      assert i != k ==> txs'[i] == txs[i];
      assert j != k ==> txs'[j] == txs[j];
    }
  }

  /** A transaction that waits for a row waits for one that is further on in the order of ids. */
  lemma HolderIsAhead(txs: seq<Tx>, k: nat) returns (j: nat)
    requires InOrder(txs) && k < |txs| && txs[k].stage.Holding? && !CanStep(txs, k)
    ensures j < |txs| && txs[j].stage.Holding? && txs[k].stage.n < |txs[k].ids|
    ensures txs[j].stage.n < |txs[j].ids| ==> txs[j].ids[txs[j].stage.n] > txs[k].ids[txs[k].stage.n]
  {
    var id := txs[k].ids[txs[k].stage.n];
    j :| 0 <= j < |txs| && j != k && HoldsRow(txs[j], id);
    var i :| 0 <= i < txs[j].stage.n && txs[j].ids[..txs[j].stage.n][i] == id;
  }

  /** From a transaction that holds the settings row, following the waits leads to one that can move. */
  lemma {:induction false} SomeHolderMoves(txs: seq<Tx>, k: nat, bound: int) returns (j: nat)
    requires InOrder(txs) && k < |txs| && txs[k].stage.Holding?
    requires forall i, id :: 0 <= i < |txs| && id in txs[i].ids ==> id < bound
    ensures CanStep(txs, j)
    decreases if txs[k].stage.n < |txs[k].ids| then bound - txs[k].ids[txs[k].stage.n] else 0
  {
    if CanStep(txs, k) {
      j := k;
    } else {
      var next := HolderIsAhead(txs, k);
      assert txs[k].ids[txs[k].stage.n] in txs[k].ids;
      if txs[next].stage.n < |txs[next].ids| {
        assert txs[next].ids[txs[next].stage.n] in txs[next].ids;
      }
      j := SomeHolderMoves(txs, next, bound);
    }
  }

  lemma {:induction false} IdBound(ids: seq<int>) returns (bound: int)
    ensures forall id :: id in ids ==> id < bound
  {
    if ids == [] {
      bound := 0;
    } else {
      var b := IdBound(ids[1..]);
      bound := if ids[0] < b then b else ids[0] + 1;
      assert forall id :: id in ids ==> id == ids[0] || id in ids[1..];
    }
  }

  lemma {:induction false} Bound(txs: seq<Tx>) returns (bound: int)
    ensures forall i, id :: 0 <= i < |txs| && id in txs[i].ids ==> id < bound
  {
    bound := 0;
    if txs != [] {
      var rest := Bound(txs[1..]);
      var first := IdBound(txs[0].ids);
      bound := if first < rest then rest else first;
      forall i, id | 0 <= i < |txs| && id in txs[i].ids ensures id < bound {
        assert i > 0 ==> txs[i] == txs[1..][i - 1];
      }
    }
  }

  lemma {:induction false} LeadsKeeps(txs: seq<Tx>, schedule: seq<nat>, txs': seq<Tx>)
    requires InOrder(txs) && Exclusive(txs) && Leads(txs, schedule, txs')
    ensures InOrder(txs') && Exclusive(txs') && |txs'| == |txs|
    decreases schedule
  {
    if schedule != [] {
      StepKeeps(txs, schedule[0]);
      LeadsKeeps(Step(txs, schedule[0]), schedule[1..], txs');
    }
  }

  /** No deadlock: however many transactions take the lock prefix and however their requests interleave,
      as long as one of them is unfinished, one of them can move. */
  lemma NoDeadlock(txs: seq<Tx>, schedule: seq<nat>, txs': seq<Tx>, k: nat) returns (j: nat)
    requires Fresh(txs) && Leads(txs, schedule, txs') && k < |txs'| && !txs'[k].stage.Finished?
    ensures CanStep(txs', j) && Exclusive(txs')
  {
    LeadsKeeps(txs, schedule, txs');
    if i :| 0 <= i < |txs'| && HoldsSettings(txs'[i]) {
      var bound := Bound(txs');
      j := SomeHolderMoves(txs', i, bound);
    } else {
      j := k;
    }
  }

  // ---------------------------------------------------------------------------
  // Every schedule ends
  // ---------------------------------------------------------------------------

  /** The grants and the release a transaction still has ahead of it. */
  function Ahead(t: Tx): nat {
    match t.stage
    case Starting => |t.ids| + 2
    case Holding(n) => if n < |t.ids| then |t.ids| - n + 1 else 1
    case Finished => 0
  }

  ghost function AheadOf(): Tx -> int {
    (t: Tx) => Ahead(t)
  }

  /** No schedule is longer than the grants and releases there are, so one that cannot go on has finished
      every transaction. */
  lemma {:induction false} SchedulesEnd(txs: seq<Tx>, schedule: seq<nat>, txs': seq<Tx>)
    requires Leads(txs, schedule, txs')
    ensures |schedule| + Sum(txs', AheadOf()) == Sum(txs, AheadOf())
    decreases schedule
  {
    if schedule != [] {
      var k := schedule[0];
      SumUpdate(txs, k, Advance(txs[k]), AheadOf());
      SchedulesEnd(Step(txs, k), schedule[1..], txs');
    }
  }

  lemma StuckIsFinished(txs: seq<Tx>, schedule: seq<nat>, txs': seq<Tx>)
    requires Fresh(txs) && Leads(txs, schedule, txs')
    ensures |schedule| <= Sum(txs, AheadOf())
    ensures (forall j: nat :: !CanStep(txs', j)) ==> forall k :: 0 <= k < |txs'| ==> txs'[k].stage.Finished?
  {
    SchedulesEnd(txs, schedule, txs');
    SumNonNegative(txs', AheadOf());
    if forall j: nat :: !CanStep(txs', j) {
      forall k | 0 <= k < |txs'| ensures txs'[k].stage.Finished? {
        if !txs'[k].stage.Finished? {
          var j := NoDeadlock(txs, schedule, txs', k);
        }
      }
    }
  }

  /** A transaction that cannot move waits for a conflicting lock that another one holds: for the settings row, unless
      both only share it, or for the very row it asks for. */
  lemma WaitsForConflict(txs: seq<Tx>, k: nat) returns (j: nat)
    requires k < |txs| && !txs[k].stage.Finished? && !CanStep(txs, k)
    ensures j < |txs| && j != k && txs[j].stage.Holding?
    ensures match txs[k].stage
            case Starting => txs[k].exclusive || txs[j].exclusive
            case Holding(n) => n < |txs[k].ids| && txs[j].stage.n <= |txs[j].ids| && txs[k].ids[n] in txs[j].ids[..txs[j].stage.n]
            case Finished => false
  {
    match txs[k].stage {
      case Starting =>
        j :| 0 <= j < |txs| && j != k && HoldsSettings(txs[j]) && (txs[k].exclusive || txs[j].exclusive);
      case Holding(n) =>
        j :| 0 <= j < |txs| && j != k && HoldsRow(txs[j], txs[k].ids[n]);
    }
  }

  /** Without the ascending order two transactions can wait for each other for good. */
  lemma UnorderedDeadlocks()
    ensures var a := Tx(false, [1, 2], Starting);
            var b := Tx(false, [2, 1], Starting);
            var stuck := [a.(stage := Holding(1)), b.(stage := Holding(1))];
            && Leads([a, b], [0, 1, 0, 1], stuck)
            && forall j: nat :: !CanStep(stuck, j)
  {
    var a := Tx(false, [1, 2], Starting);
    var b := Tx(false, [2, 1], Starting);
    var s1 := Step([a, b], 0);
    var s2 := Step(s1, 1);
    var s3 := Step(s2, 0);
    var s4 := Step(s3, 1);
    assert Leads(s4, [], s4) && Leads(s3, [1], s4) && Leads(s2, [0, 1], s4) && Leads(s1, [1, 0, 1], s4);
    assert [0, 1, 0, 1][1..] == [1, 0, 1] && [1, 0, 1][1..] == [0, 1] && [0, 1][1..] == [1] && [1][1..] == [];
    var stuck := [a.(stage := Holding(1)), b.(stage := Holding(1))];
    assert s4 == stuck;
    assert a.ids[..1] == [1] && b.ids[..1] == [2];
    assert HoldsRow(stuck[0], 1) && HoldsRow(stuck[1], 2);
  }
}
