/** The scan a batch starts with: the wanted rows by ascending key, ties by ascending id, up to a limit. */
module Batches {

  /** A limit out of range stands for a hundred. */
  function BatchLimit(limit: int): nat {
    if limit < 1 || limit > 1000 then 100 else limit
  }

  predicate Before(key: nat -> int, i: nat, j: nat) {
    key(i) < key(j) || (key(i) == key(j) && i < j)
  }

  function Inserted(key: nat -> int, ids: seq<nat>, i: nat): seq<nat> {
    if ids == [] || key(ids[|ids| - 1]) <= key(i) then ids + [i]
    else Inserted(key, ids[..|ids| - 1], i) + [ids[|ids| - 1]]
  }

  function Sorted(key: nat -> int, wanted: nat -> bool, n: nat): seq<nat> {
    if n == 0 then []
    else
      var ids := Sorted(key, wanted, n - 1);
      if wanted(n - 1) then Inserted(key, ids, n - 1) else ids
  }

  function Scan(key: nat -> int, wanted: nat -> bool, n: nat, limit: int): seq<nat> {
    var ids := Sorted(key, wanted, n);
    if |ids| > BatchLimit(limit) then ids[..BatchLimit(limit)] else ids
  }

  predicate InKeyOrder(key: nat -> int, ids: seq<nat>) {
    forall a, b :: 0 <= a < b < |ids| ==> Before(key, ids[a], ids[b])
  }

  lemma {:induction false} InsertedIs(key: nat -> int, ids: seq<nat>, i: nat)
    requires InKeyOrder(key, ids) && forall j :: j in ids ==> j < i
    ensures InKeyOrder(key, Inserted(key, ids, i))
    ensures forall j: nat :: j in Inserted(key, ids, i) <==> j in ids || j == i
  {
    if ids != [] && key(ids[|ids| - 1]) > key(i) {
      var front, last := ids[..|ids| - 1], ids[|ids| - 1];
      assert ids == front + [last] && forall j :: j in front ==> j in ids;
      InsertedIs(key, front, i);
      forall j | j in Inserted(key, front, i) ensures Before(key, j, last) {
        if j != i {
          var a :| 0 <= a < |front| && front[a] == j;
          assert Before(key, ids[a], ids[|ids| - 1]);
        }
      }
    } else if ids != [] {
      forall a | 0 <= a < |ids| ensures Before(key, ids[a], i) {
        assert ids[a] in ids;
        assert a < |ids| - 1 ==> Before(key, ids[a], ids[|ids| - 1]);
      }
    }
  }

  lemma {:induction false} SortedIs(key: nat -> int, wanted: nat -> bool, n: nat)
    ensures InKeyOrder(key, Sorted(key, wanted, n))
    ensures forall j: nat :: j in Sorted(key, wanted, n) <==> j < n && wanted(j)
  {
    if n > 0 {
      SortedIs(key, wanted, n - 1);
      InsertedIs(key, Sorted(key, wanted, n - 1), n - 1);
    }
  }

  /** The scan holds only wanted rows, in order and each once; one that is left out comes after all of them, and
      only when the limit is reached. */
  lemma ScanIs(key: nat -> int, wanted: nat -> bool, n: nat, limit: int)
    ensures var ids := Scan(key, wanted, n, limit);
            && InKeyOrder(key, ids) && |ids| <= BatchLimit(limit) == (if 1 <= limit <= 1000 then limit else 100)
            && (forall k :: 0 <= k < |ids| ==> ids[k] < n && wanted(ids[k]))
            && (forall j: nat :: j < n && wanted(j) && j !in ids ==>
                  |ids| == BatchLimit(limit) && forall k :: 0 <= k < |ids| ==> Before(key, ids[k], j))
  {
    SortedIs(key, wanted, n);
    var all, ids := Sorted(key, wanted, n), Scan(key, wanted, n, limit);
    forall k | 0 <= k < |ids| ensures ids[k] < n && wanted(ids[k]) {
      assert ids[k] in all;
    }
    forall j: nat | j < n && wanted(j) && j !in ids
      ensures |ids| == BatchLimit(limit) && forall k :: 0 <= k < |ids| ==> Before(key, ids[k], j)
    {
      var a :| 0 <= a < |all| && all[a] == j;
      assert a >= |ids|;
    }
  }
}
