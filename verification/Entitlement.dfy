/** What a chain of grants entitles a merchant to: the fold that `recomputeChainTx` runs, and its
    closed form. */
module Entitlement {
  import opened Base

  /** The plan as it was when it was bought or granted. */
  datatype Snapshot = Snapshot(planId: nat, price: int, days: int, channels: set<Channel>)

  datatype GrantKind = New | Renew | Switch | Manual

  /** `duration` is 0 where the column is null (manual grants). */
  datatype Grant = Grant(
    purchase: Option<nat>, merchant: int, chain: nat, kind: GrantKind, duration: int, effectiveAt: int,
    fixedExpiry: Option<int>, snapshot: Snapshot, voidedAt: Option<int>, refundedAt: Option<int>)
  {
    predicate Live() {
      voidedAt.None? && refundedAt.None?
    }

    predicate InChain(m: int, c: nat) {
      merchant == m && chain == c
    }
  }

  datatype Source = NoSource | ByPurchase | ByManual
  datatype Entitled = Entitled(expiry: Option<int>, chosen: Option<Snapshot>, source: Source)

  const NOTHING := Entitled(None, None, NoSource)

  function Max(a: int, b: int): int {
    if a > b then a else b
  }

  // ---------------------------------------------------------------------------
  // The rows of a chain in (effective_at, id) order
  // ---------------------------------------------------------------------------

  function Inserted(rows: seq<Grant>, g: Grant): (r: seq<Grant>)
    ensures |r| == |rows| + 1
    ensures multiset(r) == multiset(rows) + multiset{g}
  {
    if rows == [] || rows[|rows| - 1].effectiveAt <= g.effectiveAt then rows + [g]
    else
      assert rows == rows[..|rows| - 1] + [rows[|rows| - 1]];
      Inserted(rows[..|rows| - 1], g) + [rows[|rows| - 1]]
  }

  /** Grants are stored by ascending id, so inserting each after its equals sorts by (effective_at, id). */
  function ChainRows(grants: seq<Grant>, m: int, c: nat): seq<Grant> {
    if grants == [] then []
    else
      var g := grants[|grants| - 1];
      var rows := ChainRows(grants[..|grants| - 1], m, c);
      if g.InChain(m, c) then Inserted(rows, g) else rows
  }

  predicate Ordered(rows: seq<Grant>) {
    forall i, j :: 0 <= i < j < |rows| ==> rows[i].effectiveAt <= rows[j].effectiveAt
  }

  lemma {:induction false} InsertedOrdered(rows: seq<Grant>, g: Grant)
    requires Ordered(rows)
    ensures Ordered(Inserted(rows, g))
    ensures forall k :: 0 <= k < |rows| + 1 ==> Inserted(rows, g)[k] == g || Inserted(rows, g)[k] in rows
  {
    if rows != [] && rows[|rows| - 1].effectiveAt > g.effectiveAt {
      InsertedOrdered(rows[..|rows| - 1], g);
    }
  }

  lemma {:induction false} ChainRowsOrdered(grants: seq<Grant>, m: int, c: nat)
    ensures Ordered(ChainRows(grants, m, c))
    ensures forall g :: g in ChainRows(grants, m, c) <==> g in grants && g.InChain(m, c)
  {
    if grants != [] {
      var n := |grants| - 1;
      assert grants == grants[..n] + [grants[n]];
      ChainRowsOrdered(grants[..n], m, c);
      if grants[n].InChain(m, c) {
        var rows := ChainRows(grants[..n], m, c);
        InsertedOrdered(rows, grants[n]);
        forall g ensures g in Inserted(rows, grants[n]) <==> g in rows || g == grants[n] {
          assert g in Inserted(rows, grants[n]) <==> g in multiset(Inserted(rows, grants[n]));
        }
      }
    }
  }

  lemma ChainRowsAppend(grants: seq<Grant>, g: Grant, m: int, c: nat)
    ensures ChainRows(grants + [g], m, c)
            == (if g.InChain(m, c) then Inserted(ChainRows(grants, m, c), g) else ChainRows(grants, m, c))
  {
    assert (grants + [g])[..|grants|] == grants;
  }

  /** Rows of other chains do not matter. */
  lemma {:induction false} ChainRowsFrame(grants: seq<Grant>, grants': seq<Grant>, m: int, c: nat)
    requires |grants| == |grants'|
    requires forall i :: 0 <= i < |grants| ==>
                           grants'[i] == grants[i] || (!grants[i].InChain(m, c) && !grants'[i].InChain(m, c))
    ensures ChainRows(grants', m, c) == ChainRows(grants, m, c)
  {
    if grants != [] {
      var n := |grants| - 1;
      ChainRowsFrame(grants[..n], grants'[..n], m, c);
    }
  }

  lemma {:induction false} UnusedChain(grants: seq<Grant>, m: int, c: nat)
    requires forall i :: 0 <= i < |grants| ==> !grants[i].InChain(m, c)
    ensures ChainRows(grants, m, c) == []
  {
    if grants != [] {
      UnusedChain(grants[..|grants| - 1], m, c);
    }
  }

  // ---------------------------------------------------------------------------
  // The fold
  // ---------------------------------------------------------------------------

  function Extended(e: Entitled, g: Grant): Entitled {
    if !g.Live() then e
    else if g.fixedExpiry.Some? then Entitled(g.fixedExpiry, Some(g.snapshot), ByManual)
    else if g.duration <= 0 then e
    else
      var start := if e.expiry.Some? then Max(e.expiry.value, g.effectiveAt) else g.effectiveAt;
      Entitled(Some(start + g.duration), Some(g.snapshot), if e.source.NoSource? then ByPurchase else e.source)
  }

  function Folded(rows: seq<Grant>): (e: Entitled)
    ensures e.expiry.Some? == e.chosen.Some?
  {
    if rows == [] then NOTHING else Extended(Folded(rows[..|rows| - 1]), rows[|rows| - 1])
  }

  lemma FoldedAppend(rows: seq<Grant>, g: Grant)
    ensures Folded(rows + [g]) == Extended(Folded(rows), g)
  {
    assert (rows + [g])[..|rows|] == rows;
  }

  /** A grant that starts no earlier than every live one is folded last, wherever dead rows sort it. */
  lemma {:induction false} FoldedInserted(rows: seq<Grant>, g: Grant)
    requires forall k :: 0 <= k < |rows| && rows[k].Live() ==> rows[k].effectiveAt <= g.effectiveAt
    ensures Folded(Inserted(rows, g)) == Extended(Folded(rows), g)
  {
    if rows == [] || rows[|rows| - 1].effectiveAt <= g.effectiveAt {
      FoldedAppend(rows, g);
    } else {
      var n := |rows| - 1;
      FoldedInserted(rows[..n], g);
      FoldedAppend(Inserted(rows[..n], g), rows[n]);
    }
  }

  /** A manual grant, if any, is the first of its chain, and purchases have positive durations. */
  predicate WellFormed(rows: seq<Grant>) {
    && (forall k :: 0 < k < |rows| ==> rows[k].fixedExpiry.None?)
    && (forall k :: 0 <= k < |rows| && rows[k].fixedExpiry.None? ==> rows[k].duration > 0)
  }

  /** When the grant on its own would end, had it started on time. */
  function OwnEnd(g: Grant): int {
    if g.fixedExpiry.Some? then g.fixedExpiry.value else g.effectiveAt + g.duration
  }

  lemma {:induction false} FoldedCoversLive(rows: seq<Grant>, k: nat)
    requires WellFormed(rows) && k < |rows| && rows[k].Live()
    ensures Folded(rows).expiry.Some? && OwnEnd(rows[k]) <= Folded(rows).expiry.value
  {
    var n := |rows| - 1;
    if k < n {
      FoldedCoversLive(rows[..n], k);
    }
  }

  // ---------------------------------------------------------------------------
  // Closed form: the latest of (start of a grant + all live time from it on)
  // ---------------------------------------------------------------------------

  function LiveTime(rows: seq<Grant>): int {
    if rows == [] then 0
    else (if rows[0].Live() && rows[0].fixedExpiry.None? then rows[0].duration else 0) + LiveTime(rows[1..])
  }

  lemma {:induction false} LiveTimeAppend(rows: seq<Grant>, g: Grant)
    ensures LiveTime(rows + [g])
            == LiveTime(rows) + (if g.Live() && g.fixedExpiry.None? then g.duration else 0)
  {
    if rows == [] {
      assert rows + [g] == [g];
    } else {
      LiveTimeAppend(rows[1..], g);
      assert (rows + [g])[1..] == rows[1..] + [g];
    }
  }

  /** Where the grant's own time starts counting: its start, or the fixed end of a manual grant. */
  function Anchor(g: Grant): int {
    if g.fixedExpiry.Some? then g.fixedExpiry.value else g.effectiveAt
  }

  /** Where the chain would end if it ran from one grant on without a gap. */
  function EndFrom(rows: seq<Grant>, k: nat): int
    requires k < |rows|
  {
    Anchor(rows[k]) + LiveTime(rows[k..])
  }

  lemma EndFromAppend(rows: seq<Grant>, g: Grant, k: nat)
    requires k <= |rows|
    ensures EndFrom(rows + [g], k)
            == if k == |rows| then Anchor(g) + LiveTime([g])
               else EndFrom(rows, k) + (if g.Live() && g.fixedExpiry.None? then g.duration else 0)
  {
    assert (rows + [g])[k..] == rows[k..] + [g];
    LiveTimeAppend(rows[k..], g);
  }

  /** One more grant moves the fold's end at least as far as the end from any earlier grant. */
  lemma BoundAppend(front: seq<Grant>, last: Grant, k: nat)
    requires k <= |front| && (last.fixedExpiry.None? ==> last.duration > 0) && (k < |front| ==> last.fixedExpiry.None?)
    requires if k < |front| then Folded(front).expiry.Some? && EndFrom(front, k) <= Folded(front).expiry.value
             else last.Live()
    ensures Folded(front + [last]).expiry.Some? && EndFrom(front + [last], k) <= Folded(front + [last]).expiry.value
  {
    FoldedAppend(front, last);
    EndFromAppend(front, last, k);
    if k == |front| {
      assert LiveTime([last][1..]) == 0;
    }
  }

  lemma {:induction false} EndFromBound(rows: seq<Grant>, k: nat)
    requires WellFormed(rows) && k < |rows| && rows[k].Live()
    ensures Folded(rows).expiry.Some? && EndFrom(rows, k) <= Folded(rows).expiry.value
  {
    var n := |rows| - 1;
    var front, last := rows[..n], rows[n];
    if k < n {
      EndFromBound(front, k);
    }
    BoundAppend(front, last, k);
    assert rows == front + [last];
  }

  lemma {:induction false} EndFromReached(rows: seq<Grant>) returns (k: nat)
    requires WellFormed(rows) && Folded(rows).expiry.Some?
    ensures k < |rows| && rows[k].Live() && Folded(rows).expiry.value == EndFrom(rows, k)
  {
    var n := |rows| - 1;
    var front, last := rows[..n], rows[n];
    assert rows == front + [last] && LiveTime([last][1..]) == 0;
    EndFromAppend(front, last, n);
    if Folded(front).expiry.Some? {
      var j := EndFromReached(front);
      EndFromAppend(front, last, j);
      k := if last.Live() && Anchor(last) > Folded(front).expiry.value then n else j;
    } else {
      k := n;
    }
  }

  /** The chain ends at one live grant's anchor plus all live time from it on, and no earlier than any
      other's: expiry = max over live k of (anchor k + live time from k on). */
  lemma ClosedForm(rows: seq<Grant>)
    requires WellFormed(rows)
    ensures Folded(rows).expiry.None? <==> forall k :: 0 <= k < |rows| ==> !rows[k].Live()
    ensures forall k :: 0 <= k < |rows| && rows[k].Live() ==>
                          Folded(rows).expiry.Some? && EndFrom(rows, k) <= Folded(rows).expiry.value
    ensures Folded(rows).expiry.Some? ==>
              exists k :: 0 <= k < |rows| && rows[k].Live() && Folded(rows).expiry.value == EndFrom(rows, k)
  {
    forall k | 0 <= k < |rows| && rows[k].Live()
      ensures Folded(rows).expiry.Some? && EndFrom(rows, k) <= Folded(rows).expiry.value
    {
      EndFromBound(rows, k);
    }
    if Folded(rows).expiry.Some? {
      var k := EndFromReached(rows);
    }
  }

  // ---------------------------------------------------------------------------
  // Refunds
  // ---------------------------------------------------------------------------

  /** The same row, or a bought one refunded since. */
  predicate RowRefunded(g: Grant, g': Grant) {
    g' == g || (g.fixedExpiry.None? && g'.refundedAt.Some? && g'.(refundedAt := g.refundedAt) == g)
  }

  predicate RefundedSince(rows: seq<Grant>, rows': seq<Grant>) {
    |rows'| == |rows| && forall k :: 0 <= k < |rows| ==> RowRefunded(rows[k], rows'[k])
  }

  lemma RefundedAppend(rows: seq<Grant>, rows': seq<Grant>, g: Grant, g': Grant)
    requires RefundedSince(rows, rows') && RowRefunded(g, g')
    ensures RefundedSince(rows + [g], rows' + [g'])
  {
  }

  lemma {:induction false} InsertedRefunded(rows: seq<Grant>, rows': seq<Grant>, g: Grant, g': Grant)
    requires RefundedSince(rows, rows') && RowRefunded(g, g')
    ensures RefundedSince(Inserted(rows, g), Inserted(rows', g'))
  {
    var n := |rows| - 1;
    assert rows != [] ==> RowRefunded(rows[n], rows'[n]);
    if rows == [] || rows[n].effectiveAt <= g.effectiveAt {
      RefundedAppend(rows, rows', g, g');
    } else {
      InsertedRefunded(rows[..n], rows'[..n], g, g');
      RefundedAppend(Inserted(rows[..n], g), Inserted(rows'[..n], g'), rows[n], rows'[n]);
    }
  }

  lemma {:induction false} ChainRowsRefunded(grants: seq<Grant>, grants': seq<Grant>, m: int, c: nat)
    requires RefundedSince(grants, grants')
    ensures RefundedSince(ChainRows(grants, m, c), ChainRows(grants', m, c))
  {
    if grants != [] {
      var n := |grants| - 1;
      ChainRowsRefunded(grants[..n], grants'[..n], m, c);
      assert RowRefunded(grants[n], grants'[n]);
      InsertedRefunded(ChainRows(grants[..n], m, c), ChainRows(grants'[..n], m, c), grants[n], grants'[n]);
    }
  }

  /** Refunds never make a chain end later. */
  lemma {:induction false} RefundNeverExtends(rows: seq<Grant>, rows': seq<Grant>)
    requires RefundedSince(rows, rows')
    ensures Folded(rows').expiry.Some? ==>
              Folded(rows).expiry.Some? && Folded(rows').expiry.value <= Folded(rows).expiry.value
  {
    if rows != [] {
      var n := |rows| - 1;
      RefundNeverExtends(rows[..n], rows'[..n]);
      assert RowRefunded(rows[n], rows'[n]);
    }
  }

  // ---------------------------------------------------------------------------
  // Chains without refunds
  // ---------------------------------------------------------------------------

  predicate AllLive(rows: seq<Grant>) {
    forall k :: 0 <= k < |rows| ==> rows[k].Live()
  }

  /** The grant starts exactly where the time paid before it ends. */
  predicate StartsOnTime(rows: seq<Grant>, k: nat)
    requires k < |rows|
  {
    Folded(rows[..k]).expiry == Some(rows[k].effectiveAt)
  }

  predicate Gapless(rows: seq<Grant>) {
    forall k :: 0 < k < |rows| ==> StartsOnTime(rows, k)
  }

  lemma GaplessAppend(rows: seq<Grant>, g: Grant)
    requires Gapless(rows) && (rows != [] ==> Folded(rows).expiry == Some(g.effectiveAt))
    ensures Gapless(rows + [g])
  {
    var all := rows + [g];
    forall k | 0 < k < |all| ensures StartsOnTime(all, k) {
      if k < |rows| {
        assert StartsOnTime(rows, k) && all[..k] == rows[..k];
      } else {
        assert all[..k] == rows;
      }
    }
  }

  lemma GaplessFront(rows: seq<Grant>)
    requires rows != [] && Gapless(rows)
    ensures Gapless(rows[..|rows| - 1])
  {
    var front := rows[..|rows| - 1];
    forall k | 0 < k < |front| ensures StartsOnTime(front, k) {
      assert StartsOnTime(rows, k) && front[..k] == rows[..k];
    }
  }

  lemma GaplessExtended(front: seq<Grant>, last: Grant)
    requires front != [] && Folded(front).expiry == Some(EndFrom(front, 0))
    requires last.Live() && last.fixedExpiry.None? && last.duration > 0 && Folded(front).expiry == Some(last.effectiveAt)
    ensures Folded(front + [last]).expiry == Some(EndFrom(front + [last], 0))
  {
    FoldedAppend(front, last);
    EndFromAppend(front, last, 0);
  }

  lemma GaplessSingle(g: Grant)
    requires g.Live() && (g.fixedExpiry.Some? || g.duration > 0)
    ensures Folded([g]).expiry == Some(EndFrom([g], 0))
  {
    FoldedAppend([], g);
    assert [] + [g] == [g] && [g][0..] == [g] && LiveTime([g][1..]) == 0;
  }

  /** A chain without refunds ends at its anchor plus the sum of the durations bought. */
  lemma {:induction false} GaplessEnd(rows: seq<Grant>)
    requires rows != [] && WellFormed(rows) && AllLive(rows) && Gapless(rows)
    ensures Folded(rows).expiry == Some(EndFrom(rows, 0))
  {
    var n := |rows| - 1;
    var front, last := rows[..n], rows[n];
    assert last.Live();
    if n == 0 {
      assert rows == [last];
      GaplessSingle(last);
    } else {
      GaplessFront(rows);
      GaplessEnd(front);
      assert StartsOnTime(rows, n);
      assert rows == front + [last];
      GaplessExtended(front, last);
    }
  }

  // ---------------------------------------------------------------------------
  // What a refund takes back
  // ---------------------------------------------------------------------------

  /** A live purchase starts no earlier than the time before it in the chain ends. */
  predicate StartsAfter(rows: seq<Grant>, k: nat)
    requires k < |rows|
  {
    rows[k].Live() && rows[k].fixedExpiry.None? && Folded(rows[..k]).expiry.Some? ==>
      Folded(rows[..k]).expiry.value <= rows[k].effectiveAt
  }

  predicate Stacked(rows: seq<Grant>) {
    forall k :: 0 <= k < |rows| ==> StartsAfter(rows, k)
  }

  lemma StackedAppend(rows: seq<Grant>, g: Grant)
    requires Stacked(rows)
    requires g.Live() && g.fixedExpiry.None? && Folded(rows).expiry.Some? ==> Folded(rows).expiry.value <= g.effectiveAt
    ensures Stacked(rows + [g])
  {
    var all := rows + [g];
    forall k | 0 <= k < |all| ensures StartsAfter(all, k) {
      if k < |rows| {
        assert StartsAfter(rows, k) && all[..k] == rows[..k];
      } else {
        assert all[..k] == rows;
      }
    }
  }

  lemma StackedFront(rows: seq<Grant>)
    requires rows != [] && Stacked(rows)
    ensures Stacked(rows[..|rows| - 1]) && StartsAfter(rows, |rows| - 1)
  {
    var front := rows[..|rows| - 1];
    forall k | 0 <= k < |front| ensures StartsAfter(front, k) {
      assert StartsAfter(rows, k) && front[..k] == rows[..k];
    }
  }

  /** A renewal of a live chain stacks on it, wherever refunded rows sort it. */
  lemma {:induction false} StackedInserted(rows: seq<Grant>, g: Grant)
    requires Stacked(rows) && Folded(rows).expiry == Some(g.effectiveAt)
    requires forall k :: 0 <= k < |rows| && rows[k].Live() ==> rows[k].effectiveAt <= g.effectiveAt
    ensures Stacked(Inserted(rows, g))
  {
    var n := |rows| - 1;
    if rows == [] || rows[n].effectiveAt <= g.effectiveAt {
      StackedAppend(rows, g);
    } else {
      StackedFront(rows);
      StackedInserted(rows[..n], g);
      StackedAppend(Inserted(rows[..n], g), rows[n]);
    }
  }

  lemma StackedRefunded(rows: seq<Grant>, rows': seq<Grant>)
    requires Stacked(rows) && RefundedSince(rows, rows')
    ensures Stacked(rows')
  {
    forall k | 0 <= k < |rows'| ensures StartsAfter(rows', k) {
      assert StartsAfter(rows, k) && RowRefunded(rows[k], rows'[k]);
      forall j | 0 <= j < k ensures RowRefunded(rows[..k][j], rows'[..k][j]) {
        assert RowRefunded(rows[j], rows'[j]);
      }
      RefundNeverExtends(rows[..k], rows'[..k]);
    }
  }

  function LastLive(rows: seq<Grant>): (k: Option<nat>)
    ensures k.Some? ==> k.value < |rows|
  {
    if rows == [] then None
    else if rows[|rows| - 1].Live() then Some(|rows| - 1)
    else LastLive(rows[..|rows| - 1])
  }

  /** It is live, and no live grant comes after it; there is none only when no grant is live. */
  lemma {:induction false} LastLiveIs(rows: seq<Grant>)
    ensures LastLive(rows).Some? ==> rows[LastLive(rows).value].Live()
    ensures forall j :: 0 <= j < |rows| && rows[j].Live() ==> LastLive(rows).Some? && j <= LastLive(rows).value
  {
    if rows != [] && !rows[|rows| - 1].Live() {
      LastLiveIs(rows[..|rows| - 1]);
      assert forall j :: 0 <= j < |rows| - 1 ==> rows[..|rows| - 1][j] == rows[j];
    }
  }

  /** When the last live grant on its own would end. */
  function LastEnd(rows: seq<Grant>): Option<int> {
    match LastLive(rows)
    case None => None
    case Some(k) => Some(OwnEnd(rows[k]))
  }

  lemma ExtendedLast(e: Entitled, g: Grant)
    requires g.fixedExpiry.None? ==> g.duration > 0 && (e.expiry.Some? && g.Live() ==> e.expiry.value <= g.effectiveAt)
    ensures Extended(e, g).expiry == if g.Live() then Some(OwnEnd(g)) else e.expiry
  {
  }

  /** A stacked chain ends where its last live grant on its own would. */
  lemma {:induction false} StackedEnd(rows: seq<Grant>)
    requires WellFormed(rows) && Stacked(rows)
    ensures Folded(rows).expiry == LastEnd(rows)
  {
    if rows != [] {
      var n := |rows| - 1;
      StackedFront(rows);
      StackedEnd(rows[..n]);
      ExtendedLast(Folded(rows[..n]), rows[n]);
    }
  }

  /** What the chain entitles to is what its last live grant was bought or given for. */
  lemma {:induction false} ChosenIsLast(rows: seq<Grant>)
    requires WellFormed(rows)
    ensures Folded(rows).chosen == match LastLive(rows) case None => None case Some(k) => Some(rows[k].snapshot)
  {
    if rows != [] {
      ChosenIsLast(rows[..|rows| - 1]);
    }
  }

  function RefundedAt(rows: seq<Grant>, k: nat, at: int): seq<Grant>
    requires k < |rows|
  {
    rows[k := rows[k].(refundedAt := Some(at))]
  }

  lemma {:induction false} LastLiveRefunded(rows: seq<Grant>, k: nat, at: int)
    requires k < |rows|
    ensures LastLive(RefundedAt(rows, k, at)) == if LastLive(rows) == Some(k) then LastLive(rows[..k]) else LastLive(rows)
  {
    var n := |rows| - 1;
    if k == n {
      assert RefundedAt(rows, k, at)[..n] == rows[..n];
    } else {
      assert RefundedAt(rows, k, at)[..n] == RefundedAt(rows[..n], k, at) && rows[..n][..k] == rows[..k];
      LastLiveRefunded(rows[..n], k, at);
    }
  }

  lemma RefundedRows(rows: seq<Grant>, k: nat, at: int)
    requires WellFormed(rows) && Stacked(rows) && k < |rows| && rows[k].fixedExpiry.None?
    ensures WellFormed(RefundedAt(rows, k, at)) && Stacked(RefundedAt(rows, k, at))
  {
    assert RefundedSince(rows, RefundedAt(rows, k, at));
    StackedRefunded(rows, RefundedAt(rows, k, at));
  }

  lemma EndBefore(rows: seq<Grant>, k: nat)
    requires WellFormed(rows) && Stacked(rows) && k < |rows| && rows[k].Live() && rows[k].fixedExpiry.None?
    ensures LastEnd(rows[..k]).Some? ==> LastEnd(rows[..k]).value <= rows[k].effectiveAt
  {
    assert StartsAfter(rows, k);
    forall j | 0 <= j < k ensures StartsAfter(rows[..k], j) {
      assert StartsAfter(rows, j) && rows[..k][..j] == rows[..j];
    }
    StackedEnd(rows[..k]);
  }

  lemma LastEndRefunded(rows: seq<Grant>, k: nat, at: int)
    requires k < |rows|
    ensures LastEnd(RefundedAt(rows, k, at)) == if LastLive(rows) == Some(k) then LastEnd(rows[..k]) else LastEnd(rows)
  {
    LastLiveRefunded(rows, k, at);
  }

  lemma LiveEnds(rows: seq<Grant>, k: nat)
    requires k < |rows| && rows[k].Live() && rows[k].fixedExpiry.None?
    ensures LastEnd(rows).Some?
    ensures LastLive(rows) == Some(k) ==> LastEnd(rows) == Some(rows[k].effectiveAt + rows[k].duration)
  {
    LastLiveIs(rows);
  }

  /** Refunding a live purchase of a chain moves the end exactly when no live grant comes after it, and then
      to where the live grant before it ends, if there is one. */
  lemma RefundMoves(rows: seq<Grant>, k: nat, at: int)
    requires WellFormed(rows) && Stacked(rows) && k < |rows| && rows[k].Live() && rows[k].fixedExpiry.None?
    ensures Folded(rows).expiry == LastEnd(rows) && LastEnd(rows).Some?
    ensures Folded(RefundedAt(rows, k, at)).expiry
            == if LastLive(rows) == Some(k) then LastEnd(rows[..k]) else Folded(rows).expiry
    ensures Folded(RefundedAt(rows, k, at)).expiry != Folded(rows).expiry <==> LastLive(rows) == Some(k)
  {
    assert rows[k].duration > 0;
    LiveEnds(rows, k);
    EndBefore(rows, k);
    StackedEnd(rows);
    RefundedRows(rows, k, at);
    StackedEnd(RefundedAt(rows, k, at));
    LastEndRefunded(rows, k, at);
  }

  /** It takes back exactly its own duration when, and only when, no live grant comes after it and the live
      one before it ends where it starts. */
  lemma RefundTakesBack(rows: seq<Grant>, k: nat, at: int)
    requires WellFormed(rows) && Stacked(rows) && k < |rows| && rows[k].Live() && rows[k].fixedExpiry.None?
    ensures Folded(rows).expiry.Some?
    ensures Folded(RefundedAt(rows, k, at)).expiry == Some(Folded(rows).expiry.value - rows[k].duration)
            <==> LastLive(rows) == Some(k) && LastEnd(rows[..k]) == Some(rows[k].effectiveAt)
  {
    assert rows[k].duration > 0;
    LiveEnds(rows, k);
    RefundMoves(rows, k, at);
  }

  lemma FrontRefunded(rows: seq<Grant>, j: nat, k: nat, at: int)
    requires j < k < |rows|
    ensures RefundedAt(rows, j, at)[..k] == RefundedAt(rows[..k], j, at) && rows[..k][..j] == rows[..j]
  {
  }

  lemma EarlierRefunded(rows: seq<Grant>, j: nat, k: nat, at: int)
    requires j < k < |rows| && LastLive(rows) == Some(k) && LastLive(rows[..k]) == Some(j)
    ensures LastLive(RefundedAt(rows, j, at)) == Some(k) && RefundedAt(rows, j, at)[k].Live() && rows[j].Live()
    ensures LastEnd(RefundedAt(rows, j, at)[..k]) == LastEnd(rows[..j])
  {
    LastLiveIs(rows);
    LastLiveIs(rows[..k]);
    LastLiveRefunded(rows, j, at);
    FrontRefunded(rows, j, k, at);
    LastEndRefunded(rows[..k], j, at);
  }

  /** Refunding the last live purchase after the live one before it takes back both, and whatever time lay
      between them. */
  lemma LateRefundTakesBackBoth(rows: seq<Grant>, j: nat, k: nat, at: int, later: int)
    requires WellFormed(rows) && Stacked(rows) && j < k < |rows|
    requires LastLive(rows) == Some(k) && LastLive(rows[..k]) == Some(j)
    requires rows[j].fixedExpiry.None? && rows[k].fixedExpiry.None?
    ensures var once := RefundedAt(rows, j, at);
            && Folded(once).expiry == Folded(rows).expiry
            && Folded(RefundedAt(once, k, later)).expiry == LastEnd(rows[..j])
  {
    EarlierRefunded(rows, j, k, at);
    RefundMoves(rows, j, at);
    RefundedRows(rows, j, at);
    RefundMoves(RefundedAt(rows, j, at), k, later);
  }

  // ---------------------------------------------------------------------------
  // Replacing one grant of a chain
  // ---------------------------------------------------------------------------

  /** A row after the place of insertion stays the last. */
  lemma InsertedLast(rows: seq<Grant>, last: Grant, x: Grant)
    requires last.effectiveAt > x.effectiveAt
    ensures Inserted(rows + [last], x) == Inserted(rows, x) + [last]
  {
    assert (rows + [last])[..|rows|] == rows;
  }

  /** Rows that agree but for place `p`, which holds `a` in the one and `b` in the other. */
  predicate Differ(rows: seq<Grant>, rows': seq<Grant>, p: nat, a: Grant, b: Grant) {
    p < |rows| && rows[p] == a && rows' == rows[p := b]
  }

  lemma DifferAppend(rows: seq<Grant>, rows': seq<Grant>, p: nat, a: Grant, b: Grant, last: Grant)
    requires Differ(rows, rows', p, a, b)
    ensures Differ(rows + [last], rows' + [last], p, a, b)
  {
  }

  lemma DifferLast(rows: seq<Grant>, a: Grant, b: Grant)
    ensures Differ(rows + [a], rows + [b], |rows|, a, b)
  {
  }

  lemma {:induction false} InsertedReplaced(rows: seq<Grant>, rows': seq<Grant>, p: nat, a: Grant, b: Grant, x: Grant)
    returns (q: nat)
    requires Differ(rows, rows', p, a, b) && a.effectiveAt == b.effectiveAt
    ensures Differ(Inserted(rows, x), Inserted(rows', x), q, a, b)
  {
    var n := |rows| - 1;
    var front, front', last, last' := rows[..n], rows'[..n], rows[n], rows'[n];
    assert rows == front + [last] && rows' == front' + [last'];
    if last.effectiveAt <= x.effectiveAt {
      q := p;
      DifferAppend(rows, rows', p, a, b, x);
    } else {
      InsertedLast(front, last, x);
      InsertedLast(front', last', x);
      if p == n {
        q := |Inserted(front, x)|;
        DifferLast(Inserted(front, x), a, b);
      } else {
        q := InsertedReplaced(front, front', p, a, b, x);
        DifferAppend(Inserted(front, x), Inserted(front', x), q, a, b, last);
      }
    }
  }

  lemma {:induction false} InsertedWith(rows: seq<Grant>, a: Grant, b: Grant) returns (q: nat)
    requires a.effectiveAt == b.effectiveAt
    ensures Differ(Inserted(rows, a), Inserted(rows, b), q, a, b)
  {
    var n := |rows| - 1;
    if rows == [] || rows[n].effectiveAt <= a.effectiveAt {
      q := |rows|;
      DifferLast(rows, a, b);
    } else {
      q := InsertedWith(rows[..n], a, b);
      DifferAppend(Inserted(rows[..n], a), Inserted(rows[..n], b), q, a, b, rows[n]);
    }
  }

  /** Replacing a grant by one of the same chain and start replaces it in its place among the rows. */
  lemma {:induction false} ChainRowsReplaced(grants: seq<Grant>, grants': seq<Grant>, i: nat, a: Grant, b: Grant, m: int, c: nat)
    returns (p: nat)
    requires Differ(grants, grants', i, a, b) && a.InChain(m, c) && b.InChain(m, c) && a.effectiveAt == b.effectiveAt
    ensures Differ(ChainRows(grants, m, c), ChainRows(grants', m, c), p, a, b)
  {
    var n := |grants| - 1;
    if i == n {
      assert grants'[..n] == grants[..n];
      p := InsertedWith(ChainRows(grants[..n], m, c), a, b);
    } else {
      p := ChainRowsReplaced(grants[..n], grants'[..n], i, a, b, m, c);
      if grants[n].InChain(m, c) {
        p := InsertedReplaced(ChainRows(grants[..n], m, c), ChainRows(grants'[..n], m, c), p, a, b, grants[n]);
      }
    }
  }
}
