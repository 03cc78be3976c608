/** The subscription tables (plans, purchases, quota counters, grants, cached subscriptions), the row
    updates made on them, and what every such update keeps. */
module Ledger {
  import opened Base
  import opened Entitlement

  datatype Plan = Plan(revision: int, price: int, days: int, channels: set<Channel>, limit: Option<int>, deleted: bool)

  datatype PurchaseState = Pending | Paid | Expired | Cancelled | Refunded

  datatype Purchase = Purchase(
    buyer: int, billing: int, plan: nat, snapshot: Snapshot, kind: GrantKind, state: PurchaseState,
    order: nat, key: string, digest: string, expiresAt: int, paidAt: Option<int>)
  {
    predicate EverPaid() {
      state.Paid? || state.Refunded?
    }
  }

  datatype Counter = Counter(paid: int, reserved: int)

  /** The cached entitlement of a merchant. */
  datatype Subscription = Subscription(
    plan: Option<nat>, snapshot: Option<Snapshot>, expiresAt: int, revision: int, chain: nat, source: Source)

  /** `chains` counts the chain names handed out: a new name is always fresh. */
  datatype Books = Books(
    plans: seq<Plan>, purchases: seq<Purchase>, counters: map<(int, nat), Counter>,
    grants: seq<Grant>, subs: map<int, Subscription>, chains: nat)

  const NO_BOOKS := Books([], [], map[], [], map[], 0)

  function PaidCount(counters: map<(int, nat), Counter>, m: int, plan: nat): int {
    if (m, plan) in counters then counters[(m, plan)].paid else 0
  }

  function ReservedCount(counters: map<(int, nat), Counter>, m: int, plan: nat): int {
    if (m, plan) in counters then counters[(m, plan)].reserved else 0
  }

  // ---------------------------------------------------------------------------
  // Row updates
  // ---------------------------------------------------------------------------

  /** Inserts a pending purchase and reserves one unit of its plan's quota. */
  function Reserve(b: Books, pu: Purchase): Books {
    var key := (pu.buyer, pu.plan);
    var c := if key in b.counters then b.counters[key] else Counter(0, 0);
    b.(purchases := b.purchases + [pu], counters := b.counters[key := c.(reserved := c.reserved + 1)])
  }

  /** Gives a reserved unit back; the stored count is clamped at zero. */
  function Released(counters: map<(int, nat), Counter>, m: int, plan: nat): map<(int, nat), Counter> {
    var key := (m, plan);
    if key in counters then counters[key := counters[key].(reserved := Max(0, counters[key].reserved - 1))]
    else counters
  }

  /** Turns a reserved unit into a paid one. */
  function Spent(counters: map<(int, nat), Counter>, m: int, plan: nat): map<(int, nat), Counter> {
    var key := (m, plan);
    if key in counters then counters[key := Counter(counters[key].paid + 1, Max(0, counters[key].reserved - 1))]
    else counters
  }

  /** Ends a pending purchase without payment. */
  function Close(b: Books, k: nat, state: PurchaseState): Books
    requires k < |b.purchases|
  {
    var pu := b.purchases[k];
    b.(purchases := b.purchases[k := pu.(state := state)],
       counters := Released(b.counters, pu.buyer, pu.plan))
  }

  function VoidedRow(g: Grant, m: int, c: nat, at: int): Grant {
    if g.InChain(m, c) && g.voidedAt.None? then g.(voidedAt := Some(at)) else g
  }

  function VoidChain(grants: seq<Grant>, m: int, c: nat, at: int): (voided: seq<Grant>)
    ensures |voided| == |grants|
    ensures forall i :: 0 <= i < |grants| ==> voided[i] == VoidedRow(grants[i], m, c, at)
  {
    seq(|grants|, i requires 0 <= i < |grants| => VoidedRow(grants[i], m, c, at))
  }

  function Revision(subs: map<int, Subscription>, m: int): int {
    if m in subs then subs[m].revision else 0
  }

  /** The cached row that a fold of the chain stands for. */
  function CachedRow(e: Entitled, revision: int, c: nat, at: int): Subscription
    requires e.expiry.Some? && e.chosen.Some?
  {
    Subscription(Some(e.chosen.value.planId), e.chosen, e.expiry.value, revision, c,
                 if e.expiry.value <= at then NoSource else e.source)
  }

  /** Rebuilds the cached subscription of a merchant from the chain. */
  function Recomputed(b: Books, m: int, c: nat, at: int): Books {
    var e := Folded(ChainRows(b.grants, m, c));
    var revision := Revision(b.subs, m) + 1;
    if e.expiry.Some? then b.(subs := b.subs[m := CachedRow(e, revision, c, at)])
    else if m in b.subs then b.(subs := b.subs[m := Subscription(None, None, at, revision, c, NoSource)])
    else b
  }

  predicate Renews(b: Books, pu: Purchase, at: int) {
    pu.kind.Renew? && pu.buyer in b.subs && b.subs[pu.buyer].expiresAt > at
  }

  /** The grant a paid purchase is worth. */
  function BoughtGrant(b: Books, k: nat, at: int): Grant
    requires k < |b.purchases|
  {
    var pu := b.purchases[k];
    var renews := Renews(b, pu, at);
    Grant(Some(k), pu.buyer,
          if renews then b.subs[pu.buyer].chain else b.chains,
          pu.kind, pu.snapshot.days * DAY,
          if renews then b.subs[pu.buyer].expiresAt else at,
          None, pu.snapshot, None, None)
  }

  /** The grants a switch or a manual grant leaves standing. */
  function Superseded(b: Books, m: int, at: int): (kept: seq<Grant>)
    ensures |kept| == |b.grants|
    ensures forall i :: 0 <= i < |b.grants| ==>
              kept[i] == b.grants[i]
              || (b.grants[i].merchant == m && kept[i] == b.grants[i].(voidedAt := kept[i].voidedAt))
  {
    if m in b.subs then VoidChain(b.grants, m, b.subs[m].chain, at) else b.grants
  }

  function Kept(b: Books, k: nat, at: int): (kept: seq<Grant>)
    requires k < |b.purchases|
    ensures |kept| == |b.grants|
    ensures forall i :: 0 <= i < |b.grants| ==>
              kept[i] == b.grants[i]
              || (b.grants[i].merchant == b.purchases[k].buyer && kept[i] == b.grants[i].(voidedAt := kept[i].voidedAt))
  {
    var pu := b.purchases[k];
    if !Renews(b, pu, at) && pu.kind.Switch? then Superseded(b, pu.buyer, at) else b.grants
  }

  /** The books with the purchase paid and its grant added, the cache not yet rebuilt. */
  function Granted(b: Books, k: nat, at: int): Books
    requires k < |b.purchases|
  {
    var pu := b.purchases[k];
    b.(grants := Kept(b, k, at) + [BoughtGrant(b, k, at)],
       purchases := b.purchases[k := pu.(state := Paid, paidAt := Some(at))],
       counters := Spent(b.counters, pu.buyer, pu.plan),
       chains := if Renews(b, pu, at) then b.chains else b.chains + 1)
  }

  function Fulfil(b: Books, k: nat, at: int): Books
    requires k < |b.purchases|
  {
    Recomputed(Granted(b, k, at), b.purchases[k].buyer, BoughtGrant(b, k, at).chain, at)
  }

  /** `PaidTx`: what paying the order of purchase `k` does to the books. */
  function PaidTx(b: Books, k: nat, at: int): Result<Books> {
    if k >= |b.purchases| || b.purchases[k].state.Paid? then Ok(b)
    else if !b.purchases[k].state.Pending? || b.purchases[k].expiresAt <= at then Err(NotPayable)
    else Ok(Fulfil(b, k, at))
  }

  /** The grant bought by purchase `k`, if it was fulfilled. */
  function FindGrant(grants: seq<Grant>, k: nat): (r: Option<nat>)
    ensures r.Some? ==> r.value < |grants| && grants[r.value].purchase == Some(k)
  {
    if grants == [] then None
    else if grants[|grants| - 1].purchase == Some(k) then Some(|grants| - 1)
    else FindGrant(grants[..|grants| - 1], k)
  }

  function RefundedGrant(g: Grant, at: int): Grant {
    if g.refundedAt.None? then g.(refundedAt := Some(at)) else g
  }

  function TakeBack(b: Books, k: nat, i: nat, at: int): Books
    requires k < |b.purchases| && i < |b.grants|
  {
    var pu := b.purchases[k];
    var chain := b.grants[i].chain;
    var b' := b.(purchases := b.purchases[k := pu.(state := Refunded)],
                 grants := b.grants[i := RefundedGrant(b.grants[i], at)]);
    if pu.buyer in b.subs && b.subs[pu.buyer].chain == chain then Recomputed(b', pu.buyer, chain, at) else b'
  }

  /** `RefundedTx`: what refunding the order of purchase `k` does to the books. */
  function RefundedTx(b: Books, k: nat, at: int): Result<Books> {
    var grant := FindGrant(b.grants, k);
    if k >= |b.purchases| || grant.None? || b.purchases[k].state.Refunded? then Ok(b)
    else if !b.purchases[k].state.Paid? then Err(NotPaid)
    else Ok(TakeBack(b, k, grant.value, at))
  }

  function ManualGrant(m: int, chain: nat, snapshot: Snapshot, expiry: int, at: int): Grant {
    Grant(None, m, chain, Manual, 0, at, Some(expiry), snapshot, None, None)
  }

  /** An administrator's grant replaces the active chain by one fixed entitlement. */
  function Override(b: Books, m: int, snapshot: Snapshot, expiry: int, at: int): Books {
    b.(grants := Superseded(b, m, at) + [ManualGrant(m, b.chains, snapshot, expiry, at)],
       subs := b.subs[m := Subscription(Some(snapshot.planId), Some(snapshot), expiry, Revision(b.subs, m) + 1,
                                        b.chains, ByManual)],
       chains := b.chains + 1)
  }

  // ---------------------------------------------------------------------------
  // What holds in every reachable state
  // ---------------------------------------------------------------------------

  predicate PlanOk(plan: Plan) {
    && 1 <= plan.price <= MAX_AMOUNT_CENTS && 1 <= plan.days <= 36500 && plan.channels != {}
    && (plan.limit.Some? ==> plan.limit.value >= 1)
  }

  ghost predicate PurchasesOk(plans: seq<Plan>, purchases: seq<Purchase>) {
    && (forall i :: 0 <= i < |plans| ==> PlanOk(plans[i]))
    && (forall k :: 0 <= k < |purchases| ==>
          && purchases[k].plan < |plans|
          && purchases[k].snapshot.planId == purchases[k].plan
          && purchases[k].snapshot.days >= 1
          && !purchases[k].kind.Manual?
          && (purchases[k].EverPaid() <==> purchases[k].paidAt.Some?))
    && (forall k, l :: 0 <= k < l < |purchases| && purchases[k].state.Pending? && purchases[l].state.Pending? ==>
          purchases[k].buyer != purchases[l].buyer)
  }

  ghost function PendingOf(m: int, plan: nat): Purchase -> int {
    (pu: Purchase) => if pu.state.Pending? && pu.buyer == m && pu.plan == plan then 1 else 0
  }

  ghost function PaidOf(m: int, plan: nat): Purchase -> int {
    (pu: Purchase) => if pu.EverPaid() && pu.buyer == m && pu.plan == plan then 1 else 0
  }

  /** The counters count: reserved is the number of pending purchases, paid the number ever paid. */
  ghost predicate QuotaOk(purchases: seq<Purchase>, counters: map<(int, nat), Counter>) {
    forall m, plan: nat ::
      && ReservedCount(counters, m, plan) == Sum(purchases, PendingOf(m, plan))
      && PaidCount(counters, m, plan) == Sum(purchases, PaidOf(m, plan))
  }

  ghost function GrantOf(k: nat): Grant -> int {
    (g: Grant) => if g.purchase == Some(k) then 1 else 0
  }

  /** Every purchase ever paid has exactly one grant, refunded exactly when it is; no other has any. */
  ghost predicate GrantsOk(purchases: seq<Purchase>, grants: seq<Grant>) {
    && (forall k: nat :: k < |purchases| ==>
          Sum(grants, GrantOf(k)) == (if purchases[k].EverPaid() then 1 else 0))
    && (forall i :: 0 <= i < |grants| && grants[i].purchase.Some? ==>
          && grants[i].purchase.value < |purchases|
          && var pu := purchases[grants[i].purchase.value];
          && grants[i].merchant == pu.buyer && grants[i].snapshot == pu.snapshot
          && (grants[i].refundedAt.Some? <==> pu.state.Refunded?))
    && (forall i :: 0 <= i < |grants| ==>
          && (grants[i].purchase.Some? <==> grants[i].fixedExpiry.None?)
          && (grants[i].fixedExpiry.None? ==> grants[i].duration > 0))
  }

  ghost predicate ChainsOk(grants: seq<Grant>, subs: map<int, Subscription>, chains: nat) {
    && (forall i :: 0 <= i < |grants| ==> grants[i].chain < chains)
    && (forall m :: m in subs ==> subs[m].chain < chains)
  }

  predicate RowAgrees(sub: Subscription, e: Entitled, now: int) {
    if e.expiry.Some? && e.chosen.Some? then
      && sub.expiresAt == e.expiry.value && sub.snapshot == e.chosen && sub.plan == Some(e.chosen.value.planId)
      && (sub.source == e.source || (sub.source.NoSource? && sub.expiresAt <= now))
    else
      sub.plan.None? && sub.snapshot.None? && sub.source.NoSource? && sub.expiresAt <= now
  }

  /** An active chain: never voided, a manual grant only at its start, no gap as long as nothing is refunded. */
  ghost predicate ActiveShape(rows: seq<Grant>, now: int) {
    && rows != [] && WellFormed(rows) && Stacked(rows)
    && (AllLive(rows) ==> Gapless(rows))
    && (forall k :: 0 <= k < |rows| ==> rows[k].voidedAt.None?)
    && (rows[0].fixedExpiry.Some? ==> rows[0].effectiveAt <= now)
  }

  /** The cached row is the fold of the live grants of its chain. */
  ghost predicate CacheAgrees(rows: seq<Grant>, sub: Subscription, now: int) {
    RowAgrees(sub, Folded(rows), now) && ActiveShape(rows, now)
  }

  ghost predicate CacheOk(grants: seq<Grant>, subs: map<int, Subscription>, now: int) {
    forall m :: m in subs ==> CacheAgrees(ChainRows(grants, m, subs[m].chain), subs[m], now)
  }

  ghost predicate BooksOk(b: Books, now: int) {
    && PurchasesOk(b.plans, b.purchases)
    && QuotaOk(b.purchases, b.counters)
    && GrantsOk(b.purchases, b.grants)
    && ChainsOk(b.grants, b.subs, b.chains)
    && CacheOk(b.grants, b.subs, now)
  }

  lemma LaterBooks(b: Books, now: int, later: int)
    requires BooksOk(b, now) && now <= later
    ensures BooksOk(b, later)
  {
    forall m | m in b.subs ensures CacheAgrees(ChainRows(b.grants, m, b.subs[m].chain), b.subs[m], later) {
      assert CacheAgrees(ChainRows(b.grants, m, b.subs[m].chain), b.subs[m], now);
    }
  }

  // ---------------------------------------------------------------------------
  // Quota
  // ---------------------------------------------------------------------------

  lemma PendingIsReserved(b: Books, k: nat)
    requires QuotaOk(b.purchases, b.counters) && k < |b.purchases| && b.purchases[k].state.Pending?
    ensures ReservedCount(b.counters, b.purchases[k].buyer, b.purchases[k].plan) >= 1
    ensures (b.purchases[k].buyer, b.purchases[k].plan) in b.counters
  {
    var pu := b.purchases[k];
    SumBounds(b.purchases, k, PendingOf(pu.buyer, pu.plan));
    assert ReservedCount(b.counters, pu.buyer, pu.plan) == Sum(b.purchases, PendingOf(pu.buyer, pu.plan));
  }

  lemma ReserveQuota(b: Books, pu: Purchase)
    requires QuotaOk(b.purchases, b.counters) && pu.state.Pending?
    ensures var b' := Reserve(b, pu); QuotaOk(b'.purchases, b'.counters)
  {
    var b' := Reserve(b, pu);
    forall m, plan: nat
      ensures ReservedCount(b'.counters, m, plan) == Sum(b'.purchases, PendingOf(m, plan))
      ensures PaidCount(b'.counters, m, plan) == Sum(b'.purchases, PaidOf(m, plan))
    {
      SumAppend(b.purchases, pu, PendingOf(m, plan));
      SumAppend(b.purchases, pu, PaidOf(m, plan));
      assert ReservedCount(b.counters, m, plan) == Sum(b.purchases, PendingOf(m, plan));
    }
  }

  /** The clamp never binds: a pending purchase gives back the unit it really holds. */
  lemma CloseQuota(b: Books, k: nat, state: PurchaseState)
    requires QuotaOk(b.purchases, b.counters)
    requires k < |b.purchases| && b.purchases[k].state.Pending? && (state.Cancelled? || state.Expired?)
    ensures var b' := Close(b, k, state); QuotaOk(b'.purchases, b'.counters)
    ensures var pu := b.purchases[k];
            ReservedCount(Close(b, k, state).counters, pu.buyer, pu.plan)
            == ReservedCount(b.counters, pu.buyer, pu.plan) - 1
  {
    var b' := Close(b, k, state);
    var pu := b.purchases[k];
    PendingIsReserved(b, k);
    forall m, plan: nat
      ensures ReservedCount(b'.counters, m, plan) == Sum(b'.purchases, PendingOf(m, plan))
      ensures PaidCount(b'.counters, m, plan) == Sum(b'.purchases, PaidOf(m, plan))
    {
      SumUpdate(b.purchases, k, b'.purchases[k], PendingOf(m, plan));
      SumUpdate(b.purchases, k, b'.purchases[k], PaidOf(m, plan));
      assert ReservedCount(b.counters, m, plan) == Sum(b.purchases, PendingOf(m, plan));
    }
  }

  lemma SpentQuota(b: Books, k: nat, pu: Purchase)
    requires QuotaOk(b.purchases, b.counters) && k < |b.purchases| && b.purchases[k].state.Pending?
    requires pu.state.Paid? && pu.buyer == b.purchases[k].buyer && pu.plan == b.purchases[k].plan
    ensures var counters := Spent(b.counters, pu.buyer, pu.plan);
            && QuotaOk(b.purchases[k := pu], counters)
            && ReservedCount(counters, pu.buyer, pu.plan) == ReservedCount(b.counters, pu.buyer, pu.plan) - 1
            && PaidCount(counters, pu.buyer, pu.plan) == PaidCount(b.counters, pu.buyer, pu.plan) + 1
  {
    var purchases, counters := b.purchases[k := pu], Spent(b.counters, pu.buyer, pu.plan);
    PendingIsReserved(b, k);
    forall m, plan: nat
      ensures ReservedCount(counters, m, plan) == Sum(purchases, PendingOf(m, plan))
      ensures PaidCount(counters, m, plan) == Sum(purchases, PaidOf(m, plan))
    {
      SumUpdate(b.purchases, k, pu, PendingOf(m, plan));
      SumUpdate(b.purchases, k, pu, PaidOf(m, plan));
      assert ReservedCount(b.counters, m, plan) == Sum(b.purchases, PendingOf(m, plan));
    }
  }

  /** The clamp never binds: paying turns one reserved unit into one paid unit. */
  lemma FulfilQuota(b: Books, k: nat, at: int)
    requires QuotaOk(b.purchases, b.counters) && k < |b.purchases| && b.purchases[k].state.Pending?
    ensures var pu := b.purchases[k];
            var b' := Fulfil(b, k, at);
            && QuotaOk(b'.purchases, b'.counters)
            && ReservedCount(b'.counters, pu.buyer, pu.plan) == ReservedCount(b.counters, pu.buyer, pu.plan) - 1
            && PaidCount(b'.counters, pu.buyer, pu.plan) == PaidCount(b.counters, pu.buyer, pu.plan) + 1
  {
    SpentQuota(b, k, b.purchases[k].(state := Paid, paidAt := Some(at)));
  }

  lemma RefundQuota(b: Books, k: nat, i: nat, at: int)
    requires QuotaOk(b.purchases, b.counters)
    requires k < |b.purchases| && b.purchases[k].state.Paid? && i < |b.grants|
    ensures var b' := TakeBack(b, k, i, at); QuotaOk(b'.purchases, b'.counters)
  {
    var b' := TakeBack(b, k, i, at);
    forall m, plan: nat
      ensures ReservedCount(b'.counters, m, plan) == Sum(b'.purchases, PendingOf(m, plan))
      ensures PaidCount(b'.counters, m, plan) == Sum(b'.purchases, PaidOf(m, plan))
    {
      SumUpdate(b.purchases, k, b'.purchases[k], PendingOf(m, plan));
      SumUpdate(b.purchases, k, b'.purchases[k], PaidOf(m, plan));
      assert ReservedCount(b.counters, m, plan) == Sum(b.purchases, PendingOf(m, plan));
    }
  }

  // ---------------------------------------------------------------------------
  // Grants
  // ---------------------------------------------------------------------------

  lemma {:induction false} SameGrantCount(grants: seq<Grant>, grants': seq<Grant>, k: nat)
    requires |grants| == |grants'|
    requires forall i :: 0 <= i < |grants| ==> grants'[i].purchase == grants[i].purchase
    ensures Sum(grants', GrantOf(k)) == Sum(grants, GrantOf(k))
  {
    if grants != [] {
      SameGrantCount(grants[..|grants| - 1], grants'[..|grants| - 1], k);
    }
  }

  lemma {:induction false} FindGrantFinds(grants: seq<Grant>, k: nat)
    ensures FindGrant(grants, k).None? <==> Sum(grants, GrantOf(k)) == 0
  {
    SumNonNegative(grants, GrantOf(k));
    if grants != [] {
      SumNonNegative(grants[..|grants| - 1], GrantOf(k));
      FindGrantFinds(grants[..|grants| - 1], k);
    }
  }

  lemma {:induction false} SoleGrant(grants: seq<Grant>, i: nat, j: nat, k: nat)
    requires i < j < |grants| && grants[i].purchase == Some(k) && grants[j].purchase == Some(k)
    ensures Sum(grants, GrantOf(k)) >= 2
  {
    SumBounds(grants[..j], i, GrantOf(k));
    assert grants[..j + 1][..j] == grants[..j];
    assert Sum(grants[..j + 1], GrantOf(k)) >= 2;
    PrefixSum(grants, j + 1, k);
  }

  lemma {:induction false} PrefixSum(grants: seq<Grant>, n: nat, k: nat)
    requires n <= |grants|
    ensures Sum(grants[..n], GrantOf(k)) <= Sum(grants, GrantOf(k))
  {
    if n < |grants| {
      var front := grants[..|grants| - 1];
      PrefixSum(front, n, k);
      assert front[..n] == grants[..n];
    } else {
      assert grants[..n] == grants;
    }
  }

  /** Appending the grant of a purchase that just became paid, after voiding some others. */
  lemma FulfilGrants(purchases: seq<Purchase>, kept: seq<Grant>, grants: seq<Grant>, k: nat, g: Grant, at: int)
    requires GrantsOk(purchases, grants) && |kept| == |grants|
    requires forall i :: 0 <= i < |grants| ==>
               kept[i] == grants[i] || kept[i] == grants[i].(voidedAt := kept[i].voidedAt)
    requires k < |purchases| && purchases[k].state.Pending?
    requires g.purchase == Some(k) && g.fixedExpiry.None? && g.duration > 0
    requires g.merchant == purchases[k].buyer && g.snapshot == purchases[k].snapshot && g.refundedAt.None?
    ensures GrantsOk(purchases[k := purchases[k].(state := Paid, paidAt := Some(at))], kept + [g])
  {
    var purchases' := purchases[k := purchases[k].(state := Paid, paidAt := Some(at))];
    forall l: nat | l < |purchases'|
      ensures Sum(kept + [g], GrantOf(l)) == (if purchases'[l].EverPaid() then 1 else 0)
    {
      SameGrantCount(grants, kept, l);
      SumAppend(kept, g, GrantOf(l));
    }
  }

  // ---------------------------------------------------------------------------
  // The cache
  // ---------------------------------------------------------------------------

  lemma RecomputedAgrees(b: Books, m: int, c: nat, at: int)
    requires ActiveShape(ChainRows(b.grants, m, c), at)
    requires m in b.subs || Folded(ChainRows(b.grants, m, c)).expiry.Some?
    requires forall other :: other in b.subs && other != m ==>
               CacheAgrees(ChainRows(b.grants, other, b.subs[other].chain), b.subs[other], at)
    ensures var b' := Recomputed(b, m, c, at); CacheOk(b'.grants, b'.subs, at)
    ensures m in Recomputed(b, m, c, at).subs && Recomputed(b, m, c, at).subs[m].chain == c
  {
  }

  /** Other merchants' chains do not see what happens to the grants of `m`. */
  lemma OthersUndisturbed(grants: seq<Grant>, kept: seq<Grant>, added: seq<Grant>, subs: map<int, Subscription>,
                          m: int, now: int)
    requires CacheOk(grants, subs, now) && |kept| == |grants| && |added| <= 1
    requires forall i :: 0 <= i < |grants| ==> kept[i] == grants[i] || (grants[i].merchant == m && kept[i].merchant == m)
    requires forall i :: 0 <= i < |added| ==> added[i].merchant == m
    ensures forall other :: other in subs && other != m ==>
              CacheAgrees(ChainRows(kept + added, other, subs[other].chain), subs[other], now)
  {
    forall other | other in subs && other != m
      ensures CacheAgrees(ChainRows(kept + added, other, subs[other].chain), subs[other], now)
    {
      ChainRowsFrame(grants, kept, other, subs[other].chain);
      if added == [] {
        assert kept + added == kept;
      } else {
        assert added == [added[0]];
        ChainRowsAppend(kept, added[0], other, subs[other].chain);
      }
    }
  }

  lemma RenewalFold(rows: seq<Grant>, g: Grant, at: int)
    requires ActiveShape(rows, at) && Folded(rows).expiry == Some(g.effectiveAt) && g.effectiveAt > at
    ensures Folded(Inserted(rows, g)) == Extended(Folded(rows), g)
  {
    forall k | 0 <= k < |rows| && rows[k].Live() ensures rows[k].effectiveAt <= g.effectiveAt {
      FoldedCoversLive(rows, k);
    }
    FoldedInserted(rows, g);
  }

  lemma {:induction false} InsertedShape(rows: seq<Grant>, g: Grant)
    requires g.fixedExpiry.None? && g.duration > 0 && g.voidedAt.None?
    requires WellFormed(rows) && forall k :: 0 <= k < |rows| ==> rows[k].voidedAt.None?
    requires rows != [] && rows[0].fixedExpiry.Some? ==> rows[0].effectiveAt <= g.effectiveAt
    ensures var rows' := Inserted(rows, g);
            && WellFormed(rows')
            && (forall k :: 0 <= k < |rows'| ==> rows'[k].voidedAt.None?)
            && (rows'[0].fixedExpiry.Some? ==> rows != [] && rows'[0] == rows[0])
  {
    if rows != [] && rows[|rows| - 1].effectiveAt > g.effectiveAt {
      InsertedShape(rows[..|rows| - 1], g);
    }
  }

  lemma RenewalGapless(rows: seq<Grant>, g: Grant)
    requires rows != [] && (AllLive(rows) ==> Gapless(rows)) && WellFormed(rows)
    requires g.Live() && Folded(rows).expiry == Some(g.effectiveAt)
    requires forall k :: 0 <= k < |rows| && rows[k].Live() ==> rows[k].effectiveAt <= g.effectiveAt
    ensures AllLive(Inserted(rows, g)) ==> Gapless(Inserted(rows, g))
  {
    if AllLive(Inserted(rows, g)) {
      forall k | 0 <= k < |rows| ensures rows[k].Live() {
        assert rows[k] in multiset(rows);
        assert rows[k] in multiset(Inserted(rows, g));
      }
      assert rows[|rows| - 1].Live();
      GaplessAppend(rows, g);
    }
  }

  /** A renewal of a live chain: the new grant starts where the paid time ends, so it adds exactly
      its own duration. */
  lemma RenewalExtends(rows: seq<Grant>, sub: Subscription, g: Grant, at: int)
    requires CacheAgrees(rows, sub, at) && sub.expiresAt > at
    requires g.Live() && g.fixedExpiry.None? && g.duration > 0 && g.effectiveAt == sub.expiresAt
    ensures Folded(Inserted(rows, g)) == Extended(Folded(rows), g)
    ensures Extended(Folded(rows), g).expiry == Some(sub.expiresAt + g.duration)
    ensures Extended(Folded(rows), g).chosen == Some(g.snapshot)
    ensures ActiveShape(Inserted(rows, g), at)
  {
    RenewalFold(rows, g, at);
    RenewalShape(rows, g, at);
  }

  lemma RenewalShape(rows: seq<Grant>, g: Grant, at: int)
    requires ActiveShape(rows, at) && Folded(rows).expiry == Some(g.effectiveAt) && g.effectiveAt > at
    requires g.Live() && g.fixedExpiry.None? && g.duration > 0
    ensures ActiveShape(Inserted(rows, g), at)
  {
    forall k | 0 <= k < |rows| && rows[k].Live() ensures rows[k].effectiveAt <= g.effectiveAt {
      FoldedCoversLive(rows, k);
    }
    InsertedShape(rows, g);
    StackedInserted(rows, g);
    RenewalGapless(rows, g);
  }

  lemma SingleRow(g: Grant)
    requires g.Live() && (g.fixedExpiry.Some? || g.duration > 0)
    ensures Inserted([], g) == [g]
    ensures Folded([g]) == Extended(NOTHING, g)
    ensures Folded([g]).expiry == Some(OwnEnd(g)) && Folded([g]).chosen == Some(g.snapshot)
    ensures WellFormed([g]) && Gapless([g]) && Stacked([g])
  {
    FoldedAppend([], g);
    assert [] + [g] == [g];
  }

  /** A new grant on a new chain stands alone. */
  lemma FreshRows(b: Books, kept: seq<Grant>, g: Grant)
    requires ChainsOk(b.grants, b.subs, b.chains) && |kept| == |b.grants|
    requires forall i :: 0 <= i < |kept| ==> kept[i].chain == b.grants[i].chain
    requires g.chain == b.chains && g.Live() && (g.fixedExpiry.Some? || g.duration > 0)
    ensures ChainRows(kept + [g], g.merchant, g.chain) == [g]
  {
    UnusedChain(kept, g.merchant, g.chain);
    ChainRowsAppend(kept, g, g.merchant, g.chain);
    SingleRow(g);
  }

  /** A renewal of a grant by hand stays a grant by hand. */
  function RenewedSource(source: Source): Source {
    if source.ByManual? then ByManual else ByPurchase
  }

  lemma RenewedRows(b: Books, g: Grant, at: int)
    requires CacheOk(b.grants, b.subs, at) && g.merchant in b.subs
    requires b.subs[g.merchant].chain == g.chain && b.subs[g.merchant].expiresAt == g.effectiveAt > at
    requires g.Live() && g.fixedExpiry.None? && g.duration > 0
    ensures var rows := ChainRows(b.grants + [g], g.merchant, g.chain);
            && ActiveShape(rows, at)
            && Folded(rows).chosen == Some(g.snapshot)
            && Folded(rows).expiry == Some(g.effectiveAt + g.duration)
            && Folded(rows).source == RenewedSource(b.subs[g.merchant].source)
  {
    var rows := ChainRows(b.grants, g.merchant, g.chain);
    assert CacheAgrees(rows, b.subs[g.merchant], at);
    ChainRowsAppend(b.grants, g, g.merchant, g.chain);
    RenewalExtends(rows, b.subs[g.merchant], g, at);
  }

  /** The rows of the chain that a paid purchase continues or starts. */
  lemma FulfilRows(b: Books, k: nat, at: int)
    requires CacheOk(b.grants, b.subs, at) && ChainsOk(b.grants, b.subs, b.chains)
    requires k < |b.purchases| && b.purchases[k].snapshot.days >= 1
    ensures var g := BoughtGrant(b, k, at);
            var rows := ChainRows(Kept(b, k, at) + [g], g.merchant, g.chain);
            && ActiveShape(rows, at)
            && Folded(rows).chosen == Some(g.snapshot)
            && Folded(rows).expiry == Some(g.effectiveAt + g.duration)
            && Folded(rows).source == if Renews(b, b.purchases[k], at) then RenewedSource(b.subs[g.merchant].source) else ByPurchase
  {
    var g := BoughtGrant(b, k, at);
    if Renews(b, b.purchases[k], at) {
      RenewedRows(b, g, at);
    } else {
      FreshShape(b, Kept(b, k, at), g, at);
    }
  }

  lemma FreshShape(b: Books, kept: seq<Grant>, g: Grant, at: int)
    requires ChainsOk(b.grants, b.subs, b.chains) && |kept| == |b.grants|
    requires forall i :: 0 <= i < |kept| ==> kept[i].chain == b.grants[i].chain
    requires g.chain == b.chains && g.Live() && g.fixedExpiry.None? && g.duration > 0
    ensures var rows := ChainRows(kept + [g], g.merchant, g.chain);
            && ActiveShape(rows, at)
            && Folded(rows).chosen == Some(g.snapshot)
            && Folded(rows).expiry == Some(g.effectiveAt + g.duration)
            && Folded(rows).source.ByPurchase?
  {
    FreshRows(b, kept, g);
    SingleRow(g);
  }

  lemma FulfilCache(b: Books, k: nat, at: int)
    requires CacheOk(b.grants, b.subs, at) && ChainsOk(b.grants, b.subs, b.chains)
    requires k < |b.purchases| && b.purchases[k].snapshot.days >= 1
    ensures var b' := Fulfil(b, k, at); CacheOk(b'.grants, b'.subs, at)
  {
    var m := b.purchases[k].buyer;
    var g := BoughtGrant(b, k, at);
    var kept := Kept(b, k, at);
    FulfilRows(b, k, at);
    OthersUndisturbed(b.grants, kept, [g], b.subs, m, at);
    RecomputedAgrees(b.(grants := kept + [g]), m, g.chain, at);
  }

  lemma RecomputedRow(b: Books, m: int, c: nat, at: int)
    ensures var subs := Recomputed(b, m, c, at).subs;
            forall other :: other in subs ==>
              (other == m && subs[m].chain == c) || (other in b.subs && subs[other] == b.subs[other])
  {
  }

  lemma FulfilChains(b: Books, k: nat, at: int)
    requires ChainsOk(b.grants, b.subs, b.chains) && k < |b.purchases|
    ensures var b' := Fulfil(b, k, at); ChainsOk(b'.grants, b'.subs, b'.chains)
  {
    var granted := Granted(b, k, at);
    forall i | 0 <= i < |granted.grants| ensures granted.grants[i].chain < granted.chains {
      assert i < |b.grants| ==> granted.grants[i] == Kept(b, k, at)[i];
    }
    RecomputedRow(granted, b.purchases[k].buyer, BoughtGrant(b, k, at).chain, at);
  }

  /** A purchase bought as a renewal and paid before the entitlement ends moves the end by exactly the plan's
      duration, on the same chain; any other starts a chain of its own at the instant of payment. */
  lemma FulfilExtends(b: Books, k: nat, at: int)
    requires BooksOk(b, at) && k < |b.purchases| && b.purchases[k].state.Pending?
    ensures var pu := b.purchases[k];
            var b' := Fulfil(b, k, at);
            && pu.buyer in b'.subs
            && var sub := b'.subs[pu.buyer];
            && sub.snapshot == Some(pu.snapshot) && sub.plan == Some(pu.plan)
            && sub.revision == (if pu.buyer in b.subs then b.subs[pu.buyer].revision else 0) + 1
            && (if pu.kind.Renew? && pu.buyer in b.subs && b.subs[pu.buyer].expiresAt > at then
                  && sub.chain == b.subs[pu.buyer].chain
                  && (sub.source.ByManual? <==> b.subs[pu.buyer].source.ByManual?) && !sub.source.NoSource?
                  && sub.expiresAt == b.subs[pu.buyer].expiresAt + pu.snapshot.days * DAY
                else
                  && (forall i :: 0 <= i < |b.grants| ==> b.grants[i].chain != sub.chain)
                  && (forall other :: other in b.subs ==> b.subs[other].chain != sub.chain)
                  && sub.source.ByPurchase?
                  && sub.expiresAt == at + pu.snapshot.days * DAY)
            && (forall other :: other in b.subs && other != pu.buyer ==>
                  other in b'.subs && b'.subs[other] == b.subs[other])
  {
    hide QuotaOk, GrantsOk, CacheOk, ActiveShape;
    FulfilRows(b, k, at);
  }

  /** What fulfilling writes besides: the purchase as paid, its grant as the last row, and on a switch the end
      of the chain it replaces. No other row changes. */
  lemma FulfilWrites(b: Books, k: nat, at: int)
    requires BooksOk(b, at) && k < |b.purchases| && b.purchases[k].state.Pending?
    ensures var pu := b.purchases[k];
            var b' := Fulfil(b, k, at);
            && b'.plans == b.plans && b'.subs.Keys == b.subs.Keys + {pu.buyer}
            && b'.purchases == b.purchases[k := pu.(state := Paid, paidAt := Some(at))]
            && |b'.grants| == |b.grants| + 1
            && (forall i :: 0 <= i < |b.grants| ==>
                  b'.grants[i]
                  == if pu.kind.Switch? && pu.buyer in b.subs && b.grants[i].merchant == pu.buyer
                        && b.grants[i].chain == b.subs[pu.buyer].chain && b.grants[i].voidedAt.None?
                     then b.grants[i].(voidedAt := Some(at)) else b.grants[i])
            && pu.buyer in b'.subs
            && b'.grants[|b.grants|]
               == Grant(Some(k), pu.buyer, b'.subs[pu.buyer].chain, pu.kind, pu.snapshot.days * DAY,
                        b'.subs[pu.buyer].expiresAt - pu.snapshot.days * DAY, None, pu.snapshot, None, None)
  {
    FulfilRows(b, k, at);
  }

  lemma FulfilKeeps(b: Books, k: nat, at: int)
    requires BooksOk(b, at) && k < |b.purchases| && b.purchases[k].state.Pending?
    ensures BooksOk(Fulfil(b, k, at), at)
  {
    hide QuotaOk, GrantsOk, ChainsOk, CacheOk;
    FulfilQuota(b, k, at);
    FulfilGrants(b.purchases, Kept(b, k, at), b.grants, k, BoughtGrant(b, k, at), at);
    FulfilCache(b, k, at);
    FulfilChains(b, k, at);
    FulfilPurchases(b, k, at);
  }

  lemma FulfilPurchases(b: Books, k: nat, at: int)
    requires PurchasesOk(b.plans, b.purchases) && k < |b.purchases| && b.purchases[k].state.Pending?
    ensures var b' := Fulfil(b, k, at); PurchasesOk(b'.plans, b'.purchases)
  {
  }

  lemma ReserveKeeps(b: Books, pu: Purchase, at: int)
    requires BooksOk(b, at) && pu.state.Pending? && pu.paidAt.None?
    requires pu.plan < |b.plans| && pu.snapshot.planId == pu.plan && pu.snapshot.days >= 1 && !pu.kind.Manual?
    requires forall k :: 0 <= k < |b.purchases| && b.purchases[k].state.Pending? ==> b.purchases[k].buyer != pu.buyer
    ensures BooksOk(Reserve(b, pu), at)
  {
    ReserveQuota(b, pu);
    NoGrantYet(b.grants, |b.purchases|, b.purchases);
  }

  lemma {:induction false} NoGrantYet(grants: seq<Grant>, k: nat, purchases: seq<Purchase>)
    requires k >= |purchases|
    requires forall i :: 0 <= i < |grants| && grants[i].purchase.Some? ==> grants[i].purchase.value < |purchases|
    ensures Sum(grants, GrantOf(k)) == 0
  {
    if grants != [] {
      NoGrantYet(grants[..|grants| - 1], k, purchases);
    }
  }

  lemma CloseKeeps(b: Books, k: nat, state: PurchaseState, at: int)
    requires BooksOk(b, at) && k < |b.purchases| && b.purchases[k].state.Pending?
    requires state.Cancelled? || state.Expired?
    ensures BooksOk(Close(b, k, state), at)
  {
    CloseQuota(b, k, state);
  }

  lemma OverrideCache(b: Books, m: int, snapshot: Snapshot, expiry: int, at: int)
    requires CacheOk(b.grants, b.subs, at) && ChainsOk(b.grants, b.subs, b.chains)
    ensures var b' := Override(b, m, snapshot, expiry, at);
            CacheOk(b'.grants, b'.subs, at) && ChainsOk(b'.grants, b'.subs, b'.chains)
  {
    var b' := Override(b, m, snapshot, expiry, at);
    var g := ManualGrant(m, b.chains, snapshot, expiry, at);
    var kept := Superseded(b, m, at);
    OthersUndisturbed(b.grants, kept, [g], b.subs, m, at);
    FreshRows(b, kept, g);
    SingleRow(g);
    assert CacheAgrees([g], b'.subs[m], at);
  }

  lemma OverrideKeeps(b: Books, m: int, snapshot: Snapshot, expiry: int, at: int)
    requires BooksOk(b, at)
    ensures BooksOk(Override(b, m, snapshot, expiry, at), at)
  {
    hide QuotaOk, CacheOk;
    var g := ManualGrant(m, b.chains, snapshot, expiry, at);
    var kept := Superseded(b, m, at);
    OverrideCache(b, m, snapshot, expiry, at);
    forall l: nat | l < |b.purchases| ensures Sum(kept + [g], GrantOf(l)) == Sum(b.grants, GrantOf(l)) {
      SameGrantCount(b.grants, kept, l);
      SumAppend(kept, g, GrantOf(l));
    }
  }

  // ---------------------------------------------------------------------------
  // Refund of a purchase
  // ---------------------------------------------------------------------------

  lemma RefundedShape(rows: seq<Grant>, rows': seq<Grant>, g: Grant, at: int)
    requires ActiveShape(rows, at) && RefundedSince(rows, rows') && g in rows' && g.refundedAt.Some?
    ensures ActiveShape(rows', at)
  {
    var k :| 0 <= k < |rows'| && rows'[k] == g;
    assert !rows'[k].Live();
    StackedRefunded(rows, rows');
  }

  lemma TakeBackRows(grants: seq<Grant>, i: nat, at: int)
    requires i < |grants| && grants[i].fixedExpiry.None?
    requires ActiveShape(ChainRows(grants, grants[i].merchant, grants[i].chain), at)
    ensures ActiveShape(ChainRows(grants[i := RefundedGrant(grants[i], at)], grants[i].merchant, grants[i].chain), at)
  {
    var m, c := grants[i].merchant, grants[i].chain;
    var g := RefundedGrant(grants[i], at);
    var grants' := grants[i := g];
    assert RefundedSince(grants, grants');
    ChainRowsRefunded(grants, grants', m, c);
    ChainRowsOrdered(grants', m, c);
    assert grants'[i] == g && g in grants';
    RefundedShape(ChainRows(grants, m, c), ChainRows(grants', m, c), g, at);
  }

  lemma TakeBackCache(b: Books, k: nat, i: nat, at: int)
    requires CacheOk(b.grants, b.subs, at) && ChainsOk(b.grants, b.subs, b.chains)
    requires k < |b.purchases| && i < |b.grants|
    requires b.grants[i].fixedExpiry.None? && b.grants[i].merchant == b.purchases[k].buyer
    ensures var b' := TakeBack(b, k, i, at);
            && CacheOk(b'.grants, b'.subs, at)
            && ChainsOk(b'.grants, b'.subs, b'.chains)
  {
    var m := b.purchases[k].buyer;
    if m in b.subs && b.subs[m].chain == b.grants[i].chain {
      ActiveTakeBack(b.(purchases := b.purchases[k := b.purchases[k].(state := Refunded)]), i, at);
    } else {
      InactiveTakeBack(b, i, at);
    }
  }

  lemma ActiveTakeBack(b: Books, i: nat, at: int)
    requires CacheOk(b.grants, b.subs, at) && i < |b.grants| && b.grants[i].fixedExpiry.None?
    requires b.grants[i].merchant in b.subs && b.subs[b.grants[i].merchant].chain == b.grants[i].chain
    ensures var b' := Recomputed(b.(grants := b.grants[i := RefundedGrant(b.grants[i], at)]),
                                 b.grants[i].merchant, b.grants[i].chain, at);
            CacheOk(b'.grants, b'.subs, at)
  {
    var m, chain := b.grants[i].merchant, b.grants[i].chain;
    var kept := b.grants[i := RefundedGrant(b.grants[i], at)];
    forall other | other in b.subs && other != m
      ensures CacheAgrees(ChainRows(kept, other, b.subs[other].chain), b.subs[other], at)
    {
      ChainRowsFrame(b.grants, kept, other, b.subs[other].chain);
    }
    assert CacheAgrees(ChainRows(b.grants, m, chain), b.subs[m], at);
    TakeBackRows(b.grants, i, at);
    RecomputedAgrees(b.(grants := kept), m, chain, at);
  }

  /** Refunding a grant outside every active chain changes no cached row's chain. */
  lemma InactiveTakeBack(b: Books, i: nat, at: int)
    requires CacheOk(b.grants, b.subs, at) && i < |b.grants|
    requires b.grants[i].merchant in b.subs ==> b.subs[b.grants[i].merchant].chain != b.grants[i].chain
    ensures CacheOk(b.grants[i := RefundedGrant(b.grants[i], at)], b.subs, at)
  {
    var kept := b.grants[i := RefundedGrant(b.grants[i], at)];
    forall m | m in b.subs ensures CacheAgrees(ChainRows(kept, m, b.subs[m].chain), b.subs[m], at) {
      assert CacheAgrees(ChainRows(b.grants, m, b.subs[m].chain), b.subs[m], at);
      ChainRowsFrame(b.grants, kept, m, b.subs[m].chain);
    }
  }

  lemma TakeBackGrants(b: Books, k: nat, i: nat, at: int)
    requires GrantsOk(b.purchases, b.grants) && k < |b.purchases| && b.purchases[k].state.Paid?
    requires i < |b.grants| && b.grants[i].purchase == Some(k)
    ensures var b' := TakeBack(b, k, i, at); GrantsOk(b'.purchases, b'.grants)
  {
    var b' := TakeBack(b, k, i, at);
    forall l: nat | l < |b'.purchases|
      ensures Sum(b'.grants, GrantOf(l)) == (if b'.purchases[l].EverPaid() then 1 else 0)
    {
      SameGrantCount(b.grants, b'.grants, l);
    }
    forall j | 0 <= j < |b.grants| && j != i ensures b.grants[j].purchase != Some(k) {
      if b.grants[j].purchase == Some(k) {
        SoleGrant(b.grants, if i < j then i else j, if i < j then j else i, k);
      }
    }
  }

  lemma TakeBackKeeps(b: Books, k: nat, i: nat, at: int)
    requires BooksOk(b, at) && k < |b.purchases| && b.purchases[k].state.Paid?
    requires i < |b.grants| && b.grants[i].purchase == Some(k)
    ensures BooksOk(TakeBack(b, k, i, at), at)
  {
    hide QuotaOk, ChainsOk, CacheOk;
    RefundQuota(b, k, i, at);
    TakeBackGrants(b, k, i, at);
    TakeBackCache(b, k, i, at);
  }

  /** A refund touches the entitlement only through the active chain, and never moves its end later
      than the larger of the old end and the instant of the refund. */
  lemma RefundEffect(b: Books, k: nat, i: nat, at: int)
    requires BooksOk(b, at) && k < |b.purchases| && b.purchases[k].state.Paid?
    requires i < |b.grants| && b.grants[i].purchase == Some(k)
    ensures var pu := b.purchases[k];
            var b' := TakeBack(b, k, i, at);
            && b'.subs.Keys == b.subs.Keys
            && (forall m :: m in b.subs && (m != pu.buyer || b.subs[m].chain != b.grants[i].chain) ==>
                  b'.subs[m] == b.subs[m])
            && (pu.buyer in b.subs ==>
                  b'.subs[pu.buyer].expiresAt <= Max(b.subs[pu.buyer].expiresAt, at)
                  && b'.subs[pu.buyer].chain == b.subs[pu.buyer].chain)
  {
    var pu := b.purchases[k];
    var m := pu.buyer;
    var kept := b.grants[i := RefundedGrant(b.grants[i], at)];
    if m in b.subs && b.subs[m].chain == b.grants[i].chain {
      var rows := ChainRows(b.grants, m, b.subs[m].chain);
      assert CacheAgrees(rows, b.subs[m], at);
      assert RefundedSince(b.grants, kept);
      ChainRowsRefunded(b.grants, kept, m, b.subs[m].chain);
      RefundNeverExtends(rows, ChainRows(kept, m, b.subs[m].chain));
    }
  }

  /** The grant that a refund takes back has its place among the rows of the active chain. */
  lemma RefundedPlace(b: Books, i: nat, m: int, at: int) returns (p: nat)
    requires CacheOk(b.grants, b.subs, at) && i < |b.grants| && b.grants[i].refundedAt.None?
    requires m in b.subs && b.grants[i].InChain(m, b.subs[m].chain)
    ensures var rows := ChainRows(b.grants, m, b.subs[m].chain);
            && p < |rows| && rows[p] == b.grants[i] && rows[p].Live()
            && WellFormed(rows) && Stacked(rows) && RowAgrees(b.subs[m], Folded(rows), at)
            && ChainRows(b.grants[i := RefundedGrant(b.grants[i], at)], m, b.subs[m].chain) == RefundedAt(rows, p, at)
  {
    var c := b.subs[m].chain;
    var g := RefundedGrant(b.grants[i], at);
    assert CacheAgrees(ChainRows(b.grants, m, c), b.subs[m], at);
    assert Differ(b.grants, b.grants[i := g], i, b.grants[i], g);
    p := ChainRowsReplaced(b.grants, b.grants[i := g], i, b.grants[i], g, m, c);
  }

  /** Where the entitlement ends after a refund on the active chain: where it ended, if a live grant comes
      after the refunded one, else where the live grant before it ends, or at once if there is none. */
  function EndAfterRefund(rows: seq<Grant>, p: nat, at: int): int
    requires p < |rows| && LastEnd(rows).Some?
  {
    if LastLive(rows) != Some(p) then LastEnd(rows).value
    else if LastEnd(rows[..p]).Some? then LastEnd(rows[..p]).value
    else at
  }

  /** What the recomputation writes after a refund, and when that takes back exactly the grant's own time. */
  lemma RefundMovesEnd(b: Books, k: nat, i: nat, at: int) returns (p: nat)
    requires BooksOk(b, at) && k < |b.purchases| && b.purchases[k].state.Paid?
    requires i < |b.grants| && b.grants[i].purchase == Some(k)
    requires var m := b.purchases[k].buyer; m in b.subs && b.subs[m].chain == b.grants[i].chain
    ensures var m := b.purchases[k].buyer;
            var rows := ChainRows(b.grants, m, b.subs[m].chain);
            && p < |rows| && rows[p] == b.grants[i] && rows[p].Live() && LastEnd(rows) == Some(b.subs[m].expiresAt)
            && TakeBack(b, k, i, at).subs[m].expiresAt == EndAfterRefund(rows, p, at)
            && (EndAfterRefund(rows, p, at) == b.subs[m].expiresAt - rows[p].duration
                <==> LastLive(rows) == Some(p)
                     && rows[p].effectiveAt == if LastEnd(rows[..p]).Some? then LastEnd(rows[..p]).value else at)
  {
    var m := b.purchases[k].buyer;
    p := RefundedPlace(b, i, m, at);
    var rows := ChainRows(b.grants, m, b.subs[m].chain);
    LiveEnds(rows, p);
    RefundMoves(rows, p, at);
  }

  /** What a refund writes; the quota stays used. */
  lemma RefundWrites(b: Books, k: nat, i: nat, at: int)
    requires k < |b.purchases| && i < |b.grants|
    ensures var b' := TakeBack(b, k, i, at);
            && b'.purchases == b.purchases[k := b.purchases[k].(state := Refunded)]
            && b'.grants == b.grants[i := RefundedGrant(b.grants[i], at)]
            && b'.grants[i].refundedAt.Some? && b'.counters == b.counters
  {
  }

  // ---------------------------------------------------------------------------
  // Time bought is time had
  // ---------------------------------------------------------------------------

  /** The entitlement never ends before the anchor of a live grant of the active chain plus all live
      time from that grant on; without refunds on the chain it ends exactly there. */
  lemma PaidTimeIsConserved(b: Books, m: int, now: int)
    requires BooksOk(b, now) && m in b.subs
    ensures var rows := ChainRows(b.grants, m, b.subs[m].chain);
            && rows != []
            && (LastLive(rows).Some? ==> b.subs[m].expiresAt == OwnEnd(rows[LastLive(rows).value]))
            && (forall k :: 0 <= k < |rows| && rows[k].Live() ==>
                  EndFrom(rows, k) <= b.subs[m].expiresAt)
            && (AllLive(rows) ==> b.subs[m].expiresAt == EndFrom(rows, 0))
  {
    var rows := ChainRows(b.grants, m, b.subs[m].chain);
    assert CacheAgrees(rows, b.subs[m], now);
    ClosedForm(rows);
    StackedEnd(rows);
    if AllLive(rows) {
      GaplessEnd(rows);
    }
  }
}
