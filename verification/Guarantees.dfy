/** What the service promises, over every reachable state and every run. */
module Guarantees {
  import opened Base
  import opened Allocation
  import P = Payment
  import B = Ledger
  import E = Entitlement
  import Effects
  import opened System
  import opened Steps
  import opened Runs

  // ---------------------------------------------------------------------------
  // Subscriptions
  // ---------------------------------------------------------------------------

  /** The cached subscription of a merchant is the fold of the live grants of its active chain in
      (effective_at, id) order, for what the last of them was bought for, or is cleared when none is live. */
  lemma CacheIsLedger(s: State, m: int)
    requires Reachable(s) && m in s.books.subs
    ensures var sub := s.books.subs[m];
            var rows := E.ChainRows(s.books.grants, m, sub.chain);
            && E.Ordered(rows)
            && (forall g :: g in rows <==> g in s.books.grants && g.InChain(m, sub.chain))
            && (forall g :: g in rows ==> g.voidedAt.None?)
            && if exists k :: 0 <= k < |rows| && rows[k].Live() then
                 && E.Folded(rows).expiry == Some(sub.expiresAt)
                 && E.Folded(rows).chosen == sub.snapshot
                 && sub.snapshot.Some? && sub.plan == Some(sub.snapshot.value.planId)
                 && (forall k :: 0 <= k < |rows| && rows[k].Live() && (forall j :: k < j < |rows| ==> !rows[j].Live()) ==>
                       sub.snapshot == Some(rows[k].snapshot))
                 && (sub.source == E.Folded(rows).source || (sub.source.NoSource? && sub.expiresAt <= s.now))
               else
                 sub.plan.None? && sub.snapshot.None? && sub.source.NoSource? && sub.expiresAt <= s.now
  {
    ReachableOk(s);
    var rows := E.ChainRows(s.books.grants, m, s.books.subs[m].chain);
    assert B.CacheAgrees(rows, s.books.subs[m], s.now);
    E.ChainRowsOrdered(s.books.grants, m, s.books.subs[m].chain);
    E.ClosedForm(rows);
    E.ChosenIsLast(rows);
    E.LastLiveIs(rows);
  }

  /** The entitlement ends exactly where the last live grant of the active chain on its own would, no
      earlier than the start of any live grant plus all live time from it on, and exactly at the chain's
      start plus the time bought when nothing on the chain was refunded. */
  lemma PaidTimeIsHad(s: State, m: int)
    requires Reachable(s) && m in s.books.subs
    ensures var rows := E.ChainRows(s.books.grants, m, s.books.subs[m].chain);
            && rows != []
            && (E.LastLive(rows).Some? ==> s.books.subs[m].expiresAt == E.OwnEnd(rows[E.LastLive(rows).value]))
            && (forall k :: 0 <= k < |rows| && rows[k].Live() ==>
                  E.EndFrom(rows, k) <= s.books.subs[m].expiresAt)
            && (E.AllLive(rows) ==> s.books.subs[m].expiresAt == E.EndFrom(rows, 0))
  {
    ReachableOk(s);
    B.PaidTimeIsConserved(s.books, m, s.now);
  }

  /** Paying a subscription order that was bought as a renewal, before the entitlement ends, keeps the chain and
      moves its end by exactly the plan's days; any other starts a fresh chain at the instant of payment. No
      other merchant is touched. */
  lemma PayingExtends(s: State, i: nat, ch: Channel, manual: bool, k: nat)
    requires Reachable(s) && MarkPaid(s, i, ch, manual).Ok? && !s.pay.orders[i].status.Paid?
    requires s.pay.orders[i].purchase == Some(k)
    ensures k < |s.books.purchases| && s.books.purchases[k].state.Pending?
    ensures var pu := s.books.purchases[k];
            var books := MarkPaid(s, i, ch, manual).value.books;
            && k < |books.purchases| && books.purchases[k].state.Paid?
            && pu.buyer in books.subs
            && var sub := books.subs[pu.buyer];
            && sub.snapshot == Some(pu.snapshot) && sub.plan == Some(pu.plan)
            && sub.revision == (if pu.buyer in s.books.subs then s.books.subs[pu.buyer].revision else 0) + 1
            && (if pu.kind.Renew? && pu.buyer in s.books.subs && s.books.subs[pu.buyer].expiresAt > s.now then
                  && sub.chain == s.books.subs[pu.buyer].chain
                  && (sub.source.ByManual? <==> s.books.subs[pu.buyer].source.ByManual?) && !sub.source.NoSource?
                  && sub.expiresAt == s.books.subs[pu.buyer].expiresAt + pu.snapshot.days * DAY
                else
                  && (forall j :: 0 <= j < |s.books.grants| ==> s.books.grants[j].chain != sub.chain)
                  && (forall other :: other in s.books.subs ==> s.books.subs[other].chain != sub.chain)
                  && sub.source.ByPurchase?
                  && sub.expiresAt == s.now + pu.snapshot.days * DAY)
            && (forall other :: other in s.books.subs && other != pu.buyer ==>
                  other in books.subs && books.subs[other] == s.books.subs[other])
  {
    ReachableOk(s);
    MarkPaidRoute(s, i, ch, manual);
    B.FulfilExtends(s.books, k, s.now);
  }

  /** Refunding a subscription order changes no entitlement but the one whose active chain holds the
      grant, and never moves that one's end later than the larger of its old end and now. */
  lemma RefundingNeverExtends(s: State, i: nat, k: nat)
    requires Reachable(s) && MarkRefunded(s, i).Ok? && s.pay.orders[i].purchase == Some(k)
    ensures k < |s.books.purchases| && s.books.purchases[k].state.Paid?
    ensures var g := B.FindGrant(s.books.grants, k);
            var buyer := s.books.purchases[k].buyer;
            var books := MarkRefunded(s, i).value.books;
            && g.Some?
            && books.purchases[k].state.Refunded? && books.grants[g.value].refundedAt.Some?
            && books.counters == s.books.counters
            && books.subs.Keys == s.books.subs.Keys
            && (forall m :: m in s.books.subs && (m != buyer || s.books.subs[m].chain != s.books.grants[g.value].chain) ==>
                  books.subs[m] == s.books.subs[m])
            && (buyer in s.books.subs ==>
                  books.subs[buyer].expiresAt <= E.Max(s.books.subs[buyer].expiresAt, s.now))
  {
    ReachableOk(s);
    MarkRefundedBooks(s, i);
    B.RefundWrites(s.books, k, B.FindGrant(s.books.grants, k).value, s.now);
    B.RefundEffect(s.books, k, B.FindGrant(s.books.grants, k).value, s.now);
  }

  /** Where a refund on the active chain moves the end, exactly: nowhere when a live grant comes after the
      refunded one, else to the end of the live grant before it, or to now if there is none. It takes back
      exactly the plan's duration when, and only when, no live grant comes after it and the live one before
      it ends where it starts. */
  lemma RefundingMovesEnd(s: State, i: nat, k: nat) returns (p: nat)
    requires Reachable(s) && MarkRefunded(s, i).Ok? && s.pay.orders[i].purchase == Some(k)
    requires k < |s.books.purchases| && B.FindGrant(s.books.grants, k).Some?
    requires var buyer := s.books.purchases[k].buyer;
             buyer in s.books.subs
             && s.books.subs[buyer].chain == s.books.grants[B.FindGrant(s.books.grants, k).value].chain
    ensures var buyer := s.books.purchases[k].buyer;
            var end := s.books.subs[buyer].expiresAt;
            var rows := E.ChainRows(s.books.grants, buyer, s.books.subs[buyer].chain);
            && p < |rows| && rows[p].purchase == Some(k) && rows[p].Live() && E.LastEnd(rows) == Some(end)
            && buyer in MarkRefunded(s, i).value.books.subs
            && var end' := MarkRefunded(s, i).value.books.subs[buyer].expiresAt;
            && end' == B.EndAfterRefund(rows, p, s.now)
            && (end' == end - rows[p].duration <==>
                  E.LastLive(rows) == Some(p)
                  && rows[p].effectiveAt == if E.LastEnd(rows[..p]).Some? then E.LastEnd(rows[..p]).value else s.now)
  {
    ReachableOk(s);
    MarkRefundedBooks(s, i);
    var g := B.FindGrant(s.books.grants, k).value;
    B.RefundEffect(s.books, k, g, s.now);
    p := B.RefundMovesEnd(s.books, k, g, s.now);
  }

  // ---------------------------------------------------------------------------
  // Purchases, orders and grants
  // ---------------------------------------------------------------------------

  /** A purchase is paid, or refunded, exactly when its order is; a cancelled one has an expired order;
      each purchase ever paid has exactly one grant, and no other purchase has any. */
  lemma PurchaseOrderGrantAgree(s: State, k: nat)
    requires Reachable(s) && k < |s.books.purchases|
    ensures var pu := s.books.purchases[k];
            && pu.order < |s.pay.orders|
            && var o := s.pay.orders[pu.order];
            && o.purchase == Some(k)
            && (o.status.Paid? <==> pu.state.Paid?)
            && (o.status.Refunded? <==> pu.state.Refunded?)
            && (pu.state.Cancelled? ==> o.status.Expired?)
            && o.original == pu.snapshot.price && o.allowed <= pu.snapshot.channels
            && (forall i :: 0 <= i < |s.pay.orders| && s.pay.orders[i].purchase == Some(k) ==> i == pu.order)
            && Sum(s.books.grants, B.GrantOf(k)) == (if pu.EverPaid() then 1 else 0)
            && (B.FindGrant(s.books.grants, k).Some? <==> pu.EverPaid())
  {
    ReachableOk(s);
    assert Linked(s.pay.orders, s.books.purchases, k, s.now);
    forall i | 0 <= i < |s.pay.orders| && s.pay.orders[i].purchase == Some(k)
      ensures i == s.books.purchases[k].order
    {
      assert BackLinked(s.pay.orders, s.books.purchases, i);
    }
    B.FindGrantFinds(s.books.grants, k);
  }

  /** A repeated or late payment never fulfils a purchase: paying again changes nothing, and an order
      whose purchase is cancelled, expired or past its deadline cannot be paid, not even by hand. */
  lemma NeverFulfilledTwice(s: State, i: nat, ch: Channel, manual: bool, k: nat)
    requires Reachable(s) && i < |s.pay.orders| && s.pay.orders[i].purchase == Some(k)
    ensures k < |s.books.purchases|
    ensures s.books.purchases[k].state.Paid? ==> MarkPaid(s, i, ch, manual) == Ok(s)
    ensures !s.books.purchases[k].state.Paid? && MarkPaid(s, i, ch, manual).Ok? ==>
              s.books.purchases[k].state.Pending? && s.now < s.books.purchases[k].expiresAt
  {
    ReachableOk(s);
    assert BackLinked(s.pay.orders, s.books.purchases, i);
    assert Linked(s.pay.orders, s.books.purchases, k, s.now);
  }

  // ---------------------------------------------------------------------------
  // What the calls that pay or refund may touch
  // ---------------------------------------------------------------------------

  /** No new row, no amount locked, and nothing paid that belongs to a banned merchant. */
  ghost predicate SettlesOnly(s: State, s': State) {
    && |s'.pay.orders| == |s.pay.orders|
    && |s'.books.purchases| == |s.books.purchases|
    && forall j :: 0 <= j < |s.pay.orders| ==> SettledProperly(s, s.pay.orders[j], s'.pay.orders[j])
  }

  predicate SettledProperly(s: State, o: P.Order, o': P.Order) {
    && o'.lockedAt == o.lockedAt
    && (o'.EverPaid() == o.EverPaid() || o.merchant !in s.pay.banned)
  }

  lemma MarkPaidSettles(s: State, i: nat, ch: Channel, manual: bool)
    requires StateOk(s) && MarkPaid(s, i, ch, manual).Ok? && s.pay.orders[i].merchant !in s.pay.banned
    ensures SettlesOnly(s, MarkPaid(s, i, ch, manual).value)
    ensures MarkPaid(s, i, ch, manual).value.commands == s.commands
  {
    if !s.pay.orders[i].status.Paid? {
      MarkPaidRoute(s, i, ch, manual);
      MarkPaidBooks(s, i, ch, manual);
    }
  }

  lemma IngestSettles(s: State, authorized: bool, r: P.Receipt, seen: int)
    requires StateOk(s) && Ingest(s, authorized, r, seen).Ok?
    ensures SettlesOnly(s, Ingest(s, authorized, r, seen).value.0)
    ensures Ingest(s, authorized, r, seen).value.0.commands == s.commands
  {
    if FindEvent(s.pay.receipts, r.merchant, r.eventId).None? && r.merchant !in s.pay.banned {
      var i := FirstMatch(s.pay.orders, r, seen);
      if i.Some? {
        MarkPaidSettles(s, i.value, r.channel, false);
      }
    }
  }

  lemma SupplementOnceSettles(s: State, m: int, i: nat, channel: Option<Channel>)
    requires StateOk(s) && i < |s.pay.orders| && s.pay.orders[i].merchant == m && SupplementOnce(s, m, i, channel).Ok?
    ensures SettlesOnly(s, SupplementOnce(s, m, i, channel).value)
    ensures SupplementOnce(s, m, i, channel).value.commands == s.commands
  {
    MarkPaidSettles(s, i, (if channel.Some? then channel else s.pay.orders[i].channel).value, true);
  }

  lemma RefundSettles(s: State, i: nat)
    requires StateOk(s) && MarkRefunded(s, i).Ok?
    ensures SettlesOnly(s, MarkRefunded(s, i).value)
    ensures MarkRefunded(s, i).value.commands == s.commands
  {
    MarkRefundedKeeps(s, i);
    QuietSettles(s, MarkRefunded(s, i).value);
  }

  predicate Opens(e: Event) {
    e.CreateEvent? || e.SelectEvent? || e.PurchaseEvent?
  }

  /** Every call but the three that open or price an order only settles. */
  lemma OthersSettle(s: State, e: Event)
    requires StateOk(s) && Apply(s, e).Ok? && !Opens(e)
    ensures SettlesOnly(s, Apply(s, e).value)
  {
    hide StateOk, SupplementOnce, MarkRefunded;
    if e.IngestEvent? {
      IngestSettles(s, e.authorized, e.r, e.seen);
    } else if e.SupplementEvent? {
      if SupplementOnce(s, e.m, e.i, e.channel).Ok? { SupplementOnceSettles(s, e.m, e.i, e.channel); }
    } else if e.RefundMarkEvent? {
      if MarkRefunded(s, e.i).Ok? { RefundSettles(s, e.i); }
    } else {
      ApplyQuietly(s, e);
      QuietSettles(s, Apply(s, e).value);
    }
  }

  lemma QuietSettles(s: State, s': State)
    requires Quiet(s, s')
    ensures SettlesOnly(s, s')
  {
    forall j | 0 <= j < |s.pay.orders| ensures SettledProperly(s, s.pay.orders[j], s'.pay.orders[j]) {
      assert SameMoney(s.pay.orders[j], s'.pay.orders[j]);
    }
  }

  // ---------------------------------------------------------------------------
  // Quota
  // ---------------------------------------------------------------------------

  ghost function QuotaUsed(s: State, m: int, plan: nat): int {
    B.PaidCount(s.books.counters, m, plan) + B.ReservedCount(s.books.counters, m, plan)
  }

  /** The counters count what they say, and the purchases behind them. */
  lemma QuotaCounts(s: State, m: int, plan: nat)
    requires Reachable(s)
    ensures B.ReservedCount(s.books.counters, m, plan) == Sum(s.books.purchases, B.PendingOf(m, plan))
    ensures B.PaidCount(s.books.counters, m, plan) == Sum(s.books.purchases, B.PaidOf(m, plan))
  {
    ReachableOk(s);
  }

  ghost function UsedBy(m: int, plan: nat): B.Purchase -> int {
    (pu: B.Purchase) => if (pu.state.Pending? || pu.EverPaid()) && pu.buyer == m && pu.plan == plan then 1 else 0
  }

  lemma {:induction false} UsedSum(purchases: seq<B.Purchase>, m: int, plan: nat)
    ensures Sum(purchases, UsedBy(m, plan))
            == Sum(purchases, B.PendingOf(m, plan)) + Sum(purchases, B.PaidOf(m, plan))
  {
    if purchases != [] {
      UsedSum(purchases[..|purchases| - 1], m, plan);
    }
  }

  lemma OneUseShrinks(pu: B.Purchase, pu': B.Purchase, m: int, plan: nat)
    requires PurchaseFollows(pu, pu')
    ensures UsedBy(m, plan)(pu') <= UsedBy(m, plan)(pu)
  {
  }

  lemma {:induction false} UsedShrinks(purchases: seq<B.Purchase>, purchases': seq<B.Purchase>, m: int, plan: nat)
    requires |purchases| == |purchases'|
    requires forall k :: 0 <= k < |purchases| ==> PurchaseFollows(purchases[k], purchases'[k])
    ensures Sum(purchases', UsedBy(m, plan)) <= Sum(purchases, UsedBy(m, plan))
  {
    if purchases != [] {
      var n := |purchases| - 1;
      UsedShrinks(purchases[..n], purchases'[..n], m, plan);
      OneUseShrinks(purchases[n], purchases'[n], m, plan);
    }
  }

  lemma UsedIsQuota(s: State, m: int, plan: nat)
    requires StateOk(s)
    ensures QuotaUsed(s, m, plan) == Sum(s.books.purchases, UsedBy(m, plan))
  {
    UsedSum(s.books.purchases, m, plan);
    assert B.ReservedCount(s.books.counters, m, plan) == Sum(s.books.purchases, B.PendingOf(m, plan));
  }

  /** One call takes quota only while the plan's limit leaves some. */
  lemma QuotaStep(s: State, c: Call, m: int, plan: nat)
    requires StateOk(s) && s.now <= c.at
    ensures var used, used' := QuotaUsed(s, m, plan), QuotaUsed(Next(s, c), m, plan);
            used' <= used
            || (&& used' == used + 1 && plan < |s.books.plans|
                && (s.books.plans[plan].limit.Some? ==> used < s.books.plans[plan].limit.value))
  {
    hide StateOk;
    var s0 := s.(now := c.at);
    TickKeeps(s, c.at);
    NextKeeps(s, c);
    UsedIsQuota(s, m, plan);
    UsedIsQuota(Next(s, c), m, plan);
    if Apply(s0, c.event).Ok? {
      if c.event.PurchaseEvent? {
        PurchaseUses(s0, c.event.env, c.event.c, m, plan);
      } else {
        OthersUseNothing(s0, c.event, m, plan);
      }
    }
  }

  lemma OthersUseNothing(s: State, e: Event, m: int, plan: nat)
    requires StateOk(s) && Apply(s, e).Ok? && !e.PurchaseEvent?
    ensures Sum(Apply(s, e).value.books.purchases, UsedBy(m, plan)) <= Sum(s.books.purchases, UsedBy(m, plan))
  {
    hide StateOk;
    ApplyKeeps(s, e);
    if !Opens(e) {
      OthersSettle(s, e);
    }
    UsedShrinks(s.books.purchases, Apply(s, e).value.books.purchases, m, plan);
  }

  lemma PurchaseUses(s: State, env: Env, c: PurchaseCommand, m: int, plan: nat)
    requires StateOk(s) && Purchase(s, env, c).Ok?
    ensures var used := Sum(s.books.purchases, UsedBy(m, plan));
            var used' := Sum(Purchase(s, env, c).value.books.purchases, UsedBy(m, plan));
            used' == used
            || (&& used' == used + 1 && plan < |s.books.plans|
                && (s.books.plans[plan].limit.Some? ==> used < s.books.plans[plan].limit.value))
  {
    if FindPurchase(s.books.purchases, c.buyer, c.key).None? {
      var purchases' := Purchase(s, env, c).value.books.purchases;
      var pu := purchases'[|s.books.purchases|];
      UsedIsQuota(s, m, plan);
      assert purchases' == s.books.purchases + [pu];
      SumAppend(s.books.purchases, pu, UsedBy(m, plan));
    }
  }

  ghost predicate LimitHolds(s: State, plan: nat, limit: int) {
    plan < |s.books.plans| && s.books.plans[plan].limit.Some? && s.books.plans[plan].limit.value <= limit
  }

  /** As long as a plan is never offered above `limit`, no merchant's purchases exceed it. */
  lemma {:induction false} QuotaIsNeverExceeded(s: State, trace: seq<Call>, m: int, plan: nat, limit: int)
    requires Reachable(s) && Timely(s.now, trace) && QuotaUsed(s, m, plan) <= limit
    requires forall n :: 0 <= n <= |trace| && plan < |Run(s, trace[..n]).books.plans| ==>
               LimitHolds(Run(s, trace[..n]), plan, limit)
    ensures QuotaUsed(Run(s, trace), m, plan) <= limit
  {
    if trace != [] {
      var n := |trace| - 1;
      var front := trace[..n];
      TimelyPrefix(s.now, trace);
      forall j | 0 <= j <= |front| && plan < |Run(s, front[..j]).books.plans|
        ensures LimitHolds(Run(s, front[..j]), plan, limit)
      {
        assert front[..j] == trace[..j];
      }
      QuotaIsNeverExceeded(s, front, m, plan, limit);
      QuotaAfterStep(s, front, trace[n], m, plan, limit);
    }
  }

  lemma QuotaAfterStep(s: State, trace: seq<Call>, c: Call, m: int, plan: nat, limit: int)
    requires Reachable(s) && Timely(s.now, trace) && EndTime(s.now, trace) <= c.at
    requires QuotaUsed(Run(s, trace), m, plan) <= limit
    requires plan < |Run(s, trace).books.plans| ==> LimitHolds(Run(s, trace), plan, limit)
    ensures QuotaUsed(Next(Run(s, trace), c), m, plan) <= limit
  {
    ReachableOk(s);
    RunKeeps(s, trace);
    QuotaStep(Run(s, trace), c, m, plan);
  }

  // ---------------------------------------------------------------------------
  // Payments
  // ---------------------------------------------------------------------------

  /** No ambiguous payment: two live orders of a merchant never ask for the same cents on a channel,
      and a receipt has at most one order to pay, whichever instant the match is made at. */
  lemma NoAmbiguousPayment(s: State, i: nat, j: nat, r: P.Receipt, seen: int)
    requires Reachable(s) && i < |s.pay.orders| && j < |s.pay.orders|
    ensures (&& s.pay.orders[i].status.Pending? && s.pay.orders[j].status.Pending?
             && s.pay.orders[i].channel.Some? && s.pay.orders[i].merchant == s.pay.orders[j].merchant
             && s.pay.orders[i].channel == s.pay.orders[j].channel
             && s.pay.orders[i].actual == s.pay.orders[j].actual)
            ==> i == j
    ensures P.Matches(s.pay.orders[j], r, seen) ==> FirstMatch(s.pay.orders, r, seen) == Some(j)
    ensures Effects.Fits(s.pay.orders[j], r, seen) ==> FirstMatch(s.pay.orders, r, seen) == Some(j)
  {
    ReachableOk(s);
    Effects.FitsIs(s, r, seen, j);
    P.NoAmbiguousPayment(s.pay, s.now, i, j, r, seen);
    var first := FirstMatch(s.pay.orders, r, seen);
    if first.Some? {
      P.NoAmbiguousPayment(s.pay, s.now, first.value, j, r, seen);
    }
  }

  ghost predicate PaidBy(s: State, i: nat, k: nat)
    requires i < |s.pay.orders| && k < |s.pay.receipts|
  {
    s.pay.receipts[k].order == Some(i) && P.Settles(s.pay.orders[i], s.pay.receipts[k])
  }

  /** Matched receipts and automatically paid orders are in bijection, with equal merchant, channel and
      cents and the payment made while the amount was locked; so both sides sum to the same cents. */
  lemma ReceiptsAndPaymentsBiject(s: State)
    requires Reachable(s)
    ensures forall k :: 0 <= k < |s.pay.receipts| && s.pay.receipts[k].order.Some? ==>
              s.pay.receipts[k].order.value < |s.pay.orders| && PaidBy(s, s.pay.receipts[k].order.value, k)
    ensures forall i :: 0 <= i < |s.pay.orders| && s.pay.orders[i].AutoPaid() ==>
              exists k :: 0 <= k < |s.pay.receipts| && PaidBy(s, i, k)
    ensures forall i, k, l | 0 <= i < |s.pay.orders| && 0 <= k < |s.pay.receipts| && 0 <= l < |s.pay.receipts| ::
              PaidBy(s, i, k) && PaidBy(s, i, l) ==> k == l
    ensures forall m :: Sum(s.pay.orders, P.AutoPaidCents(m)) == Sum(s.pay.receipts, P.MatchedCents(m))
  {
    ReachableOk(s);
    forall i | 0 <= i < |s.pay.orders| && s.pay.orders[i].AutoPaid()
      ensures exists k :: 0 <= k < |s.pay.receipts| && PaidBy(s, i, k)
    {
      assert P.HasReceipt(s.pay.receipts, i);
      var k :| 0 <= k < |s.pay.receipts| && s.pay.receipts[k].order == Some(i);
      assert PaidBy(s, i, k);
    }
  }

  /** The first answer to an event gives a reason that is not the stored one: the event is new, and its
      merchant is banned, or nothing matches and an overdue pending order asks for the amount. */
  predicate ReasonIsLost(s: State, r: P.Receipt, seen: int) {
    && FindEvent(s.pay.receipts, r.merchant, r.eventId).None?
    && (r.merchant in s.pay.banned
        || (FirstMatch(s.pay.orders, r, seen).None? && LateOrder(s.pay.orders, r, seen)))
  }

  lemma ReasonGuards(s: State, r: P.Receipt, seen: int)
    requires Ingest(s, true, r, seen).Ok?
    ensures var reason := Ingest(s, true, r, seen).value.1.reason;
            reason.BannedMerchant? || reason.ExpiredOrder? <==> ReasonIsLost(s, r, seen)
  {
  }

  lemma ResentAnswer(s: State, r: P.Receipt, seen: int, trace: seq<Call>, seen': int)
    requires Reachable(s) && Ingest(s, true, r, seen).Ok?
    requires Timely(s.now, trace)
    ensures var (s1, reply) := Ingest(s, true, r, seen).value;
            var s2 := Run(s1, trace);
            && Ingest(s2, true, r, seen').Ok?
            && var (s3, reply') := Ingest(s2, true, r, seen').value;
            && s3 == s2
            && reply'.duplicate
            && reply'.receipt == reply.receipt && reply'.trade == reply.trade
            && (reply'.reason.Matched? <==> reply.reason.Matched?)
            && (reply'.reason == reply.reason <==> !reply.reason.BannedMerchant? && !reply.reason.ExpiredOrder?)
  {
    ReachableOk(s);
    IngestKeeps(s, true, r, seen);
    var (s1, reply) := Ingest(s, true, r, seen).value;
    StoredReceipt(s, r, seen);
    RunKeeps(s1, trace);
    var s2 := Run(s1, trace);
    assert s2.pay.receipts[reply.receipt] == s1.pay.receipts[reply.receipt];
    FoundAgain(s2.pay.orders, s2.pay.receipts, r.merchant, r.eventId, reply.receipt);
  }

  /** Resending an event at any later time changes nothing and answers with the same receipt, match and
      order. Only the reason of an unmatched one may differ, as it is stored as `no_matching_order`. */
  lemma ResentReceipt(s: State, r: P.Receipt, seen: int, trace: seq<Call>, seen': int)
    requires Reachable(s) && Ingest(s, true, r, seen).Ok?
    requires Timely(s.now, trace)
    ensures var (s1, reply) := Ingest(s, true, r, seen).value;
            var s2 := Run(s1, trace);
            && Ingest(s2, true, r, seen').Ok?
            && var (s3, reply') := Ingest(s2, true, r, seen').value;
            && s3 == s2
            && reply'.duplicate
            && reply'.receipt == reply.receipt && reply'.trade == reply.trade
            && (reply'.reason.Matched? <==> reply.reason.Matched?)
            && (reply'.reason != reply.reason <==> ReasonIsLost(s, r, seen))
  {
    ResentAnswer(s, r, seen, trace, seen');
    ReasonGuards(s, r, seen);
  }

  /** What is stored about an ingested event. */
  lemma StoredReceipt(s: State, r: P.Receipt, seen: int)
    requires StateOk(s) && Ingest(s, true, r, seen).Ok?
    ensures var (s1, reply) := Ingest(s, true, r, seen).value;
            && reply.receipt < |s1.pay.receipts|
            && var stored := s1.pay.receipts[reply.receipt];
            && stored.merchant == r.merchant && stored.eventId == r.eventId && stored.digest == r.digest
            && stored.order == reply.trade && (reply.reason.Matched? <==> reply.trade.Some?)
  {
    if FindEvent(s.pay.receipts, r.merchant, r.eventId).None? && r.merchant !in s.pay.banned {
      var i := FirstMatch(s.pay.orders, r, seen);
      if i.Some? {
        MarkPaidRoute(s, i.value, r.channel, false);
      }
    }
  }

  lemma FoundAgain(orders: seq<P.Order>, receipts: seq<P.Receipt>, m: int, eventId: string, k: nat)
    requires P.ReceiptsOk(orders, receipts)
    requires k < |receipts| && receipts[k].merchant == m && receipts[k].eventId == eventId
    ensures FindEvent(receipts, m, eventId) == Some(k)
  {
    assert FindEvent(receipts, m, eventId).Some?;
  }

  /** The life of an order over any run: pending, then paid or expired; expired, then paid only by hand;
      paid, then refunded. Price, deadline and, once set, channel and amount never change. */
  lemma OrderLife(s: State, trace: seq<Call>, i: nat)
    requires Reachable(s) && Timely(s.now, trace) && i < |s.pay.orders|
    ensures i < |Run(s, trace).pay.orders|
    ensures P.Descends(s.pay.orders[i], Run(s, trace).pay.orders[i])
  {
    ReachableOk(s);
    RunKeeps(s, trace);
  }

  /** Channel and amount are set together, inside the allowed channels, within 9.99 of the price, and
      an order has at most one pending refund, while paid, and one completed refund, once refunded. */
  lemma OrderTerms(s: State, i: nat)
    requires Reachable(s) && i < |s.pay.orders|
    ensures var o := s.pay.orders[i];
            && o.channel.Some? == o.actual.Some? == o.offset.Some?
            && (o.channel.Some? ==>
                  && o.channel.value in o.allowed && o.offset.value == o.actual.value - o.original
                  && -999 <= o.offset.value <= 999)
            && (o.EverPaid() <==> o.paidAt.Some?) && (o.EverPaid() ==> o.channel.Some?)
    ensures forall k, l :: 0 <= k < l < |s.pay.refunds| && s.pay.refunds[k].order == i && s.pay.refunds[l].order == i
              ==> s.pay.refunds[k].status.RefundRejected? || s.pay.refunds[k].status != s.pay.refunds[l].status
    ensures forall k :: 0 <= k < |s.pay.refunds| && s.pay.refunds[k].order == i ==>
              && (s.pay.refunds[k].status.RefundPending? ==> s.pay.orders[i].status.Paid?)
              && (s.pay.refunds[k].status.RefundCompleted? ==> s.pay.orders[i].status.Refunded?)
  {
    ReachableOk(s);
    assert P.OrderOk(s.pay.orders[i], s.now);
  }

  // ---------------------------------------------------------------------------
  // Quarantine
  // ---------------------------------------------------------------------------

  predicate SameAsk(o: P.Order, o': P.Order) {
    o.merchant == o'.merchant && o.channel.Some? && o.channel == o'.channel && o.actual == o'.actual
  }

  predicate Unlocked(orders: seq<P.Order>, j: nat) {
    j >= |orders| || orders[j].lockedAt.None?
  }

  lemma OthersLockNothing(s: State, e: Event, j: nat)
    requires StateOk(s) && Apply(s, e).Ok? && !Opens(e) && Unlocked(s.pay.orders, j)
    ensures Unlocked(Apply(s, e).value.pay.orders, j)
  {
    OthersSettle(s, e);
    if j < |s.pay.orders| {
      assert SettledProperly(s, s.pay.orders[j], Apply(s, e).value.pay.orders[j]);
    }
  }

  lemma CreateLocks(s: State, env: Env, m: int, outTradeNo: string, original: int, ch: Channel, ttl: Option<int>, i: nat)
    requires StateOk(s) && Create(s, env, m, outTradeNo, original, Some(ch), ttl).Ok?
    requires i < |s.pay.orders|
    requires SameAsk(s.pay.orders[i], Create(s, env, m, outTradeNo, original, Some(ch), ttl).value.pay.orders[|s.pay.orders|])
    ensures s.pay.orders[i].EverPaid() || (s.pay.orders[i].status.Expired? && s.pay.orders[i].expiresAt + DAY <= s.now)
  {
    var s' := Create(s, env, m, outTradeNo, original, Some(ch), ttl).value;
    var o := s'.pay.orders[|s.pay.orders|].(channel := None, actual := None, offset := None, lockedAt := None);
    var channels := Eligible(s, env, m, original).value * env.qr;
    assert P.FreshOrder(s.pay, o, s.now);
    P.AddOrderKeeps(s.pay, o, s.now);
    var pay := P.AddOrder(s.pay, o);
    var cents := FreeAmount(s, env, m, ch, original).value;
    FreeAmountIsFree(s, env, m, ch, original);
    P.LockRespectsQuarantine(pay, |s.pay.orders|, ch, cents, s.now, i);
  }

  lemma SelectLocks(s: State, env: Env, j: nat, ch: Channel, i: nat)
    requires StateOk(s) && SelectChannel(s, env, j, ch).Ok? && s.pay.orders[j].lockedAt.None?
    requires i < |s.pay.orders| && SameAsk(s.pay.orders[i], SelectChannel(s, env, j, ch).value.pay.orders[j])
    ensures s.pay.orders[i].EverPaid() || (s.pay.orders[i].status.Expired? && s.pay.orders[i].expiresAt + DAY <= s.now)
  {
    var o := s.pay.orders[j];
    assert P.OrderOk(o, s.now);
    var cents := FreeAmount(s, env, o.merchant, ch, o.original).value;
    FreeAmountIsFree(s, env, o.merchant, ch, o.original);
    P.LockRespectsQuarantine(s.pay, j, ch, cents, s.now, i);
  }

  /** An amount is locked by opening an order with a channel or by choosing one. */
  lemma WhoLocks(s: State, e: Event, j: nat)
    requires Apply(s, e).Ok? && Opens(e) && Unlocked(s.pay.orders, j)
    requires j < |Apply(s, e).value.pay.orders| && Apply(s, e).value.pay.orders[j].lockedAt.Some?
    ensures (e.CreateEvent? && e.channel.Some? && j == |s.pay.orders|) || (e.SelectEvent? && e.i == j < |s.pay.orders|)
    ensures Apply(s, e).value.pay.orders[j].lockedAt == Some(s.now)
  {
  }

  /** The call that locks an amount finds every earlier holder paid, or expired and a day past its deadline. */
  lemma LockingCall(s: State, e: Event, i: nat, j: nat)
    requires StateOk(s) && Apply(s, e).Ok? && i < |s.pay.orders| && i != j
    requires var orders := Apply(s, e).value.pay.orders;
             j < |orders| && orders[j].lockedAt.Some? && Unlocked(s.pay.orders, j) && SameAsk(s.pay.orders[i], orders[j])
    ensures Apply(s, e).value.pay.orders[j].lockedAt == Some(s.now)
    ensures s.pay.orders[i].EverPaid() || (s.pay.orders[i].status.Expired? && s.pay.orders[i].expiresAt + DAY <= s.now)
  {
    if Opens(e) {
      WhoLocks(s, e, j);
      if e.CreateEvent? {
        CreateLocks(s, e.env, e.m, e.outTradeNo, e.original, e.channel.value, e.ttl, i);
      } else {
        SelectLocks(s, e.env, j, e.ch, i);
      }
    } else {
      OthersLockNothing(s, e, j);
    }
  }

  lemma LockingStep(s: State, c: Call, i: nat, j: nat)
    requires StateOk(s) && s.now <= c.at && i < |s.pay.orders| && i != j
    requires var orders := Next(s, c).pay.orders;
             j < |orders| && orders[j].lockedAt.Some? && Unlocked(s.pay.orders, j) && SameAsk(s.pay.orders[i], orders[j])
    ensures Next(s, c).pay.orders[j].lockedAt == Some(c.at)
    ensures s.pay.orders[i].EverPaid() || (s.pay.orders[i].status.Expired? && s.pay.orders[i].expiresAt + DAY <= c.at)
  {
    TickKeeps(s, c.at);
    LockingCall(s.(now := c.at), c.event, i, j);
  }

  lemma RowOk(s: State, j: nat)
    requires StateOk(s) && j < |s.pay.orders|
    ensures P.OrderOk(s.pay.orders[j], s.now)
  {
  }

  /** Quarantine over any run: once an order that held an amount has expired (timed out, cancelled or
      banned), no order of the merchant gets that amount before a day past its deadline, unless the
      expired order was paid by hand. */
  lemma {:induction false} Quarantine(s: State, trace: seq<Call>, i: nat, j: nat)
    requires Reachable(s) && Timely(s.now, trace) && i < |s.pay.orders| && i != j
    requires s.pay.orders[i].status.Expired? && Unlocked(s.pay.orders, j)
    ensures i < |Run(s, trace).pay.orders|
    ensures var orders := Run(s, trace).pay.orders;
            j < |orders| && orders[j].lockedAt.Some? && SameAsk(s.pay.orders[i], orders[j]) ==>
              orders[i].EverPaid() || s.pay.orders[i].expiresAt + DAY <= orders[j].lockedAt.value
  {
    hide StateOk, Timely;
    ReachableOk(s);
    RunKeeps(s, trace);
    var orders := Run(s, trace).pay.orders;
    if trace != [] && j < |orders| && orders[j].lockedAt.Some? && SameAsk(s.pay.orders[i], orders[j]) {
      var n := |trace| - 1;
      TimelyPrefix(s.now, trace);
      var s1 := Run(s, trace[..n]);
      RunKeeps(s, trace[..n]);
      NextKeeps(s1, trace[n]);
      Quarantine(s, trace[..n], i, j);
      assert P.Descends(s.pay.orders[i], s1.pay.orders[i]);
      assert P.Follows(s1.pay.orders[i], orders[i]);
      if Unlocked(s1.pay.orders, j) {
        LockingStep(s1, trace[n], i, j);
      } else {
        RowOk(s1, j);
        assert P.Follows(s1.pay.orders[j], orders[j]);
      }
    }
  }

  // ---------------------------------------------------------------------------
  // Bans
  // ---------------------------------------------------------------------------

  /** A banned merchant owns no pending order. */
  lemma BannedOwnNothingPending(s: State, i: nat)
    requires Reachable(s) && i < |s.pay.orders| && s.pay.orders[i].merchant in s.pay.banned
    ensures !s.pay.orders[i].status.Pending?
  {
    ReachableOk(s);
  }

  /** No step pays an order of a banned merchant. */
  lemma BannedAreNotPaid(s: State, c: Call, i: nat)
    requires Reachable(s) && s.now <= c.at && i < |s.pay.orders| && s.pay.orders[i].merchant in s.pay.banned
    ensures i < |Next(s, c).pay.orders|
    ensures Next(s, c).pay.orders[i].EverPaid() <==> s.pay.orders[i].EverPaid()
  {
    ReachableOk(s);
    NextKeeps(s, c);
    var s0 := s.(now := c.at);
    TickKeeps(s, c.at);
    if Apply(s0, c.event).Ok? {
      if Opens(c.event) {
        OpeningPaysNothing(s0, c.event, i);
      } else {
        OthersSettle(s0, c.event);
        assert SettledProperly(s0, s0.pay.orders[i], Next(s, c).pay.orders[i]);
      }
    }
  }

  lemma OpeningPaysNothing(s: State, e: Event, i: nat)
    requires Apply(s, e).Ok? && Opens(e) && i < |s.pay.orders|
    ensures i < |Apply(s, e).value.pay.orders|
    ensures Apply(s, e).value.pay.orders[i].EverPaid() == s.pay.orders[i].EverPaid()
  {
  }

  // ---------------------------------------------------------------------------
  // At-most-once commands
  // ---------------------------------------------------------------------------

  lemma OpeningRecordsNothing(s: State, e: Event)
    requires Apply(s, e).Ok? && Opens(e)
    ensures Apply(s, e).value.commands == s.commands
  {
  }

  /** A recorded command stays recorded until its day is over. */
  lemma CommandKept(s: State, e: Event, key: CommandKey)
    requires StateOk(s) && Apply(s, e).Ok? && key in s.commands && s.now < s.commands[key].expiresAt
    ensures key in Apply(s, e).value.commands && Apply(s, e).value.commands[key] == s.commands[key]
  {
    hide StateOk, SupplementOnce, MarkRefunded;
    if Opens(e) {
      OpeningRecordsNothing(s, e);
    } else if e.IngestEvent? {
      IngestSettles(s, e.authorized, e.r, e.seen);
    } else if e.SupplementEvent? {
      if SupplementOnce(s, e.m, e.i, e.channel).Ok? { SupplementOnceSettles(s, e.m, e.i, e.channel); }
    } else if e.RefundMarkEvent? {
      if MarkRefunded(s, e.i).Ok? { RefundSettles(s, e.i); }
    } else {
      ApplyQuietly(s, e);
    }
  }

  lemma CommandStays(s: State, c: Call, key: CommandKey)
    requires StateOk(s) && s.now <= c.at && key in s.commands && c.at < s.commands[key].expiresAt
    ensures key in Next(s, c).commands && Next(s, c).commands[key] == s.commands[key]
  {
    TickKeeps(s, c.at);
    if Apply(s.(now := c.at), c.event).Ok? {
      CommandKept(s.(now := c.at), c.event, key);
    }
  }

  lemma {:induction false} CommandOutlivesRun(s: State, trace: seq<Call>, key: CommandKey)
    requires StateOk(s) && Timely(s.now, trace) && key in s.commands
    requires forall n :: 0 <= n < |trace| ==> trace[n].at < s.commands[key].expiresAt
    ensures key in Run(s, trace).commands && Run(s, trace).commands[key] == s.commands[key]
  {
    if trace != [] {
      var n := |trace| - 1;
      TimelyPrefix(s.now, trace);
      CommandOutlivesRun(s, trace[..n], key);
      RunKeeps(s, trace[..n]);
      CommandStays(Run(s, trace[..n]), trace[n], key);
    }
  }

  lemma FirstSupplement(s: State, m: int, i: nat, channel: Option<Channel>, key: string, digest: string)
    requires Reachable(s) && key != "" && Supplement(s, m, i, channel, key, digest).Ok?
    requires Begin(s.commands, CommandKey(m, SupplementRoute, key), digest, s.now) == Ok(false)
    ensures var s1 := Supplement(s, m, i, channel, key, digest).value;
            var command := CommandKey(m, SupplementRoute, key);
            && StateOk(s1) && s1.now == s.now && i < |s1.pay.orders| && s1.pay.orders[i].merchant == m
            && command in s1.commands && s1.commands[command] == CommandRecord(digest, s.now + DAY)
  {
    ReachableOk(s);
    SupplementKeeps(s, m, i, channel, key, digest);
    assert P.Follows(s.pay.orders[i], Supplement(s, m, i, channel, key, digest).value.pay.orders[i]);
  }

  lemma FirstRefundMark(s: State, m: int, i: nat, key: string, digest: string)
    requires Reachable(s) && key != "" && RefundMark(s, m, i, key, digest).Ok?
    requires Begin(s.commands, CommandKey(m, RefundMarkRoute, key), digest, s.now) == Ok(false)
    ensures var s1 := RefundMark(s, m, i, key, digest).value;
            var command := CommandKey(m, RefundMarkRoute, key);
            && StateOk(s1) && s1.now == s.now
            && command in s1.commands && s1.commands[command] == CommandRecord(digest, s.now + DAY)
  {
    ReachableOk(s);
    RefundMarkKeeps(s, m, i, key, digest);
  }

  /** A live record answers: the same digest as done, any other as a conflict. */
  lemma SupplementAnswered(s: State, e: Event, digest: string)
    requires e.SupplementEvent? && e.key != "" && KeyOk(e.key)
    requires var command := CommandKey(e.m, SupplementRoute, e.key);
             command in s.commands && s.commands[command].digest == digest && s.now < s.commands[command].expiresAt
    ensures e.digest != digest ==> Apply(s, e).Err?
    ensures e.digest == digest && e.i < |s.pay.orders| && s.pay.orders[e.i].merchant == e.m ==> Apply(s, e) == Ok(s)
  {
  }

  lemma RefundMarkAnswered(s: State, e: Event, digest: string)
    requires e.RefundMarkEvent? && e.key != "" && KeyOk(e.key)
    requires var command := CommandKey(e.m, RefundMarkRoute, e.key);
             command in s.commands && s.commands[command].digest == digest && s.now < s.commands[command].expiresAt
    ensures if e.digest == digest then Apply(s, e) == Ok(s) else Apply(s, e).Err?
  {
  }

  /** Once a supplement succeeded under a key, every submission under that key within 24 hours leaves
      the state alone: the same request is answered as done, one with another digest is refused. */
  lemma SupplementAtMostOnce(s: State, m: int, i: nat, channel: Option<Channel>, key: string, digest: string,
                             trace: seq<Call>, again: Call)
    requires Reachable(s) && key != "" && Supplement(s, m, i, channel, key, digest).Ok?
    requires Begin(s.commands, CommandKey(m, SupplementRoute, key), digest, s.now) == Ok(false)
    requires Timely(s.now, trace + [again]) && again.at < s.now + DAY
    requires again.event.SupplementEvent? && again.event.m == m && again.event.key == key
    ensures var s1 := Supplement(s, m, i, channel, key, digest).value;
            var s2 := Run(s1, trace).(now := again.at);
            && Next(Run(s1, trace), again) == s2
            && (again.event.digest == digest && again.event.i == i ==> Apply(s2, again.event) == Ok(s2))
            && (again.event.digest != digest ==> Apply(s2, again.event).Err?)
  {
    var s1 := Supplement(s, m, i, channel, key, digest).value;
    FirstSupplement(s, m, i, channel, key, digest);
    SubmittedAgain(s1, trace, again, CommandKey(m, SupplementRoute, key), s.now + DAY);
    var s2 := Run(s1, trace);
    assert P.Descends(s1.pay.orders[i], s2.pay.orders[i]);
    SupplementAnswered(s2.(now := again.at), again.event, digest);
  }

  /** The same for marking an order refunded. */
  lemma RefundMarkAtMostOnce(s: State, m: int, i: nat, key: string, digest: string, trace: seq<Call>, again: Call)
    requires Reachable(s) && key != "" && RefundMark(s, m, i, key, digest).Ok?
    requires Begin(s.commands, CommandKey(m, RefundMarkRoute, key), digest, s.now) == Ok(false)
    requires Timely(s.now, trace + [again]) && again.at < s.now + DAY
    requires again.event.RefundMarkEvent? && again.event.m == m && again.event.key == key
    ensures var s1 := RefundMark(s, m, i, key, digest).value;
            var s2 := Run(s1, trace).(now := again.at);
            && Next(Run(s1, trace), again) == s2
            && (again.event.digest == digest ==> Apply(s2, again.event) == Ok(s2))
            && (again.event.digest != digest ==> Apply(s2, again.event).Err?)
  {
    var s1 := RefundMark(s, m, i, key, digest).value;
    FirstRefundMark(s, m, i, key, digest);
    SubmittedAgain(s1, trace, again, CommandKey(m, RefundMarkRoute, key), s.now + DAY);
    RefundMarkAnswered(Run(s1, trace).(now := again.at), again.event, digest);
  }

  lemma SubmittedAgain(s: State, trace: seq<Call>, again: Call, key: CommandKey, until: int)
    requires StateOk(s) && Timely(s.now, trace + [again]) && again.at < until
    requires key in s.commands && s.commands[key].expiresAt == until
    ensures StateOk(Run(s, trace)) && History(s, Run(s, trace)) && Run(s, trace).now <= again.at
    ensures key in Run(s, trace).commands && Run(s, trace).commands[key] == s.commands[key]
  {
    var all := trace + [again];
    assert all[|trace|] == again;
    assert forall n :: 0 <= n < |trace| ==> all[n] == trace[n];
    RunKeeps(s, trace);
    CommandOutlivesRun(s, trace, key);
  }

  // ---------------------------------------------------------------------------
  // Purchases are made once
  // ---------------------------------------------------------------------------

  lemma {:induction false} FoundStays(purchases: seq<B.Purchase>, purchases': seq<B.Purchase>, buyer: int, key: string)
    requires |purchases'| == |purchases|
    requires forall k :: 0 <= k < |purchases| ==>
               purchases'[k].buyer == purchases[k].buyer && purchases'[k].key == purchases[k].key
    ensures FindPurchase(purchases', buyer, key) == FindPurchase(purchases, buyer, key)
  {
    if purchases != [] {
      var n := |purchases| - 1;
      FoundStays(purchases[..n], purchases'[..n], buyer, key);
    }
  }

  /** Whether the buyer's key is known, and with which request. */
  predicate Known(s: State, buyer: int, key: string, digest: string) {
    var found := FindPurchase(s.books.purchases, buyer, key);
    found.Some? && s.books.purchases[found.value].digest == digest
  }

  lemma PurchaseMade(s: State, env: Env, c: PurchaseCommand)
    requires Purchase(s, env, c).Ok?
    ensures Known(Purchase(s, env, c).value, c.buyer, c.key, c.digest)
  {
    if FindPurchase(s.books.purchases, c.buyer, c.key).None? {
      var purchases := Purchase(s, env, c).value.books.purchases;
      assert purchases[|purchases| - 1].key == c.key && purchases[|purchases| - 1].buyer == c.buyer;
    }
  }

  /** Another purchase never hides a known one. */
  lemma PurchaseKnown(s: State, env: Env, c: PurchaseCommand, buyer: int, key: string, digest: string)
    requires Purchase(s, env, c).Ok? && Known(s, buyer, key, digest)
    ensures Known(Purchase(s, env, c).value, buyer, key, digest)
  {
    if FindPurchase(s.books.purchases, c.buyer, c.key).None? {
      var purchases := Purchase(s, env, c).value.books.purchases;
      assert purchases[..|purchases| - 1] == s.books.purchases;
    }
  }

  lemma KnownStays(s: State, e: Event, buyer: int, key: string, digest: string)
    requires StateOk(s) && Apply(s, e).Ok? && Known(s, buyer, key, digest)
    ensures Known(Apply(s, e).value, buyer, key, digest)
  {
    if e.PurchaseEvent? {
      PurchaseKnown(s, e.env, e.c, buyer, key, digest);
    } else {
      var s' := Apply(s, e).value;
      SamePurchases(s, e);
      FoundStays(s.books.purchases, s'.books.purchases, buyer, key);
      var k := FindPurchase(s.books.purchases, buyer, key).value;
      assert PurchaseFollows(s.books.purchases[k], s'.books.purchases[k]);
    }
  }

  lemma SamePurchases(s: State, e: Event)
    requires StateOk(s) && Apply(s, e).Ok? && !e.PurchaseEvent?
    ensures |Apply(s, e).value.books.purchases| == |s.books.purchases|
    ensures forall k :: 0 <= k < |s.books.purchases| ==>
              PurchaseFollows(s.books.purchases[k], Apply(s, e).value.books.purchases[k])
  {
    hide StateOk;
    ApplyKeeps(s, e);
    if !Opens(e) {
      OthersSettle(s, e);
    }
  }

  lemma {:induction false} KnownOutlivesRun(s: State, trace: seq<Call>, buyer: int, key: string, digest: string)
    requires StateOk(s) && Timely(s.now, trace) && Known(s, buyer, key, digest)
    ensures Known(Run(s, trace), buyer, key, digest)
  {
    if trace != [] {
      var n := |trace| - 1;
      TimelyPrefix(s.now, trace);
      KnownOutlivesRun(s, trace[..n], buyer, key, digest);
      KnownAfterStep(s, trace[..n], trace[n], buyer, key, digest);
    }
  }

  lemma KnownAfterStep(s: State, trace: seq<Call>, c: Call, buyer: int, key: string, digest: string)
    requires StateOk(s) && Timely(s.now, trace) && EndTime(s.now, trace) <= c.at
    requires Known(Run(s, trace), buyer, key, digest)
    ensures Known(Next(Run(s, trace), c), buyer, key, digest)
  {
    RunKeeps(s, trace);
    var s1 := Run(s, trace);
    TickKeeps(s1, c.at);
    if Apply(s1.(now := c.at), c.event).Ok? {
      KnownStays(s1.(now := c.at), c.event, buyer, key, digest);
    }
  }

  /** A purchase is made at most once under a key, however often and however late it is submitted again: no
      later submission changes anything, and one for another request is refused. */
  lemma BoughtAtMostOnce(s: State, env: Env, c: PurchaseCommand, trace: seq<Call>, again: Call)
    requires Reachable(s) && Purchase(s, env, c).Ok?
    requires Timely(s.now, trace)
    requires again.event.PurchaseEvent? && again.event.c.buyer == c.buyer && again.event.c.key == c.key
    ensures var s1 := Run(Purchase(s, env, c).value, trace);
            var s2 := s1.(now := again.at);
            && Next(s1, again) == s2
            && (Apply(s2, again.event).Ok? ==> again.event.c.digest == c.digest)
  {
    hide StateOk;
    ReachableOk(s);
    PurchaseKeeps(s, env, c);
    PurchaseMade(s, env, c);
    var s1 := Purchase(s, env, c).value;
    KnownOutlivesRun(s1, trace, c.buyer, c.key, c.digest);
  }
}
