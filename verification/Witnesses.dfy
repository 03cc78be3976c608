/** Reachable states in which a promise one might read into the service does not hold. */
module Witnesses {
  import opened Base
  import P = Payment
  import B = Ledger
  import E = Entitlement
  import opened System
  import opened Runs

  // ---------------------------------------------------------------------------
  // A reason that a resent receipt loses
  // ---------------------------------------------------------------------------

  /** A banned merchant's receipt is answered with the ban, and with another reason when it is resent. */
  lemma BanIsForgotten() returns (s: State, r: P.Receipt)
    ensures Reachable(s) && Ingest(s, true, r, s.now).Ok?
    ensures var (s1, reply) := Ingest(s, true, r, s.now).value;
            && reply.reason.BannedMerchant?
            && Ingest(s1, true, r, s.now).Ok? && Ingest(s1, true, r, s.now).value.1.reason.NoMatchingOrder?
  {
    InitialReachable();
    var ban := Call(0, BanEvent(1));
    ReachableNext(INITIAL, ban);
    s := Next(INITIAL, ban);
    assert PendingOfBuyer(INITIAL.books.purchases, 1) == [];
    assert s.pay.banned == {1} && s.pay.receipts == [];
    r := P.Receipt(1, 1, "event", Alipay, 100, 0, "", "digest", None);
    var s1 := Ingest(s, true, r, s.now).value.0;
    assert s1.pay.receipts == [r];
  }

  // ---------------------------------------------------------------------------
  // Refunds that do not take back their own time
  // ---------------------------------------------------------------------------

  const MONTH := 30 * DAY
  const PLAN := B.Plan(1, 100, 30, {Alipay}, None, false)
  const SNAPSHOT := E.Snapshot(0, 100, 30, {Alipay})
  const ENV := Env(1, 1000, 600, 3600, 0, "up", None, None, None, true, {Alipay})

  /** The billing merchant 1 sells one plan and is entitled by hand. */
  function Shop(): State {
    State(0, P.NO_PAYMENTS,
          B.Books([PLAN], [], map[], [B.ManualGrant(1, 0, SNAPSHOT, 1000 * MONTH, 0)],
                  map[1 := B.Subscription(Some(0), Some(SNAPSHOT), 1000 * MONTH, 1, 0, E.ByManual)], 1),
          map[])
  }

  lemma ShopOpens()
    ensures Reachable(Shop())
  {
    InitialReachable();
    var add := Call(0, AddPlanEvent(PLAN));
    ReachableNext(INITIAL, add);
    var s1 := INITIAL.(books := B.NO_BOOKS.(plans := [PLAN]));
    assert Next(INITIAL, add) == s1;
    var grant := Call(0, GrantEvent(1, 0, {Alipay}, 0, 1000 * MONTH));
    ReachableNext(s1, grant);
    assert PendingOfBuyer(s1.books.purchases, 1) == [];
    assert Next(s1, grant) == Shop();
  }

  function Command(key: string, revision: int): PurchaseCommand {
    PurchaseCommand(2, 0, 1, revision, false, key, key, Some(1), true)
  }

  function Keys(): seq<string> {
    ["first purchase", "second purchase"]
  }

  function OrderRow(k: nat, paid: bool): P.Order {
    var o := NewOrder(1, P.Internal(k), Some(k), 100, {Alipay}, 0, 600 * SECOND);
    if paid then P.PaidRow(o, Alipay, true, 0) else o
  }

  function PurchaseRow(k: nat, paid: bool): B.Purchase
    requires k < 2
  {
    B.Purchase(2, 1, 0, SNAPSHOT, if k == 0 then E.New else E.Renew, if paid then B.Paid else B.Pending, k,
               Keys()[k], Keys()[k], 600 * SECOND, if paid then Some(0) else None)
  }

  function GrantRow(k: nat): E.Grant {
    E.Grant(Some(k), 2, 1, if k == 0 then E.New else E.Renew, MONTH, k * MONTH, None, SNAPSHOT, None, None)
  }

  function Sub(n: nat): B.Subscription {
    B.Subscription(Some(0), Some(SNAPSHOT), n * MONTH, n, 1, E.ByPurchase)
  }

  /** Merchant 2 buys the plan, pays, renews it and pays again, all at once. */
  function Ordered(): State {
    Shop().(pay := P.NO_PAYMENTS.(orders := [OrderRow(0, false)]),
            books := Shop().books.(purchases := [PurchaseRow(0, false)], counters := map[(2, 0) := B.Counter(0, 1)]))
  }

  function Paid(): State {
    Shop().(pay := P.NO_PAYMENTS.(orders := [OrderRow(0, true)]),
            books := Shop().books.(purchases := [PurchaseRow(0, true)], counters := map[(2, 0) := B.Counter(1, 0)],
                                   grants := Shop().books.grants + [GrantRow(0)],
                                   subs := Shop().books.subs[2 := Sub(1)], chains := 2))
  }

  function Renewing(): State {
    Paid().(pay := P.NO_PAYMENTS.(orders := [OrderRow(0, true), OrderRow(1, false)]),
            books := Paid().books.(purchases := [PurchaseRow(0, true), PurchaseRow(1, false)],
                                   counters := map[(2, 0) := B.Counter(1, 1)]))
  }

  function Renewed(): State {
    Paid().(pay := P.NO_PAYMENTS.(orders := [OrderRow(0, true), OrderRow(1, true)]),
            books := Paid().books.(purchases := [PurchaseRow(0, true), PurchaseRow(1, true)],
                                   counters := map[(2, 0) := B.Counter(2, 0)],
                                   grants := Shop().books.grants + [GrantRow(0), GrantRow(1)],
                                   subs := Shop().books.subs[2 := Sub(2)]))
  }

  lemma BillingIsReady(s: State)
    requires s.now == 0 && s.pay.banned == {} && 1 in s.books.subs && s.books.subs[1] == Shop().books.subs[1]
    ensures Eligible(s, ENV, 1, 100) == Ok({Alipay})
    ensures {Alipay} * PLAN.channels * ENV.qr == {Alipay}
  {
    assert MONTH == 30 * DAY;
  }

  lemma FirstOrder()
    ensures Purchase(Shop(), ENV, Command(Keys()[0], 0)) == Ok(Ordered())
  {
    var s, c := Shop(), Command(Keys()[0], 0);
    BillingIsReady(s);
    assert PurchaseKind(s, c) == Ok(E.New);
    var s' := OpenPurchase(s, ENV, c, E.New).value;
    assert s'.pay.orders == [OrderRow(0, false)];
    assert s'.books.purchases == [PurchaseRow(0, false)];
    assert s'.books.counters == map[(2, 0) := B.Counter(0, 1)];
    assert s' == Ordered();
  }

  lemma SecondOrder()
    ensures Purchase(Paid(), ENV, Command(Keys()[1], 1)) == Ok(Renewing())
  {
    var s, c := Paid(), Command(Keys()[1], 1);
    BillingIsReady(s);
    assert s.books.purchases[..0] == [] && FindPurchase(s.books.purchases, 2, Keys()[1]).None?;
    assert PurchaseKind(s, c) == Ok(E.Renew);
    var s' := OpenPurchase(s, ENV, c, E.Renew).value;
    assert s'.pay.orders == [OrderRow(0, true), OrderRow(1, false)];
    assert s'.books.purchases == [PurchaseRow(0, true), PurchaseRow(1, false)];
    assert s'.books.counters == map[(2, 0) := B.Counter(1, 1)];
    assert s' == Renewing();
  }

  /** The rows of merchant 2's chain, behind the grant of the billing merchant, and what they entitle to. */
  lemma OneRow(g: E.Grant)
    requires g.InChain(2, 1)
    ensures E.ChainRows(Shop().books.grants + [g], 2, 1) == [g]
    ensures E.Folded([g]) == E.Extended(E.NOTHING, g)
  {
    E.UnusedChain(Shop().books.grants, 2, 1);
    E.ChainRowsAppend(Shop().books.grants, g, 2, 1);
    E.FoldedAppend([], g);
    assert [] + [g] == [g];
  }

  lemma TwoRows(g: E.Grant, h: E.Grant)
    requires g.InChain(2, 1) && h.InChain(2, 1) && g.effectiveAt <= h.effectiveAt
    ensures E.ChainRows(Shop().books.grants + [g, h], 2, 1) == [g, h]
    ensures E.Folded([g, h]) == E.Extended(E.Extended(E.NOTHING, g), h)
  {
    OneRow(g);
    assert Shop().books.grants + [g] + [h] == Shop().books.grants + [g, h];
    E.ChainRowsAppend(Shop().books.grants + [g], h, 2, 1);
    E.FoldedAppend([g], h);
    assert [g] + [h] == [g, h];
  }

  lemma FirstFulfilled()
    ensures B.PaidTx(Ordered().books, 0, 0) == Ok(Paid().books)
  {
    var b := Ordered().books;
    assert B.BoughtGrant(b, 0, 0) == GrantRow(0);
    assert B.Granted(b, 0, 0) == Paid().books.(subs := Shop().books.subs);
    OneRow(GrantRow(0));
  }

  lemma SecondGranted()
    ensures B.BoughtGrant(Renewing().books, 1, 0) == GrantRow(1)
    ensures B.Granted(Renewing().books, 1, 0) == Renewed().books.(subs := Paid().books.subs)
  {
    assert B.Kept(Renewing().books, 1, 0) + [GrantRow(1)] == Renewed().books.grants;
  }

  lemma SecondFulfilled()
    ensures B.PaidTx(Renewing().books, 1, 0) == Ok(Renewed().books)
  {
    hide E.ChainRows, E.Folded, B.Granted, B.BoughtGrant;
    SecondGranted();
    TwoRows(GrantRow(0), GrantRow(1));
    assert Paid().books.subs[2 := Sub(2)] == Renewed().books.subs;
  }

  lemma FirstPayment()
    ensures Supplement(Ordered(), 1, 0, Some(Alipay), "", "") == Ok(Paid())
  {
    hide B.PaidTx;
    FirstFulfilled();
    assert P.PayOrder(Ordered().pay, 0, Alipay, true, 0) == Paid().pay;
  }

  lemma SecondPayment()
    ensures Supplement(Renewing(), 1, 1, Some(Alipay), "", "") == Ok(Renewed())
  {
    hide B.PaidTx;
    SecondFulfilled();
    SecondPaid();
    assert MarkPaid(Renewing(), 1, Alipay, true) == Ok(Renewed());
  }

  lemma SecondPaid()
    ensures P.PayOrder(Renewing().pay, 1, Alipay, true, 0) == Renewed().pay
  {
    assert Renewing().pay.orders[1 := OrderRow(1, true)] == Renewed().pay.orders;
  }

  lemma OneStep(s: State, e: Event, s': State)
    requires Reachable(s) && s.now == 0 && Apply(s, e) == Ok(s')
    ensures Reachable(s')
  {
    ReachableNext(s, Call(0, e));
    assert s.(now := 0) == s;
  }

  lemma RenewedIsReachable()
    ensures Reachable(Renewed())
  {
    ShopOpens();
    FirstOrder();
    OneStep(Shop(), PurchaseEvent(ENV, Command(Keys()[0], 0)), Ordered());
    FirstPayment();
    OneStep(Ordered(), SupplementEvent(1, 0, Some(Alipay), "", ""), Paid());
    SecondOrder();
    OneStep(Paid(), PurchaseEvent(ENV, Command(Keys()[1], 1)), Renewing());
    SecondPayment();
    OneStep(Renewing(), SupplementEvent(1, 1, Some(Alipay), "", ""), Renewed());
  }

  function RefundedGrantRow(k: nat): E.Grant {
    GrantRow(k).(refundedAt := Some(0))
  }

  lemma FirstGrantFound()
    ensures B.FindGrant(Renewed().books.grants, 0) == Some(1)
  {
    var grants := Renewed().books.grants;
    assert grants[..2] == Shop().books.grants + [GrantRow(0)];
  }

  /** After the refund of the first purchase the grant of the second keeps its own start. */
  lemma FirstTakenBack()
    ensures var books := B.TakeBack(Renewed().books, 0, 1, 0);
            && books.grants == Shop().books.grants + [RefundedGrantRow(0), GrantRow(1)]
            && books.subs == Shop().books.subs[2 := Sub(2).(revision := 3)]
            && books.purchases == [PurchaseRow(0, true).(state := B.Refunded), PurchaseRow(1, true)]
  {
    var b := Renewed().books;
    assert b.grants[1 := RefundedGrantRow(0)] == Shop().books.grants + [RefundedGrantRow(0), GrantRow(1)];
    TwoRows(RefundedGrantRow(0), GrantRow(1));
    assert b.subs[2 := Sub(2).(revision := 3)] == Shop().books.subs[2 := Sub(2).(revision := 3)];
  }

  /** After the refund of the second no grant is live. */
  lemma SecondTakenBack()
    ensures var books := B.TakeBack(B.TakeBack(Renewed().books, 0, 1, 0), 1, 2, 0);
            2 in books.subs && books.subs[2].expiresAt == 0
  {
    FirstTakenBack();
    var b := B.TakeBack(Renewed().books, 0, 1, 0);
    var grants := Shop().books.grants + [RefundedGrantRow(0), RefundedGrantRow(1)];
    assert b.grants[2 := RefundedGrantRow(1)] == grants;
    TwoRows(RefundedGrantRow(0), RefundedGrantRow(1));
  }

  lemma FirstRefunded()
    ensures var s := MarkRefunded(Renewed(), 0);
            && s.Ok? && s.value.now == 0 && s.value.books == B.TakeBack(Renewed().books, 0, 1, 0)
            && s.value.pay.orders == [OrderRow(0, true).(status := P.Refunded, refundedAt := Some(0)), OrderRow(1, true)]
  {
    FirstGrantFound();
  }

  lemma SecondGrantFound(b: B.Books)
    requires b.grants == Shop().books.grants + [RefundedGrantRow(0), GrantRow(1)]
    requires b.purchases == [PurchaseRow(0, true).(state := B.Refunded), PurchaseRow(1, true)]
    ensures B.RefundedTx(b, 1, 0) == Ok(B.TakeBack(b, 1, 2, 0))
  {
    assert B.FindGrant(b.grants, 1) == Some(2);
  }

  lemma SecondRefunded(s: State)
    requires s.now == 0 && |s.pay.orders| == 2 && s.pay.orders[1] == OrderRow(1, true)
    requires 2 < |s.books.grants| && 1 < |s.books.purchases|
    requires B.RefundedTx(s.books, 1, 0) == Ok(B.TakeBack(s.books, 1, 2, 0))
    ensures MarkRefunded(s, 1).Ok? && MarkRefunded(s, 1).value.books == B.TakeBack(s.books, 1, 2, 0)
  {
  }

  /** A merchant who bought two months and is refunded the first loses nothing, and both months when it is
      refunded the second as well: neither refund takes back its own time. */
  lemma RefundsMismatch() returns (s: State)
    ensures Reachable(s) && s.now == 0 && 2 in s.books.subs && s.books.subs[2].expiresAt == 2 * MONTH
    ensures MarkRefunded(s, 0).Ok? && Reachable(MarkRefunded(s, 0).value)
    ensures var once := MarkRefunded(s, 0).value;
            && 2 in once.books.subs && once.books.subs[2].expiresAt == 2 * MONTH
            && MarkRefunded(once, 1).Ok?
            && 2 in MarkRefunded(once, 1).value.books.subs && MarkRefunded(once, 1).value.books.subs[2].expiresAt == 0
  {
    s := Renewed();
    RenewedIsReachable();
    FirstRefunded();
    FirstTakenBack();
    var once := MarkRefunded(s, 0).value;
    OneStep(s, RefundMarkEvent(1, 0, "", ""), once);
    SecondGrantFound(once.books);
    SecondRefunded(once);
    SecondTakenBack();
  }
}
