/** Every service call keeps the invariant across all tables. */
module Steps {
  import opened Base
  import opened Allocation
  import P = Payment
  import B = Ledger
  import E = Entitlement
  import opened System

  // ---------------------------------------------------------------------------
  // Links between orders and purchases
  // ---------------------------------------------------------------------------

  /** An update of an order row that its purchase does not need to know of. */
  predicate Unremarkable(o: P.Order, o': P.Order) {
    && o'.purchase == o.purchase && o'.outTradeNo == o.outTradeNo
    && o'.expiresAt == o.expiresAt && o'.merchant == o.merchant
    && o'.original == o.original && o'.allowed == o.allowed
    && (o.purchase.Some? ==>
          && o'.status.Paid? == o.status.Paid? && o'.status.Refunded? == o.status.Refunded?
          && (o.status.Expired? ==> o'.status.Expired?))
  }

  lemma LinksAfterOrders(orders: seq<P.Order>, orders': seq<P.Order>, purchases: seq<B.Purchase>, now: int)
    requires LinksOk(orders, purchases, now) && |orders'| == |orders|
    requires forall i :: 0 <= i < |orders| ==> Unremarkable(orders[i], orders'[i])
    ensures LinksOk(orders', purchases, now)
  {
    forall k: nat | k < |purchases| ensures Linked(orders', purchases, k, now) {
      assert Linked(orders, purchases, k, now);
      assert Unremarkable(orders[purchases[k].order], orders'[purchases[k].order]);
    }
    forall i: nat | i < |orders'| ensures BackLinked(orders', purchases, i) {
      assert BackLinked(orders, purchases, i) && Unremarkable(orders[i], orders'[i]);
    }
  }

  /** The order of a purchase and the purchase change together. */
  lemma LinksAfterPair(orders: seq<P.Order>, purchases: seq<B.Purchase>, i: nat, o: P.Order, k: nat, pu: B.Purchase, now: int)
    requires LinksOk(orders, purchases, now) && i < |orders| && k < |purchases|
    requires orders[i].purchase == Some(k)
    requires o.purchase == Some(k) && o.outTradeNo == orders[i].outTradeNo
    requires pu.order == purchases[k].order && StatesAgree(o, pu, now)
    ensures LinksOk(orders[i := o], purchases[k := pu], now)
  {
    var orders', purchases' := orders[i := o], purchases[k := pu];
    assert BackLinked(orders, purchases, i);
    forall l: nat | l < |purchases'| ensures Linked(orders', purchases', l, now) {
      assert Linked(orders, purchases, l, now);
    }
    forall j: nat | j < |orders'| ensures BackLinked(orders', purchases', j) {
      assert BackLinked(orders, purchases, j);
    }
  }

  lemma LinksAfterPurchase(orders: seq<P.Order>, purchases: seq<B.Purchase>, k: nat, pu: B.Purchase, now: int)
    requires LinksOk(orders, purchases, now) && k < |purchases|
    requires pu.order == purchases[k].order && pu.order < |orders| && StatesAgree(orders[pu.order], pu, now)
    ensures LinksOk(orders, purchases[k := pu], now)
  {
    assert Linked(orders, purchases, k, now);
    LinksAfterPair(orders, purchases, pu.order, orders[pu.order], k, pu, now);
    assert orders[pu.order := orders[pu.order]] == orders;
  }

  lemma TickKeeps(s: State, now: int)
    requires StateOk(s) && s.now <= now
    ensures StateOk(s.(now := now))
  {
    P.LaterKeeps(s.pay, s.now, now);
    B.LaterBooks(s.books, s.now, now);
    forall k: nat | k < |s.books.purchases| ensures Linked(s.pay.orders, s.books.purchases, k, now) {
      assert Linked(s.pay.orders, s.books.purchases, k, s.now);
    }
  }

  // ---------------------------------------------------------------------------
  // Orders
  // ---------------------------------------------------------------------------

  lemma AddOrderLinks(orders: seq<P.Order>, purchases: seq<B.Purchase>, o: P.Order, now: int)
    requires LinksOk(orders, purchases, now) && o.purchase.None? && o.outTradeNo.External?
    ensures LinksOk(orders + [o], purchases, now)
  {
    forall k: nat | k < |purchases| ensures Linked(orders + [o], purchases, k, now) {
      assert Linked(orders, purchases, k, now);
    }
    forall i: nat | i < |orders + [o]| ensures BackLinked(orders + [o], purchases, i) {
      if i < |orders| {
        assert BackLinked(orders, purchases, i);
      }
    }
  }

  lemma FreeAmountIsFree(s: State, env: Env, m: int, ch: Channel, original: int)
    requires FreeAmount(s, env, m, ch, original).Ok?
    ensures var cents := FreeAmount(s, env, m, ch, original).value;
            && cents !in P.Occupied(P.Purged(s.pay.reservations, m, s.now), m, ch)
            && 1 <= cents <= MAX_AMOUNT_CENTS && Distance(original, cents) <= MAX_NUDGE
  {
    AllocatedIsFree(original, env.Direction(), env.Limit(), env.min, env.max,
                    P.Occupied(P.Purged(s.pay.reservations, m, s.now), m, ch));
  }

  lemma LockLinks(s: State, i: nat, ch: Channel, cents: int)
    requires LinksOk(s.pay.orders, s.books.purchases, s.now) && i < |s.pay.orders|
    ensures LinksOk(P.LockOrder(s.pay, i, ch, cents, s.now).orders, s.books.purchases, s.now)
  {
    LinksAfterOrders(s.pay.orders, P.LockOrder(s.pay, i, ch, cents, s.now).orders, s.books.purchases, s.now);
  }

  lemma CreateKeeps(s: State, env: Env, m: int, outTradeNo: string, original: int, channel: Option<Channel>, ttl: Option<int>)
    requires StateOk(s) && Create(s, env, m, outTradeNo, original, channel, ttl).Ok?
    ensures StateOk(Create(s, env, m, outTradeNo, original, channel, ttl).value)
    ensures Moves(s, Create(s, env, m, outTradeNo, original, channel, ttl).value)
  {
    hide B.BooksOk;
    var s' := Create(s, env, m, outTradeNo, original, channel, ttl).value;
    var channels := Eligible(s, env, m, original).value * env.qr;
    var o := s'.pay.orders[|s.pay.orders|].(channel := None, actual := None, offset := None, lockedAt := None);
    assert P.FreshOrder(s.pay, o, s.now);
    P.AddOrderKeeps(s.pay, o, s.now);
    AddOrderLinks(s.pay.orders, s.books.purchases, o, s.now);
    if channel.Some? {
      FreeAmountIsFree(s, env, m, channel.value, original);
      var pay := P.AddOrder(s.pay, o);
      var cents := FreeAmount(s, env, m, channel.value, original).value;
      P.LockOrderKeeps(pay, |s.pay.orders|, channel.value, cents, s.now);
      LockLinks(s.(pay := pay), |s.pay.orders|, channel.value, cents);
    }
  }

  /** How a call may change the rows that later calls rely on. */
  ghost predicate Moves(s: State, s': State) {
    && s'.now == s.now
    && P.Advances(s.pay, s'.pay)
    && |s.books.purchases| <= |s'.books.purchases|
    && |s.books.grants| <= |s'.books.grants|
    && (forall k :: 0 <= k < |s.books.purchases| ==> PurchaseFollows(s.books.purchases[k], s'.books.purchases[k]))
  }

  predicate SameMoney(o: P.Order, o': P.Order) {
    o'.lockedAt == o.lockedAt && o'.EverPaid() == o.EverPaid()
  }

  /** A call that opens nothing, prices nothing, pays nothing and records no command. */
  ghost predicate Quiet(s: State, s': State) {
    && |s'.pay.orders| == |s.pay.orders|
    && (forall i :: 0 <= i < |s.pay.orders| ==> SameMoney(s.pay.orders[i], s'.pay.orders[i]))
    && |s'.books.purchases| == |s.books.purchases|
    && s'.commands == s.commands
  }

  /** The life of a purchase, one step. */
  predicate PurchaseFollows(pu: B.Purchase, pu': B.Purchase) {
    && pu'.buyer == pu.buyer && pu'.plan == pu.plan && pu'.order == pu.order && pu'.snapshot == pu.snapshot
    && pu'.key == pu.key && pu'.digest == pu.digest && pu'.expiresAt == pu.expiresAt
    && match pu.state
       case Pending => !pu'.state.Refunded?
       case Paid => pu'.EverPaid()
       case _ => pu'.state == pu.state
  }

  lemma SelectChannelKeeps(s: State, env: Env, i: nat, ch: Channel)
    requires StateOk(s) && SelectChannel(s, env, i, ch).Ok?
    ensures StateOk(SelectChannel(s, env, i, ch).value) && Moves(s, SelectChannel(s, env, i, ch).value)
  {
    var o := s.pay.orders[i];
    assert P.OrderOk(o, s.now);
    if o.channel.None? {
      var cents := FreeAmount(s, env, o.merchant, ch, o.original).value;
      FreeAmountIsFree(s, env, o.merchant, ch, o.original);
      P.LockOrderKeeps(s.pay, i, ch, cents, s.now);
      LockLinks(s, i, ch, cents);
    }
  }

  lemma ExpireLinks(s: State, i: nat, reason: P.ExpireReason)
    requires LinksOk(s.pay.orders, s.books.purchases, s.now) && i < |s.pay.orders| && s.pay.orders[i].status.Pending?
    ensures LinksOk(P.ExpireOrder(s.pay, i, reason).orders, s.books.purchases, s.now)
  {
    LinksAfterOrders(s.pay.orders, P.ExpireOrder(s.pay, i, reason).orders, s.books.purchases, s.now);
  }

  lemma ExpireDueKeeps(s: State, i: nat)
    requires StateOk(s)
    ensures StateOk(ExpireDue(s, i)) && Moves(s, ExpireDue(s, i)) && Quiet(s, ExpireDue(s, i))
  {
    if ExpireDue(s, i) != s {
      P.ExpireOrderKeeps(s.pay, i, P.Timeout, s.now);
      ExpireLinks(s, i, P.Timeout);
    }
  }

  // ---------------------------------------------------------------------------
  // Payment
  // ---------------------------------------------------------------------------

  /** An order that `MarkPaid` can pay has a purchase still pending, if it has one at all. */
  lemma MarkPaidRoute(s: State, i: nat, ch: Channel, manual: bool)
    requires StateOk(s) && MarkPaid(s, i, ch, manual).Ok? && !s.pay.orders[i].status.Paid?
    ensures var s' := MarkPaid(s, i, ch, manual).value;
            && s'.pay == P.PayOrder(s.pay, i, ch, manual, s.now)
            && s'.now == s.now && s'.commands == s.commands
            && match s.pay.orders[i].purchase
               case None => s'.books == s.books
               case Some(k) =>
                 && k < |s.books.purchases| && s.books.purchases[k].state.Pending?
                 && s'.books == B.Fulfil(s.books, k, s.now)
  {
    var o := s.pay.orders[i];
    assert BackLinked(s.pay.orders, s.books.purchases, i);
    if o.purchase.Some? {
      assert Linked(s.pay.orders, s.books.purchases, o.purchase.value, s.now);
    }
  }

  lemma FulfilLinks(s: State, i: nat, k: nat, o: P.Order)
    requires LinksOk(s.pay.orders, s.books.purchases, s.now)
    requires i < |s.pay.orders| && s.pay.orders[i].purchase == Some(k)
    requires o.purchase == Some(k) && o.status.Paid? && o.outTradeNo == s.pay.orders[i].outTradeNo
    requires o.merchant == s.pay.orders[i].merchant && o.expiresAt == s.pay.orders[i].expiresAt
    requires o.original == s.pay.orders[i].original && o.allowed == s.pay.orders[i].allowed
    requires k < |s.books.purchases| && s.books.purchases[k].state.Pending?
    ensures LinksOk(s.pay.orders[i := o], B.Fulfil(s.books, k, s.now).purchases, s.now)
  {
    var pu := B.Fulfil(s.books, k, s.now).purchases[k];
    assert BackLinked(s.pay.orders, s.books.purchases, i);
    assert Linked(s.pay.orders, s.books.purchases, k, s.now);
    LinksAfterPair(s.pay.orders, s.books.purchases, i, o, k, pu, s.now);
  }

  lemma FulfilFollows(books: B.Books, k: nat, now: int)
    requires k < |books.purchases| && books.purchases[k].state.Pending?
    ensures var books' := B.Fulfil(books, k, now);
            && |books'.purchases| == |books.purchases| && |books'.grants| >= |books.grants|
            && forall j :: 0 <= j < |books.purchases| ==> PurchaseFollows(books.purchases[j], books'.purchases[j])
  {
  }

  /** Paying an order through `MarkPaid` pays its purchase, if it has one, and nothing else. */
  lemma MarkPaidBooks(s: State, i: nat, ch: Channel, manual: bool)
    requires StateOk(s) && MarkPaid(s, i, ch, manual).Ok? && !s.pay.orders[i].status.Paid?
    ensures var s' := MarkPaid(s, i, ch, manual).value;
            && B.BooksOk(s'.books, s.now)
            && LinksOk(s'.pay.orders, s'.books.purchases, s.now)
            && |s'.books.purchases| == |s.books.purchases| && |s'.books.grants| >= |s.books.grants|
            && forall k :: 0 <= k < |s.books.purchases| ==> PurchaseFollows(s.books.purchases[k], s'.books.purchases[k])
  {
    hide B.BooksOk, B.Fulfil;
    MarkPaidRoute(s, i, ch, manual);
    var pay := P.PayOrder(s.pay, i, ch, manual, s.now);
    match s.pay.orders[i].purchase {
      case None =>
        LinksAfterOrders(s.pay.orders, pay.orders, s.books.purchases, s.now);
      case Some(k) =>
        B.FulfilKeeps(s.books, k, s.now);
        FulfilFollows(s.books, k, s.now);
        FulfilLinks(s, i, k, pay.orders[i]);
    }
  }

  lemma MovesNowhere(s: State)
    requires StateOk(s)
    ensures Moves(s, s)
  {
  }

  /** Recorded commands take no part in the invariant. */
  lemma RecordsKeep(s: State, s': State, commands: map<CommandKey, CommandRecord>)
    requires StateOk(s') && Moves(s, s')
    ensures StateOk(s'.(commands := commands)) && Moves(s, s'.(commands := commands))
  {
  }

  lemma SupplementOnceKeeps(s: State, m: int, i: nat, channel: Option<Channel>)
    requires StateOk(s) && i < |s.pay.orders| && s.pay.orders[i].merchant == m && SupplementOnce(s, m, i, channel).Ok?
    ensures StateOk(SupplementOnce(s, m, i, channel).value) && Moves(s, SupplementOnce(s, m, i, channel).value)
  {
    var o := s.pay.orders[i];
    var ch := (if channel.Some? then channel else o.channel).value;
    MarkPaidRoute(s, i, ch, true);
    MarkPaidBooks(s, i, ch, true);
    P.PayManuallyKeeps(s.pay, i, ch, s.now);
  }

  /** A supplement is either answered from its record or is the payment and its record. */
  lemma SupplementSteps(s: State, m: int, i: nat, channel: Option<Channel>, key: string, digest: string)
    requires Supplement(s, m, i, channel, key, digest).Ok?
    ensures i < |s.pay.orders| && s.pay.orders[i].merchant == m
    ensures var s' := Supplement(s, m, i, channel, key, digest).value;
            s' == s || (SupplementOnce(s, m, i, channel).Ok?
                        && s' == SupplementOnce(s, m, i, channel).value.(commands := s'.commands))
  {
  }

  lemma SupplementKeeps(s: State, m: int, i: nat, channel: Option<Channel>, key: string, digest: string)
    requires StateOk(s) && Supplement(s, m, i, channel, key, digest).Ok?
    ensures StateOk(Supplement(s, m, i, channel, key, digest).value)
    ensures Moves(s, Supplement(s, m, i, channel, key, digest).value)
  {
    SupplementSteps(s, m, i, channel, key, digest);
    var s' := Supplement(s, m, i, channel, key, digest).value;
    if s' == s {
      MovesNowhere(s);
    } else {
      SupplementOnceKeeps(s, m, i, channel);
      RecordsKeep(s, SupplementOnce(s, m, i, channel).value, s'.commands);
    }
  }

  lemma IngestKeeps(s: State, authorized: bool, r: P.Receipt, seen: int)
    requires StateOk(s) && Ingest(s, authorized, r, seen).Ok?
    ensures StateOk(Ingest(s, authorized, r, seen).value.0) && Moves(s, Ingest(s, authorized, r, seen).value.0)
  {
    if FindEvent(s.pay.receipts, r.merchant, r.eventId).None? {
      var i := FirstMatch(s.pay.orders, r, seen);
      if r.merchant in s.pay.banned || i.None? {
        P.AddUnmatchedKeeps(s.pay, r.(order := None), s.now);
      } else {
        MarkPaidRoute(s, i.value, r.channel, false);
        MarkPaidBooks(s, i.value, r.channel, false);
        P.SettleKeeps(s.pay, i.value, r, seen, s.now);
      }
    }
  }

  // ---------------------------------------------------------------------------
  // Refunds
  // ---------------------------------------------------------------------------

  lemma RequestRefundKeeps(s: State, m: int, i: nat, amount: int, outRefundNo: string, digest: string)
    requires StateOk(s) && RequestRefund(s, m, i, amount, outRefundNo, digest).Ok?
    ensures StateOk(RequestRefund(s, m, i, amount, outRefundNo, digest).value)
    ensures Moves(s, RequestRefund(s, m, i, amount, outRefundNo, digest).value)
    ensures Quiet(s, RequestRefund(s, m, i, amount, outRefundNo, digest).value)
  {
    if PendingRefund(s.pay.refunds, i).None? {
      P.AddRefundKeeps(s.pay, P.Refund(i, outRefundNo, digest, P.RefundPending), s.now);
    }
  }

  /** Refunding a subscription order refunds its purchase and takes its grant back. */
  lemma MarkRefundedBooks(s: State, i: nat)
    requires StateOk(s) && MarkRefunded(s, i).Ok? && s.pay.orders[i].purchase.Some?
    ensures var k := s.pay.orders[i].purchase.value;
            && k < |s.books.purchases| && s.books.purchases[k].state.Paid?
            && var g := B.FindGrant(s.books.grants, k);
            && g.Some? && g.value < |s.books.grants| && s.books.grants[g.value].purchase == Some(k)
            && MarkRefunded(s, i).value.books == B.TakeBack(s.books, k, g.value, s.now)
  {
    var k := s.pay.orders[i].purchase.value;
    assert BackLinked(s.pay.orders, s.books.purchases, i);
    assert Linked(s.pay.orders, s.books.purchases, k, s.now);
    B.FindGrantFinds(s.books.grants, k);
  }

  lemma TakeBackLinks(s: State, i: nat, k: nat, g: nat)
    requires LinksOk(s.pay.orders, s.books.purchases, s.now)
    requires i < |s.pay.orders| && s.pay.orders[i].purchase == Some(k) && s.pay.orders[i].status.Paid?
    requires k < |s.books.purchases| && s.books.purchases[k].state.Paid? && g < |s.books.grants|
    ensures LinksOk(P.RefundOrder(s.pay, i, s.now).orders, B.TakeBack(s.books, k, g, s.now).purchases, s.now)
  {
    var o := P.RefundOrder(s.pay, i, s.now).orders[i];
    var pu := s.books.purchases[k].(state := B.Refunded);
    assert BackLinked(s.pay.orders, s.books.purchases, i);
    assert Linked(s.pay.orders, s.books.purchases, k, s.now);
    LinksAfterPair(s.pay.orders, s.books.purchases, i, o, k, pu, s.now);
  }

  lemma SubscriptionRefundKeeps(s: State, i: nat, k: nat, g: nat)
    requires StateOk(s) && i < |s.pay.orders| && s.pay.orders[i].purchase == Some(k) && s.pay.orders[i].status.Paid?
    requires k < |s.books.purchases| && s.books.purchases[k].state.Paid?
    requires g < |s.books.grants| && s.books.grants[g].purchase == Some(k)
    ensures var s' := s.(pay := P.RefundOrder(s.pay, i, s.now), books := B.TakeBack(s.books, k, g, s.now));
            StateOk(s') && Moves(s, s') && Quiet(s, s')
  {
    hide B.BooksOk, P.PaymentsOk;
    P.RefundOrderKeeps(s.pay, i, s.now);
    B.TakeBackKeeps(s.books, k, g, s.now);
    TakeBackLinks(s, i, k, g);
  }

  lemma MarkRefundedKeeps(s: State, i: nat)
    requires StateOk(s) && MarkRefunded(s, i).Ok?
    ensures StateOk(MarkRefunded(s, i).value) && Moves(s, MarkRefunded(s, i).value)
    ensures Quiet(s, MarkRefunded(s, i).value)
  {
    match s.pay.orders[i].purchase {
      case Some(k) =>
        MarkRefundedBooks(s, i);
        SubscriptionRefundKeeps(s, i, k, B.FindGrant(s.books.grants, k).value);
      case None =>
        var pay := P.RefundOrder(s.pay, i, s.now);
        P.RefundOrderKeeps(s.pay, i, s.now);
        LinksAfterOrders(s.pay.orders, pay.orders, s.books.purchases, s.now);
    }
  }

  lemma ResolveRefundKeeps(s: State, m: int, k: nat, reject: bool)
    requires StateOk(s) && ResolveRefund(s, m, k, reject).Ok?
    ensures StateOk(ResolveRefund(s, m, k, reject).value) && Moves(s, ResolveRefund(s, m, k, reject).value)
    ensures Quiet(s, ResolveRefund(s, m, k, reject).value)
  {
    if reject {
      P.RejectRefundKeeps(s.pay, k, s.now);
    } else {
      MarkRefundedKeeps(s, s.pay.refunds[k].order);
    }
  }

  /** A marking is either answered from its record or is the refund and its record. */
  lemma RefundMarkSteps(s: State, m: int, i: nat, key: string, digest: string)
    requires RefundMark(s, m, i, key, digest).Ok?
    ensures var s' := RefundMark(s, m, i, key, digest).value;
            s' == s || (MarkRefunded(s, i).Ok? && s' == MarkRefunded(s, i).value.(commands := s'.commands))
  {
  }

  lemma RefundMarkKeeps(s: State, m: int, i: nat, key: string, digest: string)
    requires StateOk(s) && RefundMark(s, m, i, key, digest).Ok?
    ensures StateOk(RefundMark(s, m, i, key, digest).value) && Moves(s, RefundMark(s, m, i, key, digest).value)
  {
    RefundMarkSteps(s, m, i, key, digest);
    var s' := RefundMark(s, m, i, key, digest).value;
    if s' == s {
      MovesNowhere(s);
    } else {
      MarkRefundedKeeps(s, i);
      RecordsKeep(s, MarkRefunded(s, i).value, s'.commands);
    }
  }

  // ---------------------------------------------------------------------------
  // Purchases
  // ---------------------------------------------------------------------------

  lemma OpenPurchaseLinks(orders: seq<P.Order>, purchases: seq<B.Purchase>, o: P.Order, pu: B.Purchase, now: int)
    requires LinksOk(orders, purchases, now)
    requires o.purchase == Some(|purchases|) && o.outTradeNo == P.Internal(|purchases|) && pu.order == |orders|
    requires StatesAgree(o, pu, now)
    ensures LinksOk(orders + [o], purchases + [pu], now)
  {
    forall k: nat | k < |purchases + [pu]| ensures Linked(orders + [o], purchases + [pu], k, now) {
      if k < |purchases| {
        assert Linked(orders, purchases, k, now);
      }
    }
    forall i: nat | i < |orders + [o]| ensures BackLinked(orders + [o], purchases + [pu], i) {
      if i < |orders| {
        assert BackLinked(orders, purchases, i);
      }
    }
  }

  lemma PurchaseKeeps(s: State, env: Env, c: PurchaseCommand)
    requires StateOk(s) && Purchase(s, env, c).Ok?
    ensures StateOk(Purchase(s, env, c).value) && Moves(s, Purchase(s, env, c).value)
  {
    hide B.GrantsOk, B.ChainsOk, B.CacheOk;
    if FindPurchase(s.books.purchases, c.buyer, c.key).None? {
      var s' := Purchase(s, env, c).value;
      var o := s'.pay.orders[|s.pay.orders|];
      var pu := s'.books.purchases[|s.books.purchases|];
      assert B.PlanOk(s.books.plans[c.plan]);
      forall i | 0 <= i < |s.pay.orders|
        ensures s.pay.orders[i].merchant != o.merchant || s.pay.orders[i].outTradeNo != o.outTradeNo
      {
        assert BackLinked(s.pay.orders, s.books.purchases, i);
      }
      P.AddOrderKeeps(s.pay, o, s.now);
      B.ReserveKeeps(s.books, pu, s.now);
      OpenPurchaseLinks(s.pay.orders, s.books.purchases, o, pu, s.now);
    }
  }

  /** Cancelling leaves every row alone but pending purchases and their pending orders. */
  ghost predicate OnlyCancels(s: State, s': State) {
    && s'.now == s.now && s'.commands == s.commands
    && s'.pay.banned == s.pay.banned && s'.pay.receipts == s.pay.receipts && s'.pay.refunds == s.pay.refunds
    && s'.books.plans == s.books.plans && s'.books.grants == s.books.grants
    && s'.books.subs == s.books.subs && s'.books.chains == s.books.chains
    && |s'.pay.orders| == |s.pay.orders|
    && (forall i :: 0 <= i < |s.pay.orders| ==>
          s'.pay.orders[i] == s.pay.orders[i]
          || (s.pay.orders[i].status.Pending? && s.pay.orders[i].purchase.Some?
              && s'.pay.orders[i] == s.pay.orders[i].(status := P.Expired, reason := Some(P.Cancelled))))
    && |s'.books.purchases| == |s.books.purchases|
    && (forall k :: 0 <= k < |s.books.purchases| ==>
          s'.books.purchases[k] == s.books.purchases[k]
          || (s.books.purchases[k].state.Pending?
              && s'.books.purchases[k] == s.books.purchases[k].(state := B.Cancelled)))
  }

  lemma CancelsMove(s: State, s': State)
    requires OnlyCancels(s, s')
    ensures Moves(s, s') && Quiet(s, s')
  {
  }

  lemma CancelOneKeeps(s: State, k: nat)
    requires StateOk(s)
    ensures StateOk(CancelOne(s, k)) && OnlyCancels(s, CancelOne(s, k))
    ensures k < |s.books.purchases| ==> !CancelOne(s, k).books.purchases[k].state.Pending?
  {
    if k < |s.books.purchases| && s.books.purchases[k].state.Pending? {
      var s' := CancelOne(s, k);
      var i := s.books.purchases[k].order;
      assert Linked(s.pay.orders, s.books.purchases, k, s.now);
      B.CloseKeeps(s.books, k, B.Cancelled, s.now);
      if s.pay.orders[i].status.Pending? {
        P.ExpireOrderKeeps(s.pay, i, P.Cancelled, s.now);
      }
      LinksAfterPair(s.pay.orders, s.books.purchases, i, s'.pay.orders[i], k, s'.books.purchases[k], s.now);
      assert s.pay.orders[i := s'.pay.orders[i]] == s'.pay.orders;
    }
  }

  lemma {:induction false} CancelAllKeeps(s: State, ks: seq<nat>)
    requires StateOk(s)
    ensures StateOk(CancelAll(s, ks)) && OnlyCancels(s, CancelAll(s, ks))
  {
    if ks != [] {
      var n := |ks| - 1;
      CancelAllKeeps(s, ks[..n]);
      CancelOneKeeps(CancelAll(s, ks[..n]), ks[n]);
      CancelsTwice(s, CancelAll(s, ks[..n]), CancelAll(s, ks));
    }
  }

  lemma CancelsTwice(s: State, s': State, s'': State)
    requires OnlyCancels(s, s') && OnlyCancels(s', s'')
    ensures OnlyCancels(s, s'')
  {
  }

  lemma CancelPurchaseKeeps(s: State, m: int, k: nat)
    requires StateOk(s) && CancelPurchase(s, m, k).Ok?
    ensures StateOk(CancelPurchase(s, m, k).value) && Moves(s, CancelPurchase(s, m, k).value)
    ensures Quiet(s, CancelPurchase(s, m, k).value)
  {
    CancelOneKeeps(s, k);
    CancelsMove(s, CancelOne(s, k));
  }

  lemma CloseDueKeeps(s: State, k: nat)
    requires StateOk(s)
    ensures StateOk(CloseDue(s, k)) && Moves(s, CloseDue(s, k)) && Quiet(s, CloseDue(s, k))
  {
    if CloseDue(s, k) != s {
      assert Linked(s.pay.orders, s.books.purchases, k, s.now);
      B.CloseKeeps(s.books, k, B.Expired, s.now);
      LinksAfterPurchase(s.pay.orders, s.books.purchases, k, s.books.purchases[k].(state := B.Expired), s.now);
    }
  }

  // ---------------------------------------------------------------------------
  // Administration
  // ---------------------------------------------------------------------------

  lemma PlansKeep(s: State, plans: seq<B.Plan>)
    requires StateOk(s) && |s.books.plans| <= |plans|
    requires forall i :: 0 <= i < |plans| ==> B.PlanOk(plans[i])
    ensures StateOk(s.(books := s.books.(plans := plans)))
    ensures Moves(s, s.(books := s.books.(plans := plans))) && Quiet(s, s.(books := s.books.(plans := plans)))
  {
  }

  lemma AddPlanKeeps(s: State, plan: B.Plan)
    requires StateOk(s) && AddPlan(s, plan).Ok?
    ensures StateOk(AddPlan(s, plan).value) && Moves(s, AddPlan(s, plan).value)
    ensures Quiet(s, AddPlan(s, plan).value)
  {
    PlansKeep(s, s.books.plans + [plan.(revision := 1, deleted := false)]);
  }

  lemma EditPlanKeeps(s: State, id: nat, plan: B.Plan)
    requires StateOk(s) && EditPlan(s, id, plan).Ok?
    ensures StateOk(EditPlan(s, id, plan).value) && Moves(s, EditPlan(s, id, plan).value)
    ensures Quiet(s, EditPlan(s, id, plan).value)
  {
    PlansKeep(s, s.books.plans[id := plan.(revision := plan.revision + 1, deleted := false)]);
  }

  lemma DeletePlanKeeps(s: State, id: nat, revision: int)
    requires StateOk(s) && DeletePlan(s, id, revision).Ok?
    ensures StateOk(DeletePlan(s, id, revision).value) && Moves(s, DeletePlan(s, id, revision).value)
    ensures Quiet(s, DeletePlan(s, id, revision).value)
  {
    hide CancelAll;
    var plan := s.books.plans[id];
    var plans := s.books.plans[id := plan.(revision := plan.revision + 1, deleted := true)];
    assert B.PlanOk(plan);
    PlansKeep(s, plans);
    var s1 := s.(books := s.books.(plans := plans));
    CancelAllKeeps(s1, PendingOfPlan(s1.books.purchases, id));
    CancelsMove(s1, DeletePlan(s, id, revision).value);
  }

  lemma GrantManuallyKeeps(s: State, m: int, planId: nat, channels: set<Channel>, expectedRevision: int, expiry: int)
    requires StateOk(s) && GrantManually(s, m, planId, channels, expectedRevision, expiry).Ok?
    ensures StateOk(GrantManually(s, m, planId, channels, expectedRevision, expiry).value)
    ensures Moves(s, GrantManually(s, m, planId, channels, expectedRevision, expiry).value)
    ensures Quiet(s, GrantManually(s, m, planId, channels, expectedRevision, expiry).value)
  {
    var s1 := CancelAll(s, PendingOfBuyer(s.books.purchases, m));
    CancelAllKeeps(s, PendingOfBuyer(s.books.purchases, m));
    CancelsMove(s, s1);
    B.OverrideKeeps(s1.books, m, SnapshotOf(planId, s1.books.plans[planId], channels), expiry, s.now);
  }

  lemma BanKeeps(s: State, m: int)
    requires StateOk(s) && Ban(s, m).Ok?
    ensures StateOk(Ban(s, m).value) && Moves(s, Ban(s, m).value) && Quiet(s, Ban(s, m).value)
  {
    BanPayments(s, m);
    var s1 := s.(pay := P.ExpireBanned(s.pay, m).(banned := s.pay.banned + {m}));
    var ks := PendingOfBuyer(s1.books.purchases, m);
    CancelAllKeeps(s1, ks);
    CancelAllIgnoresBans(s.(pay := P.ExpireBanned(s.pay, m)), ks, s1.pay.banned);
    assert Ban(s, m).value == CancelAll(s1, ks);
    BanMoves(s, s1, CancelAll(s1, ks), m);
  }

  lemma BanPayments(s: State, m: int)
    requires StateOk(s)
    ensures StateOk(s.(pay := P.ExpireBanned(s.pay, m).(banned := s.pay.banned + {m})))
  {
    P.ExpireBannedKeeps(s.pay, m, s.now);
    LinksAfterOrders(s.pay.orders, P.ExpireBanned(s.pay, m).orders, s.books.purchases, s.now);
  }

  lemma BanMoves(s: State, s1: State, s': State, m: int)
    requires s1 == s.(pay := P.ExpireBanned(s.pay, m).(banned := s.pay.banned + {m}))
    requires OnlyCancels(s1, s')
    ensures Moves(s, s') && Quiet(s, s')
  {
    forall i | 0 <= i < |s.pay.orders|
      ensures P.Follows(s.pay.orders[i], s'.pay.orders[i]) && SameMoney(s.pay.orders[i], s'.pay.orders[i])
    {
      assert s1.pay.orders[i] == P.BannedRow(s.pay.orders[i], m);
    }
    CancelsMove(s1, s');
  }

  lemma {:induction false} CancelAllIgnoresBans(s: State, ks: seq<nat>, banned: set<int>)
    ensures CancelAll(s.(pay := s.pay.(banned := banned)), ks)
            == CancelAll(s, ks).(pay := CancelAll(s, ks).pay.(banned := banned))
    ensures CancelAll(s, ks).pay.banned == s.pay.banned
  {
    if ks != [] {
      CancelAllIgnoresBans(s, ks[..|ks| - 1], banned);
    }
  }

  lemma UnbanKeeps(s: State, m: int)
    requires StateOk(s)
    ensures StateOk(Unban(s, m)) && Moves(s, Unban(s, m)) && Quiet(s, Unban(s, m))
  {
  }
}
