/** The payment tables (orders, amount reservations, receipts, refunds), the row updates the
    service makes on them, and what every such update keeps. */
module Payment {
  import opened Base
  import opened Allocation

  datatype Status = Pending | Paid | Expired | Refunded
  datatype ExpireReason = Timeout | MerchantBanned | Cancelled
  datatype OutTradeNo = External(text: string) | Internal(purchase: nat)

  datatype Order = Order(
    merchant: int, outTradeNo: OutTradeNo, purchase: Option<nat>,
    original: int, allowed: set<Channel>,
    channel: Option<Channel>, actual: Option<int>, offset: Option<int>,
    createdAt: int, lockedAt: Option<int>, expiresAt: int,
    status: Status, reason: Option<ExpireReason>,
    paidAt: Option<int>, refundedAt: Option<int>, manual: bool)
  {
    predicate EverPaid() {
      status.Paid? || status.Refunded?
    }

    /** Paid by a device receipt rather than by the merchant's own supplement. */
    predicate AutoPaid() {
      EverPaid() && !manual
    }

    /** Asks for these cents on this channel. */
    predicate Asks(ch: Channel, cents: int) {
      channel == Some(ch) && actual == Some(cents)
    }
  }

  datatype Reservation = Reservation(merchant: int, channel: Channel, cents: int, releaseAfter: Option<int>)

  datatype Receipt = Receipt(
    merchant: int, device: int, eventId: string, channel: Channel, cents: int, occurredAt: int,
    providerNo: string, digest: string, order: Option<nat>)

  datatype RefundStatus = RefundPending | RefundRejected | RefundCompleted
  datatype Refund = Refund(order: nat, outRefundNo: string, digest: string, status: RefundStatus)

  /** Row ids are positions: orders, receipts and refunds are only ever appended or updated. */
  datatype Payments = Payments(
    orders: seq<Order>,
    reservations: map<nat, Reservation>,
    receipts: seq<Receipt>,
    refunds: seq<Refund>,
    banned: set<int>)

  const NO_PAYMENTS := Payments([], map[], [], [], {})

  // ---------------------------------------------------------------------------
  // Row updates
  // ---------------------------------------------------------------------------

  predicate Lapsed(r: Reservation, merchant: int, now: int) {
    r.merchant == merchant && r.releaseAfter.Some? && r.releaseAfter.value <= now
  }

  /** Drops the merchant's reservations whose quarantine is over. */
  function Purged(reservations: map<nat, Reservation>, merchant: int, now: int): map<nat, Reservation> {
    map i | i in reservations && !Lapsed(reservations[i], merchant, now) :: reservations[i]
  }

  function Occupied(reservations: map<nat, Reservation>, merchant: int, ch: Channel): set<int> {
    set i | i in reservations && reservations[i].merchant == merchant && reservations[i].channel == ch
      :: reservations[i].cents
  }

  lemma OccupiedHas(reservations: map<nat, Reservation>, i: nat)
    requires i in reservations
    ensures reservations[i].cents in Occupied(reservations, reservations[i].merchant, reservations[i].channel)
  {
  }

  function AddOrder(p: Payments, o: Order): Payments {
    p.(orders := p.orders + [o])
  }

  /** Fixes channel and amount of an order and reserves the amount. */
  function LockOrder(p: Payments, i: nat, ch: Channel, cents: int, now: int): Payments
    requires i < |p.orders|
  {
    var o := p.orders[i];
    p.(orders := p.orders[i := o.(channel := Some(ch), actual := Some(cents), offset := Some(cents - o.original),
                                  lockedAt := Some(now))],
       reservations := Purged(p.reservations, o.merchant, now)[i := Reservation(o.merchant, ch, cents, None)])
  }

  function PaidRow(o: Order, ch: Channel, manual: bool, at: int): Order {
    var priced := if o.actual.Some? then o
                  else o.(channel := Some(ch), actual := Some(o.original), offset := Some(0));
    priced.(status := Paid, reason := None, paidAt := Some(at), manual := manual)
  }

  /** Marks an order paid and releases its amount. */
  function PayOrder(p: Payments, i: nat, ch: Channel, manual: bool, at: int): Payments
    requires i < |p.orders|
  {
    p.(orders := p.orders[i := PaidRow(p.orders[i], ch, manual, at)],
       reservations := p.reservations - {i})
  }

  /** Expires one order; its amount stays reserved for a day past the order's own deadline. */
  function ExpireOrder(p: Payments, i: nat, reason: ExpireReason): Payments
    requires i < |p.orders|
  {
    var o := p.orders[i];
    p.(orders := p.orders[i := o.(status := Expired, reason := Some(reason))],
       reservations :=
         if i in p.reservations
         then p.reservations[i := p.reservations[i].(releaseAfter := Some(o.expiresAt + DAY))]
         else p.reservations)
  }

  function BannedRow(o: Order, merchant: int): Order {
    if o.merchant == merchant && o.status.Pending? then o.(status := Expired, reason := Some(MerchantBanned)) else o
  }

  function BannedRows(orders: seq<Order>, merchant: int): (rows: seq<Order>)
    ensures |rows| == |orders|
    ensures forall i :: 0 <= i < |orders| ==> rows[i] == BannedRow(orders[i], merchant)
  {
    seq(|orders|, i requires 0 <= i < |orders| => BannedRow(orders[i], merchant))
  }

  /** Expires every pending order of a merchant that is being banned. */
  function ExpireBanned(p: Payments, merchant: int): Payments {
    var orders := BannedRows(p.orders, merchant);
    p.(orders := orders,
       reservations :=
         map i | i in p.reservations ::
           if i < |orders| && orders[i].merchant == merchant && orders[i].status.Expired? && orders[i].reason == Some(MerchantBanned)
           then p.reservations[i].(releaseAfter := Some(orders[i].expiresAt + DAY))
           else p.reservations[i])
  }

  function AddReceipt(p: Payments, r: Receipt): Payments {
    p.(receipts := p.receipts + [r])
  }

  function AddRefund(p: Payments, r: Refund): Payments {
    p.(refunds := p.refunds + [r])
  }

  function RejectRefund(p: Payments, k: nat): Payments
    requires k < |p.refunds|
  {
    if p.refunds[k].status.RefundPending? then p.(refunds := p.refunds[k := p.refunds[k].(status := RefundRejected)])
    else p
  }

  function CompletedRow(r: Refund, order: nat): Refund {
    if r.order == order && r.status.RefundPending? then r.(status := RefundCompleted) else r
  }

  /** Marks a paid order refunded and completes its pending refund request, if any. */
  function RefundOrder(p: Payments, i: nat, at: int): Payments
    requires i < |p.orders|
  {
    p.(orders := p.orders[i := p.orders[i].(status := Refunded, refundedAt := Some(at))],
       refunds := seq(|p.refunds|, k requires 0 <= k < |p.refunds| => CompletedRow(p.refunds[k], i)))
  }

  // ---------------------------------------------------------------------------
  // What holds in every reachable state
  // ---------------------------------------------------------------------------

  predicate OrderOk(o: Order, now: int) {
    && 1 <= o.original <= MAX_AMOUNT_CENTS
    && o.createdAt <= now
    && o.channel.Some? == o.actual.Some? == o.offset.Some?
    && (o.channel.Some? ==>
          && o.channel.value in o.allowed
          && o.actual.value == o.original + o.offset.value
          && -MAX_NUDGE <= o.offset.value <= MAX_NUDGE
          && 1 <= o.actual.value <= MAX_AMOUNT_CENTS)
    && (o.lockedAt.Some? ==>
          o.channel.Some? && o.createdAt <= o.lockedAt.value < o.expiresAt && o.lockedAt.value <= now)
    && (!o.EverPaid() ==> !o.manual && (o.channel.Some? ==> o.lockedAt.Some?))
    && (o.EverPaid() ==> o.channel.Some? && (o.manual || o.lockedAt.Some?))
    && (o.EverPaid() <==> o.paidAt.Some?)
    && (o.status.Refunded? <==> o.refundedAt.Some?)
    && (o.status.Expired? <==> o.reason.Some?)
    && (o.reason == Some(Timeout) ==> o.expiresAt <= now)
  }

  ghost predicate OrdersOk(orders: seq<Order>, now: int) {
    forall i :: 0 <= i < |orders| ==> OrderOk(orders[i], now)
  }

  /** A reservation belongs to an unpaid order, repeats its amount, and is released exactly a day
      after the deadline of an expired order. */
  predicate ReservationOk(orders: seq<Order>, i: nat, r: Reservation) {
    && i < |orders|
    && orders[i].merchant == r.merchant
    && orders[i].Asks(r.channel, r.cents)
    && !orders[i].EverPaid()
    && r.releaseAfter == (if orders[i].status.Pending? then None else Some(orders[i].expiresAt + DAY))
  }

  predicate SameAmount(a: Reservation, b: Reservation) {
    a.merchant == b.merchant && a.channel == b.channel && a.cents == b.cents
  }

  ghost predicate ReservationsOk(orders: seq<Order>, reservations: map<nat, Reservation>) {
    && (forall i :: i in reservations ==> ReservationOk(orders, i, reservations[i]))
    && (forall i, j :: i in reservations && j in reservations && i != j
          ==> !SameAmount(reservations[i], reservations[j]))
  }

  /** Pending orders that ask for an amount hold it; expired ones hold it until their quarantine ends. */
  predicate HoldsAmount(orders: seq<Order>, reservations: map<nat, Reservation>, i: nat, now: int)
    requires i < |orders|
  {
    orders[i].channel.Some? && !orders[i].EverPaid() ==>
      i in reservations || (orders[i].status.Expired? && orders[i].expiresAt + DAY <= now)
  }

  ghost predicate AmountsHeld(orders: seq<Order>, reservations: map<nat, Reservation>, now: int) {
    forall i :: 0 <= i < |orders| ==> HoldsAmount(orders, reservations, i, now)
  }

  /** The receipt that paid the order. */
  predicate Settles(o: Order, r: Receipt) {
    && o.AutoPaid()
    && o.merchant == r.merchant
    && o.Asks(r.channel, r.cents)
    && o.lockedAt.Some?
    && o.lockedAt.value <= r.occurredAt < o.expiresAt
  }

  ghost predicate HasReceipt(receipts: seq<Receipt>, i: nat) {
    exists k :: 0 <= k < |receipts| && receipts[k].order == Some(i)
  }

  /** Matched receipts and automatically paid orders correspond one to one. */
  ghost predicate ReceiptsOk(orders: seq<Order>, receipts: seq<Receipt>) {
    && (forall k :: 0 <= k < |receipts| && receipts[k].order.Some? ==>
          receipts[k].order.value < |orders| && Settles(orders[receipts[k].order.value], receipts[k]))
    && (forall k, l :: 0 <= k < l < |receipts| ==>
          !(receipts[k].order.Some? && receipts[k].order == receipts[l].order))
    && (forall k, l :: 0 <= k < l < |receipts| ==>
          !(receipts[k].merchant == receipts[l].merchant && receipts[k].eventId == receipts[l].eventId))
    && (forall i :: 0 <= i < |orders| && orders[i].AutoPaid() ==> HasReceipt(receipts, i))
  }

  ghost function AutoPaidCents(merchant: int): Order -> int {
    (o: Order) => if o.AutoPaid() && o.merchant == merchant && o.actual.Some? then o.actual.value else 0
  }

  ghost function MatchedCents(merchant: int): Receipt -> int {
    (r: Receipt) => if r.order.Some? && r.merchant == merchant then r.cents else 0
  }

  /** What the devices reported as matched is what the orders were paid automatically. */
  ghost predicate BooksBalance(orders: seq<Order>, receipts: seq<Receipt>) {
    forall merchant :: Sum(orders, AutoPaidCents(merchant)) == Sum(receipts, MatchedCents(merchant))
  }

  ghost predicate RefundsOk(orders: seq<Order>, refunds: seq<Refund>) {
    && (forall k :: 0 <= k < |refunds| ==>
          && refunds[k].order < |orders|
          && (refunds[k].status.RefundPending? ==> orders[refunds[k].order].status.Paid?)
          && (refunds[k].status.RefundCompleted? ==> orders[refunds[k].order].status.Refunded?))
    && (forall k, l :: 0 <= k < l < |refunds| && refunds[k].order == refunds[l].order ==>
          refunds[k].status.RefundRejected? || refunds[k].status != refunds[l].status)
  }

  ghost predicate BansOk(orders: seq<Order>, banned: set<int>) {
    forall i :: 0 <= i < |orders| && orders[i].status.Pending? ==> orders[i].merchant !in banned
  }

  ghost predicate OutTradeNosOk(orders: seq<Order>) {
    forall i, j :: 0 <= i < j < |orders| ==>
      orders[i].merchant != orders[j].merchant || orders[i].outTradeNo != orders[j].outTradeNo
  }

  ghost predicate PaymentsOk(p: Payments, now: int) {
    && OrdersOk(p.orders, now)
    && ReservationsOk(p.orders, p.reservations)
    && AmountsHeld(p.orders, p.reservations, now)
    && ReceiptsOk(p.orders, p.receipts)
    && BooksBalance(p.orders, p.receipts)
    && RefundsOk(p.orders, p.refunds)
    && BansOk(p.orders, p.banned)
    && OutTradeNosOk(p.orders)
  }

  // ---------------------------------------------------------------------------
  // How rows may change
  // ---------------------------------------------------------------------------

  predicate SameTerms(o: Order, o': Order) {
    && o'.merchant == o.merchant && o'.outTradeNo == o.outTradeNo && o'.purchase == o.purchase
    && o'.original == o.original && o'.allowed == o.allowed
    && o'.createdAt == o.createdAt && o'.expiresAt == o.expiresAt
    && (o.channel.Some? ==> o'.channel == o.channel && o'.actual == o.actual && o'.offset == o.offset
                            && o'.lockedAt == o.lockedAt)
    && (o.EverPaid() ==> o'.manual == o.manual && o'.paidAt == o.paidAt)
  }

  /** The life of an order, one step. */
  predicate Follows(o: Order, o': Order) {
    && SameTerms(o, o')
    && match o.status
       case Pending => !o'.status.Refunded?
       case Expired => o'.status.Expired? || (o'.status.Paid? && o'.manual)
       case Paid => o'.EverPaid()
       case Refunded => o'.status.Refunded?
  }

  /** The life of an order over any number of steps. */
  predicate Descends(o: Order, o': Order) {
    && SameTerms(o, o')
    && match o.status
       case Pending => true
       case Expired => o'.status.Expired? || (o'.EverPaid() && o'.manual)
       case Paid => o'.EverPaid()
       case Refunded => o'.status.Refunded?
  }

  /** Orders only move along their life; receipts are never touched again. */
  ghost predicate Advances(p: Payments, p': Payments) {
    && |p.orders| <= |p'.orders|
    && (forall i :: 0 <= i < |p.orders| ==> Follows(p.orders[i], p'.orders[i]))
    && p.receipts <= p'.receipts
  }

  ghost predicate Evolves(p: Payments, p': Payments) {
    && |p.orders| <= |p'.orders|
    && (forall i :: 0 <= i < |p.orders| ==> Descends(p.orders[i], p'.orders[i]))
    && p.receipts <= p'.receipts
  }

  // ---------------------------------------------------------------------------
  // Each row update keeps the invariant
  // ---------------------------------------------------------------------------

  lemma LaterKeeps(p: Payments, now: int, later: int)
    requires PaymentsOk(p, now) && now <= later
    ensures PaymentsOk(p, later)
  {
    forall i | 0 <= i < |p.orders|
      ensures OrderOk(p.orders[i], later) && HoldsAmount(p.orders, p.reservations, i, later)
    {
      assert OrderOk(p.orders[i], now);
      assert HoldsAmount(p.orders, p.reservations, i, now);
    }
  }

  /** Replacing one order by another that is, or is not, automatically paid for the same cents. */
  lemma BooksAfterUpdate(orders: seq<Order>, receipts: seq<Receipt>, i: nat, o: Order)
    requires i < |orders| && BooksBalance(orders, receipts)
    requires forall merchant :: AutoPaidCents(merchant)(o) == AutoPaidCents(merchant)(orders[i])
    ensures BooksBalance(orders[i := o], receipts)
  {
    forall merchant
      ensures Sum(orders[i := o], AutoPaidCents(merchant)) == Sum(receipts, MatchedCents(merchant))
    {
      SumUpdate(orders, i, o, AutoPaidCents(merchant));
    }
  }

  /** Changes that neither pay an order nor touch a paid one leave the receipts alone. */
  predicate SameSettlement(o: Order, o': Order) {
    && o'.merchant == o.merchant && o'.expiresAt == o.expiresAt
    && o'.AutoPaid() == o.AutoPaid()
    && (o.AutoPaid() ==> o'.channel == o.channel && o'.actual == o.actual && o'.lockedAt == o.lockedAt)
  }

  lemma ReceiptsAfterUpdate(orders: seq<Order>, orders': seq<Order>, receipts: seq<Receipt>)
    requires ReceiptsOk(orders, receipts) && |orders'| == |orders|
    requires forall i :: 0 <= i < |orders| ==> SameSettlement(orders[i], orders'[i])
    ensures ReceiptsOk(orders', receipts)
  {
    forall k | 0 <= k < |receipts| && receipts[k].order.Some?
      ensures receipts[k].order.value < |orders'| && Settles(orders'[receipts[k].order.value], receipts[k])
    {
      var i := receipts[k].order.value;
      assert Settles(orders[i], receipts[k]) && SameSettlement(orders[i], orders'[i]);
    }
    forall i | 0 <= i < |orders'| && orders'[i].AutoPaid() ensures HasReceipt(receipts, i) {
      assert SameSettlement(orders[i], orders'[i]);
    }
  }

  predicate FreshOrder(p: Payments, o: Order, now: int) {
    && OrderOk(o, now) && o.status.Pending? && o.channel.None? && o.lockedAt.None?
    && o.merchant !in p.banned
    && forall i :: 0 <= i < |p.orders| ==>
         p.orders[i].merchant != o.merchant || p.orders[i].outTradeNo != o.outTradeNo
  }

  lemma AddOrderKeeps(p: Payments, o: Order, now: int)
    requires PaymentsOk(p, now) && FreshOrder(p, o, now)
    ensures PaymentsOk(AddOrder(p, o), now)
    ensures Advances(p, AddOrder(p, o))
  {
    var p' := AddOrder(p, o);
    forall merchant
      ensures Sum(p'.orders, AutoPaidCents(merchant)) == Sum(p'.receipts, MatchedCents(merchant))
    {
      SumAppend(p.orders, o, AutoPaidCents(merchant));
    }
    forall i | 0 <= i < |p'.orders| ensures HoldsAmount(p'.orders, p'.reservations, i, now) {
      if i < |p.orders| {
        assert HoldsAmount(p.orders, p.reservations, i, now);
      }
    }
    forall i | i in p'.reservations ensures ReservationOk(p'.orders, i, p'.reservations[i]) {
      assert ReservationOk(p.orders, i, p.reservations[i]);
    }
  }

  predicate Lockable(p: Payments, i: nat, ch: Channel, cents: int, now: int) {
    && i < |p.orders|
    && var o := p.orders[i];
    && o.status.Pending? && o.channel.None? && now < o.expiresAt && o.createdAt <= now
    && ch in o.allowed
    && 1 <= cents <= MAX_AMOUNT_CENTS && Distance(o.original, cents) <= MAX_NUDGE
    && cents !in Occupied(Purged(p.reservations, o.merchant, now), o.merchant, ch)
  }

  /** Replacing one order by a later state of it. */
  lemma OrdersAfterUpdate(orders: seq<Order>, banned: set<int>, i: nat, o: Order, now: int)
    requires OrdersOk(orders, now) && BansOk(orders, banned) && OutTradeNosOk(orders)
    requires i < |orders| && OrderOk(o, now) && Follows(orders[i], o) && (o.status.Pending? ==> orders[i].status.Pending?)
    ensures OrdersOk(orders[i := o], now) && BansOk(orders[i := o], banned) && OutTradeNosOk(orders[i := o])
    ensures forall j :: 0 <= j < |orders| ==> Follows(orders[j], orders[i := o][j])
  {
  }

  lemma LockOrderHolds(p: Payments, i: nat, ch: Channel, cents: int, now: int)
    requires ReservationsOk(p.orders, p.reservations) && AmountsHeld(p.orders, p.reservations, now)
    requires Lockable(p, i, ch, cents, now)
    ensures var p' := LockOrder(p, i, ch, cents, now);
            ReservationsOk(p'.orders, p'.reservations) && AmountsHeld(p'.orders, p'.reservations, now)
  {
    var p' := LockOrder(p, i, ch, cents, now);
    var purged := Purged(p.reservations, p.orders[i].merchant, now);
    forall j | j in p'.reservations ensures ReservationOk(p'.orders, j, p'.reservations[j]) {
      if j != i {
        assert ReservationOk(p.orders, j, p.reservations[j]);
      }
    }
    forall j | j in p'.reservations && j != i ensures !SameAmount(p'.reservations[i], p'.reservations[j]) {
      OccupiedHas(purged, j);
    }
    forall j | 0 <= j < |p'.orders| ensures HoldsAmount(p'.orders, p'.reservations, j, now) {
      assert HoldsAmount(p.orders, p.reservations, j, now);
      if j in p.reservations {
        assert ReservationOk(p.orders, j, p.reservations[j]);
      }
    }
  }

  lemma LockOrderKeeps(p: Payments, i: nat, ch: Channel, cents: int, now: int)
    requires PaymentsOk(p, now) && Lockable(p, i, ch, cents, now)
    ensures PaymentsOk(LockOrder(p, i, ch, cents, now), now)
    ensures Advances(p, LockOrder(p, i, ch, cents, now))
  {
    var p' := LockOrder(p, i, ch, cents, now);
    assert OrderOk(p.orders[i], now);
    OrdersAfterUpdate(p.orders, p.banned, i, p'.orders[i], now);
    LockOrderHolds(p, i, ch, cents, now);
    BooksAfterUpdate(p.orders, p.receipts, i, p'.orders[i]);
    ReceiptsAfterUpdate(p.orders, p'.orders, p.receipts);
  }

  predicate Payable(p: Payments, i: nat, ch: Channel, at: int) {
    && i < |p.orders|
    && var o := p.orders[i];
    && !o.EverPaid() && ch in o.allowed && (o.channel.Some? ==> o.channel == Some(ch))
    && o.merchant !in p.banned
  }

  lemma PayOrderHolds(p: Payments, i: nat, ch: Channel, manual: bool, at: int)
    requires ReservationsOk(p.orders, p.reservations) && AmountsHeld(p.orders, p.reservations, at)
    requires Payable(p, i, ch, at)
    ensures var p' := PayOrder(p, i, ch, manual, at);
            ReservationsOk(p'.orders, p'.reservations) && AmountsHeld(p'.orders, p'.reservations, at)
  {
    var p' := PayOrder(p, i, ch, manual, at);
    forall j | j in p'.reservations ensures ReservationOk(p'.orders, j, p'.reservations[j]) {
      assert ReservationOk(p.orders, j, p.reservations[j]);
    }
    forall j | 0 <= j < |p'.orders| ensures HoldsAmount(p'.orders, p'.reservations, j, at) {
      assert HoldsAmount(p.orders, p.reservations, j, at);
    }
  }

  /** The parts of the invariant that do not depend on who paid. */
  lemma PayOrderKeepsTables(p: Payments, i: nat, ch: Channel, manual: bool, at: int)
    requires PaymentsOk(p, at) && Payable(p, i, ch, at)
    requires manual || (p.orders[i].status.Pending? && p.orders[i].lockedAt.Some?)
    ensures var p' := PayOrder(p, i, ch, manual, at);
            && OrdersOk(p'.orders, at)
            && ReservationsOk(p'.orders, p'.reservations)
            && AmountsHeld(p'.orders, p'.reservations, at)
            && RefundsOk(p'.orders, p'.refunds)
            && BansOk(p'.orders, p'.banned)
            && OutTradeNosOk(p'.orders)
            && Advances(p, p')
  {
    var p' := PayOrder(p, i, ch, manual, at);
    assert OrderOk(p.orders[i], at);
    OrdersAfterUpdate(p.orders, p.banned, i, p'.orders[i], at);
    PayOrderHolds(p, i, ch, manual, at);
  }

  lemma PayManuallyKeeps(p: Payments, i: nat, ch: Channel, at: int)
    requires PaymentsOk(p, at) && Payable(p, i, ch, at)
    ensures PaymentsOk(PayOrder(p, i, ch, true, at), at)
    ensures Advances(p, PayOrder(p, i, ch, true, at))
  {
    var p' := PayOrder(p, i, ch, true, at);
    PayOrderKeepsTables(p, i, ch, true, at);
    BooksAfterUpdate(p.orders, p.receipts, i, p'.orders[i]);
    ReceiptsAfterUpdate(p.orders, p'.orders, p.receipts);
  }

  /** A receipt that pays an order: both rows change in one transaction. */
  function Settle(p: Payments, i: nat, r: Receipt, at: int): Payments
    requires i < |p.orders|
  {
    AddReceipt(PayOrder(p, i, r.channel, false, at), r.(order := Some(i)))
  }

  predicate NewEvent(p: Payments, r: Receipt) {
    forall k :: 0 <= k < |p.receipts| ==> p.receipts[k].merchant != r.merchant || p.receipts[k].eventId != r.eventId
  }

  predicate Matches(o: Order, r: Receipt, now: int) {
    && o.merchant == r.merchant
    && o.Asks(r.channel, r.cents)
    && o.status.Pending?
    && now < o.expiresAt
    && o.createdAt <= r.occurredAt
    && o.lockedAt.Some? && o.lockedAt.value <= r.occurredAt < o.expiresAt
    && r.occurredAt <= now + 30 * SECOND
  }

  /** A new receipt keeps the match with the orders when it settles the order it names. */
  lemma ReceiptsAfterAppend(orders: seq<Order>, orders': seq<Order>, receipts: seq<Receipt>, r: Receipt)
    requires ReceiptsOk(orders, receipts) && |orders'| == |orders|
    requires forall k :: 0 <= k < |receipts| ==> receipts[k].merchant != r.merchant || receipts[k].eventId != r.eventId
    requires forall j :: 0 <= j < |orders| && r.order != Some(j) ==> SameSettlement(orders[j], orders'[j])
    requires r.order.Some? ==> && r.order.value < |orders| && !orders[r.order.value].AutoPaid()
                               && Settles(orders'[r.order.value], r)
    ensures ReceiptsOk(orders', receipts + [r])
  {
    var all := receipts + [r];
    forall k | 0 <= k < |all| && all[k].order.Some?
      ensures all[k].order.value < |orders'| && Settles(orders'[all[k].order.value], all[k])
      ensures k < |receipts| ==> r.order != all[k].order
    {
      if k < |receipts| {
        assert Settles(orders[all[k].order.value], receipts[k]);
      }
    }
    forall j | 0 <= j < |orders'| && orders'[j].AutoPaid() ensures HasReceipt(all, j) {
      if r.order == Some(j) {
        assert all[|receipts|].order == Some(j);
      } else {
        assert SameSettlement(orders[j], orders'[j]);
        var k :| 0 <= k < |receipts| && receipts[k].order == Some(j);
        assert all[k].order == Some(j);
      }
    }
  }

  lemma SettleKeeps(p: Payments, i: nat, r: Receipt, now: int, at: int)
    requires PaymentsOk(p, at) && i < |p.orders| && Matches(p.orders[i], r, now)
    requires p.orders[i].merchant !in p.banned && NewEvent(p, r)
    ensures PaymentsOk(Settle(p, i, r, at), at)
    ensures Advances(p, Settle(p, i, r, at))
  {
    var p' := Settle(p, i, r, at);
    var matched := r.(order := Some(i));
    assert OrderOk(p.orders[i], at);
    PayOrderKeepsTables(p, i, r.channel, false, at);
    ReceiptsAfterAppend(p.orders, p'.orders, p.receipts, matched);
    forall merchant
      ensures Sum(p'.orders, AutoPaidCents(merchant)) == Sum(p'.receipts, MatchedCents(merchant))
    {
      SumUpdate(p.orders, i, p'.orders[i], AutoPaidCents(merchant));
      SumAppend(p.receipts, matched, MatchedCents(merchant));
    }
  }

  lemma AddUnmatchedKeeps(p: Payments, r: Receipt, now: int)
    requires PaymentsOk(p, now) && r.order.None? && NewEvent(p, r)
    ensures PaymentsOk(AddReceipt(p, r), now)
    ensures Advances(p, AddReceipt(p, r))
  {
    var p' := AddReceipt(p, r);
    ReceiptsAfterAppend(p.orders, p'.orders, p.receipts, r);
    forall merchant
      ensures Sum(p'.orders, AutoPaidCents(merchant)) == Sum(p'.receipts, MatchedCents(merchant))
    {
      SumAppend(p.receipts, r, MatchedCents(merchant));
    }
  }

  lemma ExpireOrderHolds(p: Payments, i: nat, reason: ExpireReason, now: int)
    requires OrdersOk(p.orders, now) && i < |p.orders| && p.orders[i].status.Pending?
    requires ReservationsOk(p.orders, p.reservations) && AmountsHeld(p.orders, p.reservations, now)
    ensures var p' := ExpireOrder(p, i, reason);
            ReservationsOk(p'.orders, p'.reservations) && AmountsHeld(p'.orders, p'.reservations, now)
  {
    var p' := ExpireOrder(p, i, reason);
    forall j | j in p'.reservations ensures ReservationOk(p'.orders, j, p'.reservations[j]) {
      assert ReservationOk(p.orders, j, p.reservations[j]);
    }
    forall j, k | j in p'.reservations && k in p'.reservations && j != k
      ensures !SameAmount(p'.reservations[j], p'.reservations[k])
    {
      assert !SameAmount(p.reservations[j], p.reservations[k]);
    }
    forall j | 0 <= j < |p'.orders| ensures HoldsAmount(p'.orders, p'.reservations, j, now) {
      assert HoldsAmount(p.orders, p.reservations, j, now);
    }
  }

  lemma ExpireOrderKeeps(p: Payments, i: nat, reason: ExpireReason, now: int)
    requires PaymentsOk(p, now) && i < |p.orders| && p.orders[i].status.Pending?
    requires reason.Timeout? ==> p.orders[i].expiresAt <= now
    ensures PaymentsOk(ExpireOrder(p, i, reason), now)
    ensures Advances(p, ExpireOrder(p, i, reason))
  {
    var p' := ExpireOrder(p, i, reason);
    assert OrderOk(p.orders[i], now);
    OrdersAfterUpdate(p.orders, p.banned, i, p'.orders[i], now);
    ExpireOrderHolds(p, i, reason, now);
    BooksAfterUpdate(p.orders, p.receipts, i, p'.orders[i]);
    ReceiptsAfterUpdate(p.orders, p'.orders, p.receipts);
  }

  lemma {:induction false} BannedRowsSum(orders: seq<Order>, orders': seq<Order>, merchant: int, m: int)
    requires |orders'| == |orders|
    requires forall i :: 0 <= i < |orders| ==> orders'[i] == BannedRow(orders[i], merchant)
    ensures Sum(orders', AutoPaidCents(m)) == Sum(orders, AutoPaidCents(m))
  {
    if orders != [] {
      var n := |orders| - 1;
      BannedRowsSum(orders[..n], orders'[..n], merchant, m);
    }
  }

  lemma ExpireBannedOrders(p: Payments, merchant: int, now: int)
    requires OrdersOk(p.orders, now) && AmountsHeld(p.orders, p.reservations, now)
    ensures var p' := ExpireBanned(p, merchant);
            OrdersOk(p'.orders, now) && AmountsHeld(p'.orders, p'.reservations, now)
  {
    var p' := ExpireBanned(p, merchant);
    forall i | 0 <= i < |p'.orders|
      ensures OrderOk(p'.orders[i], now) && HoldsAmount(p'.orders, p'.reservations, i, now)
    {
      assert OrderOk(p.orders[i], now) && HoldsAmount(p.orders, p.reservations, i, now);
      assert p'.orders[i] == BannedRow(p.orders[i], merchant);
    }
  }

  lemma ExpireBannedHolds(p: Payments, merchant: int)
    requires ReservationsOk(p.orders, p.reservations)
    ensures ReservationsOk(ExpireBanned(p, merchant).orders, ExpireBanned(p, merchant).reservations)
  {
    var p' := ExpireBanned(p, merchant);
    forall i | i in p'.reservations ensures ReservationOk(p'.orders, i, p'.reservations[i]) {
      assert ReservationOk(p.orders, i, p.reservations[i]);
      assert p'.orders[i] == BannedRow(p.orders[i], merchant);
    }
    forall i, j | i in p'.reservations && j in p'.reservations && i != j
      ensures !SameAmount(p'.reservations[i], p'.reservations[j])
    {
      assert !SameAmount(p.reservations[i], p.reservations[j]);
    }
  }

  lemma ExpireBannedKeeps(p: Payments, merchant: int, now: int)
    requires PaymentsOk(p, now)
    ensures var p' := ExpireBanned(p, merchant).(banned := p.banned + {merchant});
            PaymentsOk(p', now) && Advances(p, p')
  {
    ExpireBannedOrders(p, merchant, now);
    ExpireBannedHolds(p, merchant);
    var p' := ExpireBanned(p, merchant).(banned := p.banned + {merchant});
    forall m ensures Sum(p'.orders, AutoPaidCents(m)) == Sum(p'.receipts, MatchedCents(m)) {
      BannedRowsSum(p.orders, p'.orders, merchant, m);
    }
    ReceiptsAfterUpdate(p.orders, p'.orders, p.receipts);
  }

  lemma RefundOrderHolds(p: Payments, i: nat, at: int)
    requires ReservationsOk(p.orders, p.reservations) && AmountsHeld(p.orders, p.reservations, at)
    requires i < |p.orders| && p.orders[i].status.Paid?
    ensures var p' := RefundOrder(p, i, at);
            ReservationsOk(p'.orders, p'.reservations) && AmountsHeld(p'.orders, p'.reservations, at)
  {
    var p' := RefundOrder(p, i, at);
    forall j | j in p'.reservations ensures ReservationOk(p'.orders, j, p'.reservations[j]) {
      assert ReservationOk(p.orders, j, p.reservations[j]);
    }
    forall j | 0 <= j < |p'.orders| ensures HoldsAmount(p'.orders, p'.reservations, j, at) {
      assert HoldsAmount(p.orders, p.reservations, j, at);
    }
  }

  lemma RefundOrderRefunds(p: Payments, i: nat, at: int)
    requires RefundsOk(p.orders, p.refunds) && i < |p.orders| && p.orders[i].status.Paid?
    ensures RefundsOk(RefundOrder(p, i, at).orders, RefundOrder(p, i, at).refunds)
  {
    var p' := RefundOrder(p, i, at);
    forall k | 0 <= k < |p'.refunds|
      ensures && p'.refunds[k].order < |p'.orders|
              && (p'.refunds[k].status.RefundPending? ==> p'.orders[p'.refunds[k].order].status.Paid?)
              && (p'.refunds[k].status.RefundCompleted? ==> p'.orders[p'.refunds[k].order].status.Refunded?)
    {
      assert p'.refunds[k] == CompletedRow(p.refunds[k], i);
    }
    forall k, l | 0 <= k < l < |p'.refunds| && p'.refunds[k].order == p'.refunds[l].order
      ensures p'.refunds[k].status.RefundRejected? || p'.refunds[k].status != p'.refunds[l].status
    {
      assert p'.refunds[k] == CompletedRow(p.refunds[k], i) && p'.refunds[l] == CompletedRow(p.refunds[l], i);
    }
  }

  lemma RefundOrderKeeps(p: Payments, i: nat, at: int)
    requires PaymentsOk(p, at) && i < |p.orders| && p.orders[i].status.Paid?
    ensures PaymentsOk(RefundOrder(p, i, at), at)
    ensures Advances(p, RefundOrder(p, i, at))
  {
    var p' := RefundOrder(p, i, at);
    assert OrderOk(p.orders[i], at);
    OrdersAfterUpdate(p.orders, p.banned, i, p'.orders[i], at);
    RefundOrderHolds(p, i, at);
    RefundOrderRefunds(p, i, at);
    BooksAfterUpdate(p.orders, p.receipts, i, p'.orders[i]);
    ReceiptsAfterUpdate(p.orders, p'.orders, p.receipts);
  }

  lemma AddRefundKeeps(p: Payments, r: Refund, now: int)
    requires PaymentsOk(p, now)
    requires r.order < |p.orders| && p.orders[r.order].status.Paid? && r.status.RefundPending?
    requires forall k :: 0 <= k < |p.refunds| && p.refunds[k].order == r.order ==> !p.refunds[k].status.RefundPending?
    ensures PaymentsOk(AddRefund(p, r), now)
    ensures Advances(p, AddRefund(p, r))
  {
  }

  lemma RejectedRefunds(p: Payments, k: nat)
    requires RefundsOk(p.orders, p.refunds) && k < |p.refunds|
    ensures RefundsOk(p.orders, RejectRefund(p, k).refunds)
  {
  }

  lemma RejectRefundKeeps(p: Payments, k: nat, now: int)
    requires PaymentsOk(p, now) && k < |p.refunds|
    ensures PaymentsOk(RejectRefund(p, k), now)
    ensures Advances(p, RejectRefund(p, k))
  {
    RejectedRefunds(p, k);
  }

  // ---------------------------------------------------------------------------
  // Consequences
  // ---------------------------------------------------------------------------

  /** No ambiguous payment: two live orders of a merchant never ask for the same cents on the same
      channel, so at most one order can match a receipt. */
  lemma NoAmbiguousPayment(p: Payments, now: int, i: nat, j: nat, r: Receipt, at: int)
    requires PaymentsOk(p, now) && i < |p.orders| && j < |p.orders|
    ensures (&& p.orders[i].status.Pending? && p.orders[j].status.Pending? && p.orders[i].channel.Some?
             && p.orders[i].merchant == p.orders[j].merchant
             && p.orders[i].channel == p.orders[j].channel && p.orders[i].actual == p.orders[j].actual)
            ==> i == j
    ensures Matches(p.orders[i], r, at) && Matches(p.orders[j], r, at) ==> i == j
  {
    assert OrderOk(p.orders[i], now) && OrderOk(p.orders[j], now);
    assert HoldsAmount(p.orders, p.reservations, i, now) && HoldsAmount(p.orders, p.reservations, j, now);
    if i in p.reservations && j in p.reservations && i != j {
      assert ReservationOk(p.orders, i, p.reservations[i]) && ReservationOk(p.orders, j, p.reservations[j]);
      assert !SameAmount(p.reservations[i], p.reservations[j]);
    }
  }

  /** Quarantine: an amount can be locked again only when every unpaid order of the merchant that asked
      for it has expired and its deadline is a day past. */
  lemma LockRespectsQuarantine(p: Payments, i: nat, ch: Channel, cents: int, now: int, j: nat)
    requires PaymentsOk(p, now) && Lockable(p, i, ch, cents, now)
    requires j < |p.orders| && p.orders[j].merchant == p.orders[i].merchant && p.orders[j].Asks(ch, cents)
    ensures p.orders[j].EverPaid() || (p.orders[j].status.Expired? && p.orders[j].expiresAt + DAY <= now)
  {
    assert HoldsAmount(p.orders, p.reservations, j, now);
    var purged := Purged(p.reservations, p.orders[i].merchant, now);
    if j in p.reservations {
      assert ReservationOk(p.orders, j, p.reservations[j]);
      if j in purged {
        OccupiedHas(purged, j);
      }
    }
  }

  lemma AdvancesEvolves(p: Payments, p': Payments, p'': Payments)
    requires Evolves(p, p') && Advances(p', p'')
    ensures Evolves(p, p'')
  {
    forall i | 0 <= i < |p.orders| ensures Descends(p.orders[i], p''.orders[i]) {
      assert Descends(p.orders[i], p'.orders[i]);
      assert Follows(p'.orders[i], p''.orders[i]);
    }
  }
}
