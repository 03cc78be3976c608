/** What each call does, stated on the rows of the tables alone: when exactly it goes through, what it then
    writes, and that nothing else changes. */
module Effects {
  import opened Base
  import opened Allocation
  import P = Payment
  import B = Ledger
  import E = Entitlement
  import Money
  import opened System
  import opened Steps
  import opened Runs

  /** All rows but one are as before. */
  ghost predicate OnlyRow<T>(rows: seq<T>, rows': seq<T>, i: nat) {
    |rows'| == |rows| && forall j :: 0 <= j < |rows| && j != i ==> rows'[j] == rows[j]
  }

  // ---------------------------------------------------------------------------
  // Payments
  // ---------------------------------------------------------------------------

  /** A purchase that can still be fulfilled. */
  predicate Fulfillable(s: State, k: nat) {
    k < |s.books.purchases| && s.books.purchases[k].state.Pending? && s.now < s.books.purchases[k].expiresAt
  }

  /** An unpaid order can be paid by a receipt while it is pending and not overdue, by hand also when it has
      expired; on the channel it was priced for, if any; and for a subscription only while its purchase waits. */
  lemma PaymentGuards(s: State, i: nat, ch: Channel, manual: bool)
    requires Reachable(s) && i < |s.pay.orders| && !s.pay.orders[i].status.Paid?
    ensures var o := s.pay.orders[i];
            MarkPaid(s, i, ch, manual).Ok? <==>
              && (o.status.Pending? || (manual && o.status.Expired?)) && (manual || s.now < o.expiresAt)
              && (o.channel.None? || o.channel == Some(ch))
              && (o.purchase.Some? ==> Fulfillable(s, o.purchase.value))
  {
    ReachableOk(s);
    assert BackLinked(s.pay.orders, s.books.purchases, i);
    if s.pay.orders[i].purchase.Some? {
      assert Linked(s.pay.orders, s.books.purchases, s.pay.orders[i].purchase.value, s.now);
    }
  }

  /** The row of an order once paid: for the amount locked, or for its price if none was. */
  ghost predicate PaidAs(o: P.Order, o': P.Order, ch: Channel, manual: bool, at: int) {
    o' == o.(status := P.Paid, reason := None, paidAt := Some(at), manual := manual, channel := Some(ch),
             actual := if o.actual.Some? then o.actual else Some(o.original),
             offset := if o.actual.Some? then o.offset else Some(0))
  }

  /** Paying changes one order, frees its amount and, for a subscription, fulfils its purchase. */
  lemma PaymentWrites(s: State, i: nat, ch: Channel, manual: bool)
    requires Reachable(s) && MarkPaid(s, i, ch, manual).Ok? && !s.pay.orders[i].status.Paid?
    ensures var s' := MarkPaid(s, i, ch, manual).value;
            && OnlyRow(s.pay.orders, s'.pay.orders, i)
            && PaidAs(s.pay.orders[i], s'.pay.orders[i], ch, manual, s.now)
            && s'.pay.reservations == s.pay.reservations - {i}
            && s'.pay.receipts == s.pay.receipts && s'.pay.refunds == s.pay.refunds && s'.pay.banned == s.pay.banned
            && s'.now == s.now && s'.commands == s.commands
            && (s.pay.orders[i].purchase.None? ==> s'.books == s.books)
  {
    hide B.Fulfil;
    ReachableOk(s);
    MarkPaidRoute(s, i, ch, manual);
    assert P.OrderOk(s.pay.orders[i], s.now);
  }

  /** What fulfilling the purchase of a paid order writes besides the entitlement itself: the purchase as paid,
      its grant as the last row, and on a switch the end of every grant of the chain replaced. */
  lemma FulfilmentWrites(s: State, i: nat, ch: Channel, manual: bool, k: nat)
    requires Reachable(s) && MarkPaid(s, i, ch, manual).Ok? && !s.pay.orders[i].status.Paid?
    requires s.pay.orders[i].purchase == Some(k)
    ensures k < |s.books.purchases|
    ensures var pu := s.books.purchases[k];
            var books := MarkPaid(s, i, ch, manual).value.books;
            && books.plans == s.books.plans && books.subs.Keys == s.books.subs.Keys + {pu.buyer}
            && books.purchases == s.books.purchases[k := pu.(state := B.Paid, paidAt := Some(s.now))]
            && |books.grants| == |s.books.grants| + 1
            && (forall j :: 0 <= j < |s.books.grants| ==>
                  books.grants[j]
                  == if pu.kind.Switch? && pu.buyer in s.books.subs && s.books.grants[j].merchant == pu.buyer
                        && s.books.grants[j].chain == s.books.subs[pu.buyer].chain && s.books.grants[j].voidedAt.None?
                     then s.books.grants[j].(voidedAt := Some(s.now)) else s.books.grants[j])
            && pu.buyer in books.subs
            && books.grants[|s.books.grants|]
               == E.Grant(Some(k), pu.buyer, books.subs[pu.buyer].chain, pu.kind, pu.snapshot.days * DAY,
                          books.subs[pu.buyer].expiresAt - pu.snapshot.days * DAY, None, pu.snapshot, None, None)
  {
    ReachableOk(s);
    MarkPaidRoute(s, i, ch, manual);
    B.FulfilWrites(s.books, k, s.now);
  }

  // ---------------------------------------------------------------------------
  // Receipts
  // ---------------------------------------------------------------------------

  /** A receipt not seen before, of a valid amount. */
  predicate Admissible(s: State, r: P.Receipt) {
    && 1 <= r.cents <= MAX_AMOUNT_CENTS
    && (forall k :: 0 <= k < |s.pay.receipts| ==>
          s.pay.receipts[k].merchant != r.merchant || s.pay.receipts[k].eventId != r.eventId)
    && (r.providerNo == ""
        || forall k :: 0 <= k < |s.pay.receipts| ==>
             s.pay.receipts[k].merchant != r.merchant || s.pay.receipts[k].channel != r.channel
             || s.pay.receipts[k].providerNo != r.providerNo)
  }

  /** The order asks for what the receipt reports, and was paid while it held its amount. */
  predicate Fits(o: P.Order, r: P.Receipt, seen: int) {
    && o.merchant == r.merchant && o.channel == Some(r.channel) && o.actual == Some(r.cents)
    && o.status.Pending? && seen < o.expiresAt
    && o.lockedAt.Some? && o.lockedAt.value <= r.occurredAt < o.expiresAt
    && r.occurredAt <= seen + 30 * SECOND
  }

  lemma FitsIs(s: State, r: P.Receipt, seen: int, i: nat)
    requires StateOk(s) && i < |s.pay.orders|
    ensures P.Matches(s.pay.orders[i], r, seen) <==> Fits(s.pay.orders[i], r, seen)
  {
    assert P.OrderOk(s.pay.orders[i], s.now);
  }

  /** The order a receipt fits is the one it finds. */
  lemma FoundIs(s: State, r: P.Receipt, seen: int, i: nat)
    requires StateOk(s) && i < |s.pay.orders|
    ensures Fits(s.pay.orders[i], r, seen) <==> FirstMatch(s.pay.orders, r, seen) == Some(i)
  {
    FitsIs(s, r, seen, i);
    var first := FirstMatch(s.pay.orders, r, seen);
    if first.Some? {
      P.NoAmbiguousPayment(s.pay, s.now, first.value, i, r, seen);
    }
  }

  /** The purchase of a pending order that is not overdue waits to be fulfilled. */
  lemma PendingIsFulfillable(s: State, i: nat)
    requires StateOk(s) && i < |s.pay.orders| && s.pay.orders[i].status.Pending? && s.now < s.pay.orders[i].expiresAt
    ensures s.pay.orders[i].purchase.Some? ==> Fulfillable(s, s.pay.orders[i].purchase.value)
  {
    assert BackLinked(s.pay.orders, s.books.purchases, i);
    if s.pay.orders[i].purchase.Some? {
      assert Linked(s.pay.orders, s.books.purchases, s.pay.orders[i].purchase.value, s.now);
    }
  }

  lemma MatchPays(s: State, r: P.Receipt, i: nat)
    requires StateOk(s) && i < |s.pay.orders| && s.pay.orders[i].status.Pending?
    requires s.pay.orders[i].channel == Some(r.channel)
    ensures MarkPaid(s, i, r.channel, false).Ok? <==> s.now < s.pay.orders[i].expiresAt
    ensures MarkPaid(s, i, r.channel, false).Err? ==> MarkPaid(s, i, r.channel, false).error.NotPayable?
  {
    if s.now < s.pay.orders[i].expiresAt {
      PendingIsFulfillable(s, i);
    }
  }

  lemma NewIs(s: State, r: P.Receipt)
    ensures Admissible(s, r) <==>
              && 1 <= r.cents <= MAX_AMOUNT_CENTS && FindEvent(s.pay.receipts, r.merchant, r.eventId).None?
              && (r.providerNo == "" || !KnownProviderNo(s.pay.receipts, r))
  {
  }

  /** A receipt is answered as the payment of an order, with or without a purchase, exactly when it is new and
      valid, its merchant is not banned, and the order fits it and is not overdue by the time it is paid. */
  lemma ReceiptIsMatched(s: State, authorized: bool, r: P.Receipt, seen: int, i: nat)
    requires Reachable(s) && i < |s.pay.orders|
    ensures (var result := Ingest(s, authorized, r, seen);
             result.Ok? && !result.value.1.duplicate && result.value.1.trade == Some(i))
            <==> authorized && Admissible(s, r) && r.merchant !in s.pay.banned
                 && Fits(s.pay.orders[i], r, seen) && s.now < s.pay.orders[i].expiresAt
  {
    ReachableOk(s);
    NewIs(s, r);
    FoundIs(s, r, seen, i);
    if Fits(s.pay.orders[i], r, seen) {
      MatchPays(s, r, i);
    }
  }

  /** It then pays that order, as every payment does, and stores the receipt with it. */
  lemma ReceiptPays(s: State, r: P.Receipt, seen: int, i: nat)
    requires Reachable(s) && i < |s.pay.orders| && Admissible(s, r) && r.merchant !in s.pay.banned
    requires Fits(s.pay.orders[i], r, seen) && s.now < s.pay.orders[i].expiresAt
    ensures MarkPaid(s, i, r.channel, false).Ok? && Ingest(s, true, r, seen).Ok?
    ensures var paid := MarkPaid(s, i, r.channel, false).value;
            var (s', reply) := Ingest(s, true, r, seen).value;
            && reply == Reply(|s.pay.receipts|, false, Some(i), Matched)
            && s'.pay.receipts == s.pay.receipts + [r.(order := Some(i))]
            && s'.pay.(receipts := s.pay.receipts) == paid.pay
            && s'.books == paid.books && s'.now == s.now && s'.commands == s.commands
            && OnlyRow(s.pay.orders, s'.pay.orders, i)
            && PaidAs(s.pay.orders[i], s'.pay.orders[i], r.channel, false, s.now)
  {
    ReachableOk(s);
    NewIs(s, r);
    FoundIs(s, r, seen, i);
    MatchPays(s, r, i);
    PaymentWrites(s, i, r.channel, false);
  }

  /** A receipt that no order fits, or of a banned merchant, is stored unmatched with its reason; one whose
      order ran out since it was seen is refused. Nothing else happens. */
  lemma ReceiptIsUnmatched(s: State, r: P.Receipt, seen: int)
    requires Reachable(s) && Admissible(s, r)
    requires r.merchant in s.pay.banned || forall i :: 0 <= i < |s.pay.orders| ==> !Fits(s.pay.orders[i], r, seen)
    ensures var reason :=
              if r.merchant in s.pay.banned then BannedMerchant
              else if exists i :: 0 <= i < |s.pay.orders| && s.pay.orders[i].merchant == r.merchant
                                  && s.pay.orders[i].channel == Some(r.channel) && s.pay.orders[i].actual == Some(r.cents)
                                  && s.pay.orders[i].status.Pending?
                                  && (s.pay.orders[i].expiresAt <= seen || s.pay.orders[i].expiresAt <= r.occurredAt)
              then ExpiredOrder else NoMatchingOrder;
            Ingest(s, true, r, seen)
            == Ok((s.(pay := s.pay.(receipts := s.pay.receipts + [r.(order := None)])),
                   Reply(|s.pay.receipts|, false, None, reason)))
  {
    ReachableOk(s);
    NewIs(s, r);
    var first := FirstMatch(s.pay.orders, r, seen);
    if first.Some? {
      FitsIs(s, r, seen, first.value);
    }
  }

  lemma LateMatchIsRefused(s: State, r: P.Receipt, seen: int, i: nat)
    requires Reachable(s) && i < |s.pay.orders| && Admissible(s, r) && r.merchant !in s.pay.banned
    requires Fits(s.pay.orders[i], r, seen) && s.pay.orders[i].expiresAt <= s.now
    ensures Ingest(s, true, r, seen) == Err(NotPayable)
  {
    ReachableOk(s);
    NewIs(s, r);
    FoundIs(s, r, seen, i);
    MatchPays(s, r, i);
  }

  // ---------------------------------------------------------------------------
  // Payment by hand
  // ---------------------------------------------------------------------------

  /** The channel a payment by hand is booked on: the one named, else the one the order is priced for. */
  function HandChannel(o: P.Order, channel: Option<Channel>): Option<Channel> {
    if channel.Some? then channel else o.channel
  }

  predicate PayableByHand(s: State, m: int, i: nat, channel: Option<Channel>) {
    && i < |s.pay.orders| && s.pay.orders[i].merchant == m && m !in s.pay.banned
    && (s.pay.orders[i].status.Pending? || s.pay.orders[i].status.Expired?)
    && HandChannel(s.pay.orders[i], channel).Some?
    && HandChannel(s.pay.orders[i], channel).value in s.pay.orders[i].allowed
    && (s.pay.orders[i].channel.None? || s.pay.orders[i].channel == HandChannel(s.pay.orders[i], channel))
    && (s.pay.orders[i].purchase.Some? ==> Fulfillable(s, s.pay.orders[i].purchase.value))
  }

  /** Vouching for a payment, without replay protection, pays an unpaid order of the merchant on an allowed
      channel, and is refused in every other case. */
  lemma SupplementPays(s: State, m: int, i: nat, channel: Option<Channel>, digest: string)
    requires Reachable(s)
    ensures Supplement(s, m, i, channel, "", digest).Ok? <==> PayableByHand(s, m, i, channel)
    ensures PayableByHand(s, m, i, channel) ==>
              var s' := Supplement(s, m, i, channel, "", digest).value;
              && MarkPaid(s, i, HandChannel(s.pay.orders[i], channel).value, true) == Ok(s')
              && OnlyRow(s.pay.orders, s'.pay.orders, i)
              && PaidAs(s.pay.orders[i], s'.pay.orders[i], HandChannel(s.pay.orders[i], channel).value, true, s.now)
  {
    if i < |s.pay.orders| && !s.pay.orders[i].status.Paid? && HandChannel(s.pay.orders[i], channel).Some? {
      var ch := HandChannel(s.pay.orders[i], channel).value;
      PaymentGuards(s, i, ch, true);
      if MarkPaid(s, i, ch, true).Ok? {
        PaymentWrites(s, i, ch, true);
      }
    }
  }

  /** A record under the key that still answers. */
  predicate Answered(s: State, key: CommandKey) {
    key in s.commands && s.now < s.commands[key].expiresAt
  }

  /** A key has 8 to 128 characters, no white space at either end and no line break or null inside; under any other a
      command is refused. */
  lemma KeyRule(s: State, m: int, i: nat, channel: Option<Channel>, key: string, digest: string)
    ensures KeyOk(key) <==>
              8 <= |key| <= 128 && !Money.IsSpace(key[0]) && !Money.IsSpace(key[|key| - 1])
              && '\r' !in key && '\n' !in key && '\0' !in key
    ensures key != "" && !KeyOk(key) ==>
              Supplement(s, m, i, channel, key, digest).Err? && RefundMark(s, m, i, key, digest).Err?
  {
    Money.TrimmedIs(key);
    assert "\r\n\0" == ['\r', '\n', '\0'];
  }

  /** With a key, a first submission does the same and leaves a record for a day; an answered key does nothing
      again. Other keys are left alone. */
  lemma SupplementKeyed(s: State, m: int, i: nat, channel: Option<Channel>, key: string, digest: string)
    requires Reachable(s) && KeyOk(key)
    ensures var command := CommandKey(m, SupplementRoute, key);
            if i < |s.pay.orders| && s.pay.orders[i].merchant == m && Answered(s, command) then
              Supplement(s, m, i, channel, key, digest)
              == if s.commands[command].digest == digest then Ok(s) else Err(IdempotencyConflict)
            else
              && (Supplement(s, m, i, channel, key, digest).Ok? <==> PayableByHand(s, m, i, channel))
              && (PayableByHand(s, m, i, channel) ==>
                    var plain := Supplement(s, m, i, channel, "", digest);
                    && plain.Ok?
                    && Supplement(s, m, i, channel, key, digest)
                       == Ok(plain.value.(commands := s.commands[command := CommandRecord(digest, s.now + DAY)])))
  {
    hide SupplementOnce, MarkPaid, Fulfillable;
    var command := CommandKey(m, SupplementRoute, key);
    SupplementPays(s, m, i, channel, digest);
    if PayableByHand(s, m, i, channel) {
      PaymentWrites(s, i, HandChannel(s.pay.orders[i], channel).value, true);
    }
    assert LiveCommands(s.commands, command, s.now)[command := CommandRecord(digest, s.now + DAY)]
           == s.commands[command := CommandRecord(digest, s.now + DAY)];
  }

  // ---------------------------------------------------------------------------
  // Refunds
  // ---------------------------------------------------------------------------

  /** The refund requests once order `i` is refunded: its pending one is completed. */
  ghost predicate RequestsCompleted(refunds: seq<P.Refund>, refunds': seq<P.Refund>, i: nat) {
    && |refunds'| == |refunds|
    && forall k :: 0 <= k < |refunds| ==>
         refunds'[k] == if refunds[k].order == i && refunds[k].status.RefundPending?
                        then refunds[k].(status := P.RefundCompleted) else refunds[k]
  }

  /** Order `i` is refunded at this instant, and no other order changes. */
  ghost predicate OrderRefunded(s: State, s': State, i: nat)
    requires i < |s.pay.orders|
  {
    && s'.pay.orders == s.pay.orders[i := s.pay.orders[i].(status := P.Refunded, refundedAt := Some(s.now))]
    && RequestsCompleted(s.pay.refunds, s'.pay.refunds, i)
    && s'.pay.reservations == s.pay.reservations && s'.pay.receipts == s.pay.receipts && s'.pay.banned == s.pay.banned
    && s'.now == s.now
  }

  /** A purchase is refunded with its grant, and its quota stays used. */
  ghost predicate PurchaseRefunded(s: State, s': State, k: nat)
    requires k < |s.books.purchases|
  {
    && s'.books.purchases == s.books.purchases[k := s.books.purchases[k].(state := B.Refunded)]
    && s'.books.counters == s.books.counters && s'.books.plans == s.books.plans
    && |s'.books.grants| == |s.books.grants|
    && (forall j :: 0 <= j < |s.books.grants| ==>
          s'.books.grants[j] == if s.books.grants[j].purchase == Some(k)
                                then s.books.grants[j].(refundedAt := Some(s.now)) else s.books.grants[j])
    && s'.books.subs.Keys == s.books.subs.Keys
    && (forall m :: m in s.books.subs ==>
          if m == s.books.purchases[k].buyer
             && exists j :: 0 <= j < |s.books.grants| && s.books.grants[j].purchase == Some(k)
                            && s.books.grants[j].chain == s.books.subs[m].chain
          then
            && s'.books.subs[m].chain == s.books.subs[m].chain && s'.books.subs[m].revision == s.books.subs[m].revision + 1
          else s'.books.subs[m] == s.books.subs[m])
  }

  lemma TakenBack(b: B.Books, k: nat, i: nat, now: int)
    requires B.BooksOk(b, now) && k < |b.purchases| && b.purchases[k].state.Paid?
    requires i < |b.grants| && b.grants[i].purchase == Some(k)
    ensures var b' := B.TakeBack(b, k, i, now);
            && |b'.grants| == |b.grants| && b'.plans == b.plans
            && forall j :: 0 <= j < |b.grants| ==>
                 b'.grants[j] == if b.grants[j].purchase == Some(k)
                                 then b.grants[j].(refundedAt := Some(now)) else b.grants[j]
    ensures forall j :: 0 <= j < |b.grants| && j != i ==> b.grants[j].purchase != Some(k)
    ensures var m := b.purchases[k].buyer; var b' := B.TakeBack(b, k, i, now);
            m in b.subs ==>
              m in b'.subs && if b.grants[i].chain == b.subs[m].chain
                              then b'.subs[m].chain == b.subs[m].chain && b'.subs[m].revision == b.subs[m].revision + 1
                              else b'.subs[m] == b.subs[m]
  {
    B.RefundWrites(b, k, i, now);
    forall j | 0 <= j < |b.grants| && j != i ensures b.grants[j].purchase != Some(k) {
      if b.grants[j].purchase == Some(k) {
        B.SoleGrant(b.grants, if i < j then i else j, if i < j then j else i, k);
      }
    }
  }

  /** Exactly the paid orders can be refunded; a refund carries over to the purchase and its grant. */
  lemma RefundEffect(s: State, i: nat)
    requires Reachable(s)
    ensures MarkRefunded(s, i).Ok? <==> i < |s.pay.orders| && s.pay.orders[i].status.Paid?
    ensures MarkRefunded(s, i).Ok? ==>
              var s' := MarkRefunded(s, i).value;
              && OrderRefunded(s, s', i) && s'.commands == s.commands
              && match s.pay.orders[i].purchase
                 case None => s'.books == s.books
                 case Some(k) => k < |s.books.purchases| && PurchaseRefunded(s, s', k)
  {
    ReachableOk(s);
    if i < |s.pay.orders| && s.pay.orders[i].status.Paid? && s.pay.orders[i].purchase.Some? {
      SubscriptionRefundEffect(s, i);
    }
  }

  lemma SubscriptionRefundEffect(s: State, i: nat)
    requires StateOk(s) && i < |s.pay.orders| && s.pay.orders[i].status.Paid? && s.pay.orders[i].purchase.Some?
    ensures MarkRefunded(s, i).Ok? && s.pay.orders[i].purchase.value < |s.books.purchases|
    ensures PurchaseRefunded(s, MarkRefunded(s, i).value, s.pay.orders[i].purchase.value)
  {
    var k := s.pay.orders[i].purchase.value;
    assert BackLinked(s.pay.orders, s.books.purchases, i);
    assert Linked(s.pay.orders, s.books.purchases, k, s.now);
    B.FindGrantFinds(s.books.grants, k);
    MarkRefundedBooks(s, i);
    var g := B.FindGrant(s.books.grants, k).value;
    B.RefundWrites(s.books, k, g, s.now);
    B.RefundEffect(s.books, k, g, s.now);
    TakenBack(s.books, k, g, s.now);
  }

  /** Resolving a request of the merchant's own paid order: rejecting it leaves the money where it is, approving
      it refunds the order. */
  lemma ResolveEffect(s: State, m: int, k: nat, reject: bool)
    requires Reachable(s)
    ensures ResolveRefund(s, m, k, reject).Ok? <==>
              && k < |s.pay.refunds| && s.pay.refunds[k].order < |s.pay.orders|
              && s.pay.orders[s.pay.refunds[k].order].merchant == m
              && s.pay.orders[s.pay.refunds[k].order].status.Paid?
    ensures ResolveRefund(s, m, k, reject).Ok? && reject ==>
              ResolveRefund(s, m, k, reject).value
              == s.(pay := s.pay.(refunds :=
                      if s.pay.refunds[k].status.RefundPending?
                      then s.pay.refunds[k := s.pay.refunds[k].(status := P.RefundRejected)] else s.pay.refunds))
    ensures ResolveRefund(s, m, k, reject).Ok? && !reject ==>
              var s' := ResolveRefund(s, m, k, reject).value;
              var i := s.pay.refunds[k].order;
              && OrderRefunded(s, s', i) && s'.commands == s.commands
              && (s.pay.refunds[k].status.RefundPending? ==> s'.pay.refunds[k].status.RefundCompleted?)
              && match s.pay.orders[i].purchase
                 case None => s'.books == s.books
                 case Some(p) => p < |s.books.purchases| && PurchaseRefunded(s, s', p)
  {
    if k < |s.pay.refunds| {
      RefundEffect(s, s.pay.refunds[k].order);
    }
  }

  /** Asking for a refund: only for a paid order of the merchant's own and for its whole price; a pending request
      answers for itself, unless it was another one. */
  lemma RequestEffect(s: State, m: int, i: nat, amount: int, outRefundNo: string, digest: string)
    requires Reachable(s)
    ensures RequestRefund(s, m, i, amount, outRefundNo, digest).Ok? <==>
              && i < |s.pay.orders| && s.pay.orders[i].merchant == m && s.pay.orders[i].status.Paid?
              && amount == s.pay.orders[i].original
              && if exists k :: 0 <= k < |s.pay.refunds| && s.pay.refunds[k].order == i && s.pay.refunds[k].status.RefundPending?
                 then digest == "" || exists k :: 0 <= k < |s.pay.refunds| && s.pay.refunds[k].order == i
                                                  && s.pay.refunds[k].status.RefundPending? && s.pay.refunds[k].digest == digest
                 else outRefundNo == "" || forall k :: 0 <= k < |s.pay.refunds| ==> s.pay.refunds[k].outRefundNo != outRefundNo
    ensures RequestRefund(s, m, i, amount, outRefundNo, digest).Ok? ==>
              RequestRefund(s, m, i, amount, outRefundNo, digest).value
              == if HasPendingRefund(s.pay.refunds, i) then s
                 else s.(pay := s.pay.(refunds := s.pay.refunds + [P.Refund(i, outRefundNo, digest, P.RefundPending)]))
  {
    ReachableOk(s);
    var known := PendingRefund(s.pay.refunds, i);
    if known.Some? {
      forall k | 0 <= k < |s.pay.refunds| && s.pay.refunds[k].order == i && s.pay.refunds[k].status.RefundPending?
        ensures k == known.value
      {
      }
    }
  }

  /** Marking an order refunded, with a key or without: a first submission refunds a paid order of the merchant's
      own, an answered key does nothing again. */
  lemma RefundMarkEffect(s: State, m: int, i: nat, key: string, digest: string)
    requires Reachable(s) && (key == "" || KeyOk(key))
    ensures var command := CommandKey(m, RefundMarkRoute, key);
            if key != "" && Answered(s, command) then
              RefundMark(s, m, i, key, digest)
              == if s.commands[command].digest == digest then Ok(s) else Err(IdempotencyConflict)
            else
              && (RefundMark(s, m, i, key, digest).Ok? <==>
                    i < |s.pay.orders| && s.pay.orders[i].merchant == m && s.pay.orders[i].status.Paid?)
              && (RefundMark(s, m, i, key, digest).Ok? ==>
                    && MarkRefunded(s, i).Ok? && OrderRefunded(s, MarkRefunded(s, i).value, i)
                    && RefundMark(s, m, i, key, digest).value
                       == MarkRefunded(s, i).value.(commands :=
                            if key == "" then s.commands else s.commands[command := CommandRecord(digest, s.now + DAY)]))
  {
    hide MarkRefunded, OrderRefunded, PurchaseRefunded, Reachable, KeyOk;
    var command := CommandKey(m, RefundMarkRoute, key);
    RefundEffect(s, i);
    assert LiveCommands(s.commands, command, s.now)[command := CommandRecord(digest, s.now + DAY)]
           == s.commands[command := CommandRecord(digest, s.now + DAY)];
  }

  // ---------------------------------------------------------------------------
  // Opening and pricing orders
  // ---------------------------------------------------------------------------

  /** A merchant takes an order of this price: not banned, entitled, online, and within the site's bounds. */
  predicate TakesOrders(s: State, env: Env, m: int, price: int) {
    && m !in s.pay.banned && env.min <= price <= env.max && env.online
    && m in s.books.subs && s.now < s.books.subs[m].expiresAt
  }

  /** No order opens without a live entitlement, and its channels are those of the plan as it was granted. */
  lemma EligibleIs(s: State, env: Env, m: int, price: int)
    requires StateOk(s) && price >= 1
    ensures Eligible(s, env, m, price).Ok? <==> TakesOrders(s, env, m, price)
    ensures TakesOrders(s, env, m, price) ==>
              s.books.subs[m].snapshot.Some? && Eligible(s, env, m, price).value == s.books.subs[m].snapshot.value.channels
  {
    if m in s.books.subs {
      assert B.CacheAgrees(E.ChainRows(s.books.grants, m, s.books.subs[m].chain), s.books.subs[m], s.now);
    }
  }

  /** An order that still keeps its amount from others: pending, or expired less than a day past its deadline. */
  predicate Keeps(o: P.Order, m: int, ch: Channel, cents: int, now: int) {
    && o.merchant == m && o.channel == Some(ch) && o.actual == Some(cents)
    && (o.status.Pending? || (o.status.Expired? && now < o.expiresAt + DAY))
  }

  predicate Taken(s: State, m: int, ch: Channel, cents: int) {
    exists i :: 0 <= i < |s.pay.orders| && Keeps(s.pay.orders[i], m, ch, cents, s.now)
  }

  /** The reservations that are not lapsed are the amounts that orders keep. */
  lemma OccupiedIsTaken(s: State, m: int, ch: Channel, cents: int)
    requires P.OrdersOk(s.pay.orders, s.now) && P.ReservationsOk(s.pay.orders, s.pay.reservations)
    requires P.AmountsHeld(s.pay.orders, s.pay.reservations, s.now)
    ensures cents in P.Occupied(P.Purged(s.pay.reservations, m, s.now), m, ch) <==> Taken(s, m, ch, cents)
  {
    var kept := P.Purged(s.pay.reservations, m, s.now);
    if i :| i in kept && kept[i].merchant == m && kept[i].channel == ch && kept[i].cents == cents {
      assert P.ReservationOk(s.pay.orders, i, s.pay.reservations[i]);
      assert Keeps(s.pay.orders[i], m, ch, cents, s.now);
    }
    if i :| 0 <= i < |s.pay.orders| && Keeps(s.pay.orders[i], m, ch, cents, s.now) {
      assert P.HoldsAmount(s.pay.orders, s.pay.reservations, i, s.now);
      assert P.ReservationOk(s.pay.orders, i, s.pay.reservations[i]);
      P.OccupiedHas(kept, i);
    }
  }

  /** The amounts an order of this price may ask for: in range, and within the nudge that the merchant's own
      settings allow, or the site's, up or down from the price. */
  predicate Askable(env: Env, price: int, cents: int) {
    var limit := match env.merchantFloat case Some(n) => n case None => env.floatDefault;
    var direction := match env.merchantDirection case Some(d) => d case None => env.floatDirection;
    && 1 <= cents <= MAX_AMOUNT_CENTS && env.min <= cents <= env.max
    && (direction == "up" ==> price <= cents <= price + limit)
    && (direction == "down" ==> price - limit <= cents <= price)
  }

  predicate NudgeOk(env: Env) {
    var limit := match env.merchantFloat case Some(n) => n case None => env.floatDefault;
    var direction := match env.merchantDirection case Some(d) => d case None => env.floatDirection;
    0 <= limit <= 999 && (direction == "up" || direction == "down") && 0 <= env.min <= env.max
  }

  predicate Free(s: State, env: Env, m: int, ch: Channel, price: int, cents: int) {
    Askable(env, price, cents) && !Taken(s, m, ch, cents)
  }

  predicate SomeFree(s: State, env: Env, m: int, ch: Channel, price: int) {
    NudgeOk(env) && exists cents :: price - 999 <= cents <= price + 999 && Free(s, env, m, ch, price, cents)
  }

  /** The free amount nearest the price. */
  ghost predicate NearestFree(s: State, env: Env, m: int, ch: Channel, price: int, cents: int) {
    && Free(s, env, m, ch, price, cents)
    && forall other :: Free(s, env, m, ch, price, other) ==> Distance(price, cents) <= Distance(price, other)
  }

  lemma AskableIsWindow(env: Env, price: int, cents: int)
    requires NudgeOk(env)
    ensures Askable(env, price, cents) <==> cents in Window(price, env.Direction(), env.Limit(), env.min, env.max)
  {
    WindowIs(price, env.Direction(), env.Limit(), env.min, env.max, cents);
  }

  /** The search finds it whenever there is one. */
  lemma AmountIs(s: State, env: Env, m: int, ch: Channel, price: int)
    requires StateOk(s) && 1 <= price <= MAX_AMOUNT_CENTS
    ensures FreeAmount(s, env, m, ch, price).Ok? <==> SomeFree(s, env, m, ch, price)
    ensures FreeAmount(s, env, m, ch, price).Ok? ==> NearestFree(s, env, m, ch, price, FreeAmount(s, env, m, ch, price).value)
  {
    if NudgeOk(env) {
      var reserved := P.Occupied(P.Purged(s.pay.reservations, m, s.now), m, ch);
      var window := Window(price, env.Direction(), env.Limit(), env.min, env.max);
      Allocation.NearestFree(price, env.Direction(), env.Limit(), env.min, env.max, reserved, 0);
      forall cents ensures Free(s, env, m, ch, price, cents) <==> cents in window - reserved {
        AskableIsWindow(env, price, cents);
        OccupiedIsTaken(s, m, ch, cents);
      }
      AmountFound(s, env, m, ch, price, window - reserved);
    }
  }

  lemma AmountFound(s: State, env: Env, m: int, ch: Channel, price: int, free: set<int>)
    requires NudgeOk(env) && 1 <= price <= MAX_AMOUNT_CENTS
    requires forall cents :: Free(s, env, m, ch, price, cents) <==> cents in free
    requires free == Window(price, env.Direction(), env.Limit(), env.min, env.max)
                     - P.Occupied(P.Purged(s.pay.reservations, m, s.now), m, ch)
    ensures FreeAmount(s, env, m, ch, price).Ok? <==> SomeFree(s, env, m, ch, price)
    ensures FreeAmount(s, env, m, ch, price).Ok? ==> NearestFree(s, env, m, ch, price, FreeAmount(s, env, m, ch, price).value)
  {
    var reserved := P.Occupied(P.Purged(s.pay.reservations, m, s.now), m, ch);
    Allocation.NearestFree(price, env.Direction(), env.Limit(), env.min, env.max, reserved, 0);
    FreeSet(price, env.Direction(), env.Limit(), env.min, env.max, reserved);
    if FreeAmount(s, env, m, ch, price).Ok? {
      assert FreeAmount(s, env, m, ch, price).value in free;
    }
  }

  lemma FreeSet(price: int, direction: string, limit: int, min: int, max: int, reserved: set<int>)
    requires ValidRequest(price, direction, limit, min, max)
    ensures var free := Window(price, direction, limit, min, max) - reserved;
            match Allocated(price, direction, limit, min, max, reserved)
            case Ok(cents) => cents in free && forall other :: other in free ==> Distance(price, cents) <= Distance(price, other)
            case Err(_) => free == {}
  {
    Allocation.NearestFree(price, direction, limit, min, max, reserved, 0);
  }

  /** The row of an order at the instant it is opened, not priced yet. */
  function OpenedRow(m: int, outTradeNo: P.OutTradeNo, purchase: Option<nat>, price: int, allowed: set<Channel>,
                     at: int, expiresAt: int): P.Order
  {
    P.Order(m, outTradeNo, purchase, price, allowed, None, None, None, at, None, expiresAt,
            P.Pending, None, None, None, false)
  }

  /** Order `i` is priced for these cents on this channel from now on; reservations of the merchant whose
      quarantine is over are dropped, all others stay. */
  ghost predicate Priced(s: State, pay: P.Payments, i: nat, o: P.Order, ch: Channel, cents: int) {
    && i < |pay.orders|
    && pay.orders[i] == o.(channel := Some(ch), actual := Some(cents), offset := Some(cents - o.original),
                           lockedAt := Some(s.now))
    && (forall j :: j in pay.reservations <==>
          j == i
          || (j in s.pay.reservations
              && !(s.pay.reservations[j].merchant == o.merchant && s.pay.reservations[j].releaseAfter.Some?
                   && s.pay.reservations[j].releaseAfter.value <= s.now)))
    && (forall j :: j in pay.reservations ==>
          pay.reservations[j] == if j == i then P.Reservation(o.merchant, ch, cents, None) else s.pay.reservations[j])
  }

  /** How long the order may be paid: as the caller asks, else as the merchant set it, else the site. */
  predicate LastsFor(env: Env, ttl: Option<int>, seconds: int) {
    && (ttl.Some? ==> seconds == ttl.value)
    && (ttl.None? && env.merchantTtl.Some? ==> seconds == env.merchantTtl.value)
    && (ttl.None? && env.merchantTtl.None? ==> seconds == env.defaultTtl)
  }

  /** An order opens exactly when its price is valid, the merchant takes it, some channel of its entitlement has a
      QR image, the time is in bounds, its own number is new, and, if a channel is named, that one is among them
      and has a free amount. */
  lemma CreateGuards(s: State, env: Env, m: int, no: string, price: int, channel: Option<Channel>, ttl: Option<int>,
                     seconds: int)
    requires Reachable(s) && LastsFor(env, ttl, seconds)
    ensures Create(s, env, m, no, price, channel, ttl).Ok? <==>
              && 1 <= price <= MAX_AMOUNT_CENTS && TakesOrders(s, env, m, price)
              && s.books.subs[m].snapshot.Some? && s.books.subs[m].snapshot.value.channels * env.qr != {}
              && 1 <= seconds <= env.maxTtl
              && (forall i :: 0 <= i < |s.pay.orders| ==>
                    s.pay.orders[i].merchant != m || s.pay.orders[i].outTradeNo != P.External(no))
              && (channel.Some? ==>
                    && channel.value in s.books.subs[m].snapshot.value.channels * env.qr
                    && SomeFree(s, env, m, channel.value, price))
  {
    hide StateOk, FreeAmount, SomeFree;
    ReachableOk(s);
    if 1 <= price <= MAX_AMOUNT_CENTS {
      EligibleIs(s, env, m, price);
      if channel.Some? {
        AmountIs(s, env, m, channel.value, price);
      }
    }
  }

  lemma CreateWrites(s: State, env: Env, m: int, no: string, price: int, channel: Option<Channel>, ttl: Option<int>,
                     seconds: int)
    requires Reachable(s) && LastsFor(env, ttl, seconds) && Create(s, env, m, no, price, channel, ttl).Ok?
    ensures m in s.books.subs && s.books.subs[m].snapshot.Some?
    ensures var s' := Create(s, env, m, no, price, channel, ttl).value;
            var o := OpenedRow(m, P.External(no), None, price, s.books.subs[m].snapshot.value.channels * env.qr,
                               s.now, s.now + seconds * SECOND);
            var n := |s.pay.orders|;
            && |s'.pay.orders| == n + 1 && s'.pay.orders[..n] == s.pay.orders
            && s' == s.(pay := s.pay.(orders := s'.pay.orders, reservations := s'.pay.reservations))
            && match channel
               case None => s'.pay.orders[n] == o && s'.pay.reservations == s.pay.reservations
               case Some(ch) =>
                 exists cents :: NearestFree(s, env, m, ch, price, cents) && Priced(s, s'.pay, n, o, ch, cents)
  {
    hide StateOk, NearestFree, Priced, P.LockOrder, FreeAmount;
    ReachableOk(s);
    EligibleIs(s, env, m, price);
    if channel.Some? {
      AmountIs(s, env, m, channel.value, price);
      var cents := FreeAmount(s, env, m, channel.value, price).value;
      var o := OpenedRow(m, P.External(no), None, price, s.books.subs[m].snapshot.value.channels * env.qr,
                         s.now, s.now + seconds * SECOND);
      LockedRow(s, P.AddOrder(s.pay, o), |s.pay.orders|, channel.value, cents);
      assert Create(s, env, m, no, price, channel, ttl).value.pay
             == P.LockOrder(P.AddOrder(s.pay, o), |s.pay.orders|, channel.value, cents, s.now);
    }
  }

  lemma LockedRow(s: State, pay: P.Payments, i: nat, ch: Channel, cents: int)
    requires i < |pay.orders| && pay.reservations == s.pay.reservations
    ensures var pay' := P.LockOrder(pay, i, ch, cents, s.now);
            && Priced(s, pay', i, pay.orders[i], ch, cents) && OnlyRow(pay.orders, pay'.orders, i)
            && pay' == pay.(orders := pay'.orders, reservations := pay'.reservations)
  {
  }

  /** A channel can be chosen for a pending order that is not overdue: the same again at any time, and a first
      one while the merchant still takes the order, both its entitlement and the order allow the channel, a QR
      image is there and an amount is free. */
  lemma SelectGuards(s: State, env: Env, i: nat, ch: Channel)
    requires Reachable(s)
    ensures SelectChannel(s, env, i, ch).Ok? <==>
              && i < |s.pay.orders| && s.pay.orders[i].status.Pending? && s.now < s.pay.orders[i].expiresAt
              && var o := s.pay.orders[i];
              && (o.channel.Some? ==> o.channel == Some(ch))
              && (o.channel.None? ==>
                    && TakesOrders(s, env, o.merchant, o.original)
                    && s.books.subs[o.merchant].snapshot.Some?
                    && ch in s.books.subs[o.merchant].snapshot.value.channels && ch in env.qr && ch in o.allowed
                    && SomeFree(s, env, o.merchant, ch, o.original))
  {
    hide FreeAmount, SomeFree;
    ReachableOk(s);
    if i < |s.pay.orders| {
      assert P.OrderOk(s.pay.orders[i], s.now);
      EligibleIs(s, env, s.pay.orders[i].merchant, s.pay.orders[i].original);
      AmountIs(s, env, s.pay.orders[i].merchant, ch, s.pay.orders[i].original);
    }
  }

  lemma PriceIs(s: State, i: nat)
    requires StateOk(s) && i < |s.pay.orders|
    ensures 1 <= s.pay.orders[i].original <= MAX_AMOUNT_CENTS
  {
    assert P.OrderOk(s.pay.orders[i], s.now);
  }

  lemma SelectWrites(s: State, env: Env, i: nat, ch: Channel)
    requires Reachable(s) && SelectChannel(s, env, i, ch).Ok?
    ensures var s' := SelectChannel(s, env, i, ch).value;
            var o := s.pay.orders[i];
            if o.channel.Some? then s' == s
            else
              && s' == s.(pay := s.pay.(orders := s'.pay.orders, reservations := s'.pay.reservations))
              && OnlyRow(s.pay.orders, s'.pay.orders, i)
              && exists cents :: NearestFree(s, env, o.merchant, ch, o.original, cents) && Priced(s, s'.pay, i, o, ch, cents)
  {
    hide StateOk, NearestFree, Priced, P.LockOrder, FreeAmount;
    ReachableOk(s);
    var o := s.pay.orders[i];
    PriceIs(s, i);
    if o.channel.None? {
      AmountIs(s, env, o.merchant, ch, o.original);
      var cents := FreeAmount(s, env, o.merchant, ch, o.original).value;
      LockedRow(s, s.pay, i, ch, cents);
      assert NearestFree(s, env, o.merchant, ch, o.original, cents);
    }
  }

  /** An order expires exactly when it is pending and its deadline is reached; its amount is then released a day
      after that deadline. */
  lemma ExpiryEffect(s: State, i: nat)
    requires Reachable(s)
    ensures var s' := ExpireDue(s, i);
            if i < |s.pay.orders| && s.pay.orders[i].status.Pending? && s.pay.orders[i].expiresAt <= s.now then
              s' == s.(pay := s.pay.(
                      orders := s.pay.orders[i := s.pay.orders[i].(status := P.Expired, reason := Some(P.Timeout))],
                      reservations := s'.pay.reservations))
              && AmountQuarantined(s, s', i)
            else s' == s
  {
  }

  /** The amount of order `i`, if it has one, is released a day past its deadline; no other reservation changes. */
  ghost predicate AmountQuarantined(s: State, s': State, i: nat)
    requires i < |s.pay.orders|
  {
    && s'.pay.reservations.Keys == s.pay.reservations.Keys
    && forall j :: j in s.pay.reservations ==>
         s'.pay.reservations[j] == if j == i then s.pay.reservations[j].(releaseAfter := Some(s.pay.orders[i].expiresAt + DAY))
                                   else s.pay.reservations[j]
  }

  // ---------------------------------------------------------------------------
  // Buying a plan
  // ---------------------------------------------------------------------------

  predicate Entitled(s: State, m: int) {
    m in s.books.subs && s.now < s.books.subs[m].expiresAt
  }

  /** What the purchase is to the entitlement the buyer has at that instant. */
  predicate KindIs(s: State, c: PurchaseCommand, kind: E.GrantKind) {
    && (kind.Renew? <==> Entitled(s, c.buyer) && s.books.subs[c.buyer].plan == Some(c.plan))
    && (kind.Switch? <==> Entitled(s, c.buyer) && s.books.subs[c.buyer].plan != Some(c.plan))
    && (kind.New? <==> !Entitled(s, c.buyer))
  }

  lemma KindOf(s: State, c: PurchaseCommand)
    requires StateOk(s)
    ensures PurchaseKind(s, c).Ok? <==>
              (Entitled(s, c.buyer) && s.books.subs[c.buyer].plan != Some(c.plan) ==> c.confirmReplace)
    ensures PurchaseKind(s, c).Ok? ==> KindIs(s, c, PurchaseKind(s, c).value)
  {
    if c.buyer in s.books.subs {
      assert B.CacheAgrees(E.ChainRows(s.books.grants, c.buyer, s.books.subs[c.buyer].chain), s.books.subs[c.buyer], s.now);
    }
  }

  /** The purchases of the plan that use up its quota: those waiting and those ever paid. */
  ghost function Uses(s: State, m: int, plan: nat): int {
    Sum(s.books.purchases, B.PendingOf(m, plan)) + Sum(s.books.purchases, B.PaidOf(m, plan))
  }

  /** The buyer may buy this plan now. */
  ghost predicate MayBuy(s: State, c: PurchaseCommand) {
    && 8 <= |c.key| <= 128 && c.credentialsOk
    && c.plan < |s.books.plans| && !s.books.plans[c.plan].deleted && s.books.plans[c.plan].revision == c.planRevision
    && c.expectedRevision == (if c.buyer in s.books.subs then s.books.subs[c.buyer].revision else 0)
    && (Entitled(s, c.buyer) && s.books.subs[c.buyer].plan != Some(c.plan) ==> c.confirmReplace)
    && (forall k :: 0 <= k < |s.books.purchases| ==>
          s.books.purchases[k].buyer != c.buyer || !s.books.purchases[k].state.Pending?)
    && (s.books.plans[c.plan].limit.Some? ==> Uses(s, c.buyer, c.plan) < s.books.plans[c.plan].limit.value)
  }

  /** The billing merchant can take the order for it. */
  predicate CanBill(s: State, env: Env, billing: Option<int>, plan: B.Plan) {
    && billing.Some? && TakesOrders(s, env, billing.value, plan.price)
    && s.books.subs[billing.value].snapshot.Some?
    && s.books.subs[billing.value].snapshot.value.channels * plan.channels * env.qr != {}
    && env.defaultTtl >= 1
  }

  ghost predicate NewKey(s: State, c: PurchaseCommand) {
    forall k :: 0 <= k < |s.books.purchases| ==> s.books.purchases[k].buyer != c.buyer || s.books.purchases[k].key != c.key
  }

  lemma OpeningIs(s: State, env: Env, c: PurchaseCommand, kind: E.GrantKind)
    requires StateOk(s) && c.plan < |s.books.plans| && c.billing.Some?
    ensures OpenPurchase(s, env, c, kind).Ok? <==> CanBill(s, env, c.billing, s.books.plans[c.plan])
  {
    assert B.PlanOk(s.books.plans[c.plan]);
    EligibleIs(s, env, c.billing.value, s.books.plans[c.plan].price);
  }

  /** Under a new key a purchase goes through exactly when the buyer may buy and the billing merchant can bill. */
  lemma BuyingGuards(s: State, env: Env, c: PurchaseCommand)
    requires Reachable(s) && NewKey(s, c)
    ensures Purchase(s, env, c).Ok? <==> MayBuy(s, c) && CanBill(s, env, c.billing, s.books.plans[c.plan])
  {
    hide StateOk, OpenPurchase, CanBill;
    ReachableOk(s);
    KindOf(s, c);
    QuotaLeftIs(s, c);
    PendingIs(s, c);
    BillingNamed(s, env, c);
    if c.plan < |s.books.plans| && c.billing.Some? && PurchaseKind(s, c).Ok? {
      OpeningIs(s, env, c, PurchaseKind(s, c).value);
    }
  }

  lemma BillingNamed(s: State, env: Env, c: PurchaseCommand)
    ensures c.plan < |s.books.plans| && CanBill(s, env, c.billing, s.books.plans[c.plan]) ==>
              c.billing.Some? && c.billing.value !in s.pay.banned
  {
  }

  lemma PendingIs(s: State, c: PurchaseCommand)
    ensures HasUnexpired(s.books.purchases, c.buyer, s.now) ==> HasPending(s.books.purchases, c.buyer)
  {
  }

  lemma QuotaLeftIs(s: State, c: PurchaseCommand)
    requires StateOk(s)
    ensures c.plan < |s.books.plans| ==>
              (QuotaLeft(s, c) <==> (s.books.plans[c.plan].limit.Some? ==>
                                       Uses(s, c.buyer, c.plan) < s.books.plans[c.plan].limit.value))
  {
    assert B.ReservedCount(s.books.counters, c.buyer, c.plan) == Sum(s.books.purchases, B.PendingOf(c.buyer, c.plan));
  }

  /** The requests that were bought under the key. */
  function DigestsUnder(s: State, c: PurchaseCommand): set<string> {
    set k | 0 <= k < |s.books.purchases| && s.books.purchases[k].buyer == c.buyer && s.books.purchases[k].key == c.key
      :: s.books.purchases[k].digest
  }

  /** A purchase submitted again as it was changes nothing; under the key of another request it is refused. */
  lemma BuyingAgain(s: State, env: Env, c: PurchaseCommand)
    requires 8 <= |c.key| <= 128 && c.billing.Some? && c.billing.value !in s.pay.banned && !NewKey(s, c)
    ensures DigestsUnder(s, c) == {c.digest} ==> Purchase(s, env, c) == Ok(s)
    ensures c.digest !in DigestsUnder(s, c) ==> Purchase(s, env, c) == Err(IdempotencyConflict)
  {
    KeyIsFound(s.books.purchases, c.buyer, c.key);
    assert s.books.purchases[FindPurchase(s.books.purchases, c.buyer, c.key).value].digest in DigestsUnder(s, c);
  }

  lemma {:induction false} KeyIsFound(purchases: seq<B.Purchase>, buyer: int, key: string)
    ensures FindPurchase(purchases, buyer, key).None? ==>
              forall k :: 0 <= k < |purchases| ==> purchases[k].buyer != buyer || purchases[k].key != key
  {
    if purchases != [] {
      KeyIsFound(purchases[..|purchases| - 1], buyer, key);
    }
  }

  /** It then stores the plan as it is now, and an order of the billing merchant over the plan's price, for the
      channels both the plan and that merchant have, payable for the site's time. */
  lemma BuyingWrites(s: State, env: Env, c: PurchaseCommand)
    requires Reachable(s) && NewKey(s, c) && Purchase(s, env, c).Ok?
    ensures MayBuy(s, c) && CanBill(s, env, c.billing, s.books.plans[c.plan])
    ensures var s' := Purchase(s, env, c).value;
            var plan, billing := s.books.plans[c.plan], c.billing.value;
            var n, k := |s.pay.orders|, |s.books.purchases|;
            && |s'.books.purchases| == k + 1 && KindIs(s, c, s'.books.purchases[k].kind)
            && s'.books.purchases
               == s.books.purchases
                  + [B.Purchase(c.buyer, billing, c.plan, E.Snapshot(c.plan, plan.price, plan.days, plan.channels),
                                s'.books.purchases[k].kind, B.Pending, n, c.key, c.digest,
                                s.now + env.defaultTtl * SECOND, None)]
            && s'.pay.orders
               == s.pay.orders
                  + [OpenedRow(billing, P.Internal(k), Some(k), plan.price,
                               s.books.subs[billing].snapshot.value.channels * plan.channels * env.qr,
                               s.now, s.now + env.defaultTtl * SECOND)]
            && s' == s.(pay := s.pay.(orders := s'.pay.orders),
                        books := s.books.(purchases := s'.books.purchases, counters := s'.books.counters))
  {
    hide MayBuy;
    ReachableOk(s);
    BuyingGuards(s, env, c);
    KindOf(s, c);
    EligibleIs(s, env, c.billing.value, s.books.plans[c.plan].price);
    assert Purchase(s, env, c) == OpenPurchase(s, env, c, PurchaseKind(s, c).value);
  }

  // ---------------------------------------------------------------------------
  // Cancelling and closing purchases
  // ---------------------------------------------------------------------------

  /** The order of one of these purchases, both still waiting. */
  predicate CancelledOrder(s: State, i: nat, ks: seq<nat>) {
    && i < |s.pay.orders| && s.pay.orders[i].status.Pending? && s.pay.orders[i].purchase.Some?
    && s.pay.orders[i].purchase.value in ks && s.pay.orders[i].purchase.value < |s.books.purchases|
    && s.books.purchases[s.pay.orders[i].purchase.value].state.Pending?
  }

  /** The listed purchases that were waiting are cancelled, their waiting orders expire, and the amounts of those
      are released a day past their deadlines. No other row of the three tables changes. */
  ghost predicate Cancelled(s: State, s': State, ks: seq<nat>) {
    && |s'.books.purchases| == |s.books.purchases| && |s'.pay.orders| == |s.pay.orders|
    && (forall k: nat :: k < |s.books.purchases| ==>
          s'.books.purchases[k] == if k in ks && s.books.purchases[k].state.Pending?
                                   then s.books.purchases[k].(state := B.Cancelled) else s.books.purchases[k])
    && (forall i: nat :: i < |s.pay.orders| ==>
          s'.pay.orders[i] == if CancelledOrder(s, i, ks)
                              then s.pay.orders[i].(status := P.Expired, reason := Some(P.Cancelled)) else s.pay.orders[i])
    && s'.pay.reservations.Keys == s.pay.reservations.Keys
    && (forall i: nat :: i in s.pay.reservations ==>
          s'.pay.reservations[i] == if CancelledOrder(s, i, ks)
                                    then s.pay.reservations[i].(releaseAfter := Some(s.pay.orders[i].expiresAt + DAY))
                                    else s.pay.reservations[i])
  }

  /** Beside those three tables only the counters of reserved quota change. */
  ghost predicate OnlyCancelled(s: State, s': State) {
    s' == s.(pay := s.pay.(orders := s'.pay.orders, reservations := s'.pay.reservations),
             books := s.books.(purchases := s'.books.purchases, counters := s'.books.counters))
  }

  lemma OneCancelled(s: State, k: nat)
    requires LinksOk(s.pay.orders, s.books.purchases, s.now)
    ensures Cancelled(s, CancelOne(s, k), [k]) && OnlyCancelled(s, CancelOne(s, k))
  {
    if k < |s.books.purchases| && s.books.purchases[k].state.Pending? {
      assert Linked(s.pay.orders, s.books.purchases, k, s.now);
      forall i: nat | i < |s.pay.orders|
        ensures CancelledOrder(s, i, [k]) <==> i == s.books.purchases[k].order && s.pay.orders[i].status.Pending?
      {
        assert BackLinked(s.pay.orders, s.books.purchases, i);
      }
    }
  }

  lemma CancelledMore(s: State, s': State, s'': State, ks: seq<nat>, k: nat)
    requires Cancelled(s, s', ks) && Cancelled(s', s'', [k])
    ensures Cancelled(s, s'', ks + [k])
  {
    forall i: nat | i < |s.pay.orders|
      ensures CancelledOrder(s, i, ks + [k]) <==> CancelledOrder(s, i, ks) || CancelledOrder(s', i, [k])
    {
    }
  }

  lemma {:induction false} AllCancelled(s: State, ks: seq<nat>)
    requires StateOk(s)
    ensures Cancelled(s, CancelAll(s, ks), ks) && OnlyCancelled(s, CancelAll(s, ks))
  {
    hide CancelOne, StateOk;
    if ks != [] {
      var n := |ks| - 1;
      AllCancelled(s, ks[..n]);
      CancelAllKeeps(s, ks[..n]);
      PaymentsAre(CancelAll(s, ks[..n]));
      OneCancelled(CancelAll(s, ks[..n]), ks[n]);
      CancelledMore(s, CancelAll(s, ks[..n]), CancelAll(s, ks), ks[..n], ks[n]);
      assert ks == ks[..n] + [ks[n]];
    }
  }

  /** A buyer cancels a purchase of its own that still waits. */
  lemma CancelEffect(s: State, m: int, k: nat)
    requires Reachable(s)
    ensures CancelPurchase(s, m, k).Ok? <==>
              k < |s.books.purchases| && s.books.purchases[k].buyer == m && s.books.purchases[k].state.Pending?
    ensures CancelPurchase(s, m, k).Ok? ==>
              var s' := CancelPurchase(s, m, k).value;
              && OnlyCancelled(s, s') && Cancelled(s, s', [k])
              && s'.books.purchases[k].order < |s'.pay.orders|
              && !s'.pay.orders[s'.books.purchases[k].order].status.Pending?
  {
    ReachableOk(s);
    OneCancelled(s, k);
    if k < |s.books.purchases| {
      assert Linked(s.pay.orders, s.books.purchases, k, s.now);
    }
  }

  /** A purchase closes exactly when it waits and its deadline is reached; its order is left to expire by itself. */
  lemma CloseEffect(s: State, k: nat)
    requires Reachable(s)
    ensures var s' := CloseDue(s, k);
            if k < |s.books.purchases| && s.books.purchases[k].state.Pending? && s.books.purchases[k].expiresAt <= s.now then
              s' == s.(books := s.books.(purchases := s.books.purchases[k := s.books.purchases[k].(state := B.Expired)],
                                         counters := s'.books.counters))
            else s' == s
  {
  }

  // ---------------------------------------------------------------------------
  // Administration
  // ---------------------------------------------------------------------------

  /** Exactly the waiting purchases of a buyer. */
  ghost predicate WaitingOf(s: State, m: int, ks: seq<nat>) {
    forall k: nat :: k in ks <==> k < |s.books.purchases| && s.books.purchases[k].state.Pending? && s.books.purchases[k].buyer == m
  }

  /** Deleting a plan that is still as it was quoted raises its revision and cancels every purchase waiting for it. */
  lemma DeletionEffect(s: State, id: nat, revision: int) returns (ks: seq<nat>)
    requires Reachable(s)
    ensures DeletePlan(s, id, revision).Ok? <==>
              id < |s.books.plans| && !s.books.plans[id].deleted && s.books.plans[id].revision == revision
    ensures forall k: nat :: k in ks <==>
              k < |s.books.purchases| && s.books.purchases[k].state.Pending? && s.books.purchases[k].plan == id
    ensures DeletePlan(s, id, revision).Ok? ==>
              var s' := DeletePlan(s, id, revision).value;
              && s'.books.plans == s.books.plans[id := s.books.plans[id].(revision := revision + 1, deleted := true)]
              && OnlyCancelled(s, s'.(books := s'.books.(plans := s.books.plans))) && Cancelled(s, s', ks)
              && (forall k :: 0 <= k < |s'.books.purchases| && s'.books.purchases[k].plan == id ==>
                    !s'.books.purchases[k].state.Pending?)
  {
    hide StateOk, CancelAll;
    ReachableOk(s);
    ks := PendingOfPlan(s.books.purchases, id);
    if DeletePlan(s, id, revision).Ok? {
      var plans := s.books.plans[id := s.books.plans[id].(revision := s.books.plans[id].revision + 1, deleted := true)];
      var s1 := s.(books := s.books.(plans := plans));
      PlansStayOk(s, id);
      PlansKeep(s, plans);
      AllCancelled(s1, ks);
      CancelledAlike(s, s1, DeletePlan(s, id, revision).value, ks);
    }
  }

  lemma PlansStayOk(s: State, id: nat)
    requires StateOk(s) && id < |s.books.plans|
    ensures forall i :: 0 <= i < |s.books.plans| ==> B.PlanOk(s.books.plans[i])
  {
  }

  /** What is cancelled does not depend on the other tables. */
  lemma CancelledAlike(s: State, s1: State, s': State, ks: seq<nat>)
    requires Cancelled(s1, s', ks)
    requires s1.pay.orders == s.pay.orders && s1.pay.reservations == s.pay.reservations
    requires s1.books.purchases == s.books.purchases
    ensures Cancelled(s, s', ks)
  {
    forall i: nat ensures CancelledOrder(s, i, ks) <==> CancelledOrder(s1, i, ks) {
    }
  }

  /** A grant by hand cancels the merchant's waiting purchases, voids its active chain, and entitles it on a fresh
      chain to the given channels, which the plan must have, until the given instant. */
  lemma GrantEffect(s: State, m: int, id: nat, channels: set<Channel>, expected: int, expiry: int) returns (ks: seq<nat>)
    requires Reachable(s)
    ensures WaitingOf(s, m, ks)
    ensures GrantManually(s, m, id, channels, expected, expiry).Ok? <==>
              && channels != {} && id < |s.books.plans| && !s.books.plans[id].deleted && channels <= s.books.plans[id].channels
              && expected == (if m in s.books.subs then s.books.subs[m].revision else 0)
    ensures GrantManually(s, m, id, channels, expected, expiry).Ok? ==>
              var s' := GrantManually(s, m, id, channels, expected, expiry).value;
              var snapshot := E.Snapshot(id, s.books.plans[id].price, s.books.plans[id].days, channels);
              && Cancelled(s, s', ks) && m in s'.books.subs
              && s'.books.subs
                 == s.books.subs[m := B.Subscription(Some(id), Some(snapshot), expiry, expected + 1, s'.books.subs[m].chain,
                                                     E.ByManual)]
              && (forall j :: 0 <= j < |s.books.grants| ==> s.books.grants[j].chain != s'.books.subs[m].chain)
              && |s'.books.grants| == |s.books.grants| + 1
              && (forall j :: 0 <= j < |s.books.grants| ==>
                    s'.books.grants[j]
                    == if m in s.books.subs && s.books.grants[j].merchant == m
                          && s.books.grants[j].chain == s.books.subs[m].chain && s.books.grants[j].voidedAt.None?
                       then s.books.grants[j].(voidedAt := Some(s.now)) else s.books.grants[j])
              && s'.books.grants[|s.books.grants|]
                 == E.Grant(None, m, s'.books.subs[m].chain, E.Manual, 0, s.now, Some(expiry), snapshot, None, None)
              && OnlyCancelled(s, s'.(books := s'.books.(grants := s.books.grants, subs := s.books.subs, chains := s.books.chains)))
  {
    hide StateOk, CancelAll, Cancelled;
    ReachableOk(s);
    ChainsAreKnown(s);
    ks := PendingOfBuyer(s.books.purchases, m);
    AllCancelled(s, ks);
    if GrantManually(s, m, id, channels, expected, expiry).Ok? {
      CancelledThen(s, CancelAll(s, ks), GrantManually(s, m, id, channels, expected, expiry).value, ks);
    }
  }

  lemma ChainsAreKnown(s: State)
    requires StateOk(s)
    ensures forall j :: 0 <= j < |s.books.grants| ==> s.books.grants[j].chain < s.books.chains
  {
  }

  lemma CancelledThen(s: State, s1: State, s': State, ks: seq<nat>)
    requires Cancelled(s, s1, ks)
    requires s'.pay.orders == s1.pay.orders && s'.pay.reservations == s1.pay.reservations
    requires s'.books.purchases == s1.books.purchases
    ensures Cancelled(s, s', ks)
  {
  }

  /** The merchant's own waiting orders expire, and their amounts are released a day past their deadlines. */
  ghost predicate OwnExpired(s: State, s': State, m: int) {
    && |s'.pay.orders| == |s.pay.orders| && s'.pay.reservations.Keys == s.pay.reservations.Keys
    && (forall i: nat :: i < |s.pay.orders| ==>
          s'.pay.orders[i] == if s.pay.orders[i].merchant == m && s.pay.orders[i].status.Pending?
                              then s.pay.orders[i].(status := P.Expired, reason := Some(P.MerchantBanned))
                              else s.pay.orders[i])
    && (forall i: nat :: i in s.pay.reservations ==>
          s'.pay.reservations[i]
          == if i < |s.pay.orders| && s.pay.orders[i].merchant == m && s.pay.orders[i].status.Pending?
             then s.pay.reservations[i].(releaseAfter := Some(s.pay.orders[i].expiresAt + DAY))
             else s.pay.reservations[i])
  }

  lemma BanExpiresOwn(s: State, m: int)
    requires P.ReservationsOk(s.pay.orders, s.pay.reservations) && P.OrdersOk(s.pay.orders, s.now)
    ensures OwnExpired(s, s.(pay := P.ExpireBanned(s.pay, m).(banned := s.pay.banned + {m})), m)
  {
    forall i: nat | i in s.pay.reservations
      ensures ReleasedOnBan(s, i, m)
    {
      assert P.ReservationOk(s.pay.orders, i, s.pay.reservations[i]) && P.OrderOk(s.pay.orders[i], s.now);
    }
  }

  /** What the second statement of a ban writes, also to rows of an earlier ban. */
  predicate ReleasedOnBan(s: State, i: nat, m: int)
    requires i in s.pay.reservations
  {
    var pay := P.ExpireBanned(s.pay, m);
    && i < |s.pay.orders| && i in pay.reservations
    && pay.reservations[i]
       == if s.pay.orders[i].merchant == m && s.pay.orders[i].status.Pending?
          then s.pay.reservations[i].(releaseAfter := Some(s.pay.orders[i].expiresAt + DAY)) else s.pay.reservations[i]
  }

  /** A ban expires the merchant's own waiting orders, then cancels what it was about to buy, with the orders of that
      at the billing merchant. Nothing that it owns or buys waits any more, and no other row changes. */
  lemma BanEffect(s: State, m: int) returns (s1: State, ks: seq<nat>)
    requires Reachable(s)
    ensures WaitingOf(s, m, ks)
    ensures Ban(s, m).Ok? <==> m !in s.pay.banned
    ensures OwnExpired(s, s1, m) && s1.books == s.books
    ensures Ban(s, m).Ok? ==>
              var s' := Ban(s, m).value;
              && Cancelled(s1, s', ks) && s'.pay.banned == s.pay.banned + {m}
              && OnlyCancelled(s, s'.(pay := s'.pay.(banned := s.pay.banned)))
              && (forall k :: 0 <= k < |s'.books.purchases| && s'.books.purchases[k].buyer == m ==>
                    !s'.books.purchases[k].state.Pending?)
              && (forall i :: 0 <= i < |s'.pay.orders| && s'.pay.orders[i].merchant == m ==>
                    !s'.pay.orders[i].status.Pending?)
  {
    hide StateOk, CancelAll, P.ExpireBanned;
    ReachableOk(s);
    ks := PendingOfBuyer(s.books.purchases, m);
    s1 := s.(pay := P.ExpireBanned(s.pay, m).(banned := s.pay.banned + {m}));
    PaymentsAre(s);
    BanExpiresOwn(s, m);
    BanLeavesReceipts(s, m);
    if m !in s.pay.banned {
      BanPayments(s, m);
      AllCancelled(s1, ks);
      CancelAllIgnoresBans(s.(pay := P.ExpireBanned(s.pay, m)), ks, s1.pay.banned);
      assert Ban(s, m).value == CancelAll(s1, ks);
      NoneWaits(s, s1, CancelAll(s1, ks), m, ks);
    }
  }

  lemma PaymentsAre(s: State)
    requires StateOk(s)
    ensures P.ReservationsOk(s.pay.orders, s.pay.reservations) && P.OrdersOk(s.pay.orders, s.now)
    ensures LinksOk(s.pay.orders, s.books.purchases, s.now)
  {
  }

  lemma BanLeavesReceipts(s: State, m: int)
    ensures var pay := P.ExpireBanned(s.pay, m);
            pay == s.pay.(orders := pay.orders, reservations := pay.reservations)
  {
  }

  lemma NoneWaits(s: State, s1: State, s': State, m: int, ks: seq<nat>)
    requires OwnExpired(s, s1, m) && s1.books == s.books && WaitingOf(s, m, ks) && Cancelled(s1, s', ks)
    ensures forall k :: 0 <= k < |s'.books.purchases| && s'.books.purchases[k].buyer == m ==>
              !s'.books.purchases[k].state.Pending?
    ensures forall i :: 0 <= i < |s'.pay.orders| && s'.pay.orders[i].merchant == m ==> !s'.pay.orders[i].status.Pending?
  {
  }

  // ---------------------------------------------------------------------------
  // Plans
  // ---------------------------------------------------------------------------

  predicate ValidPlan(plan: B.Plan) {
    && 1 <= plan.price <= MAX_AMOUNT_CENTS && 1 <= plan.days <= 36500 && plan.channels != {}
    && (plan.limit.Some? ==> plan.limit.value >= 1)
  }

  /** A new plan starts at revision one; one that is edited as it was quoted moves on to the next. */
  lemma PlanEffect(s: State, id: nat, plan: B.Plan)
    ensures AddPlan(s, plan)
            == if ValidPlan(plan) then Ok(s.(books := s.books.(plans := s.books.plans + [plan.(revision := 1, deleted := false)])))
               else Err(Validation)
    ensures EditPlan(s, id, plan).Ok? <==>
              ValidPlan(plan) && id < |s.books.plans| && !s.books.plans[id].deleted && s.books.plans[id].revision == plan.revision
    ensures EditPlan(s, id, plan).Ok? ==>
              EditPlan(s, id, plan).value
              == s.(books := s.books.(plans := s.books.plans[id := plan.(revision := plan.revision + 1, deleted := false)]))
  {
  }

  /** Plans are only added, and a plan that changes, or goes, takes a higher revision. */
  ghost predicate PlansMoveOn(plans: seq<B.Plan>, plans': seq<B.Plan>) {
    && |plans| <= |plans'|
    && forall id :: 0 <= id < |plans| ==> plans'[id] == plans[id] || plans[id].revision < plans'[id].revision
  }

  lemma {:induction false} CancelLeavesPlans(s: State, ks: seq<nat>)
    ensures CancelAll(s, ks).books.plans == s.books.plans
  {
    if ks != [] {
      CancelLeavesPlans(s, ks[..|ks| - 1]);
    }
  }

  lemma PayingLeavesPlans(s: State, i: nat, ch: Channel, manual: bool)
    ensures MarkPaid(s, i, ch, manual).Ok? ==> MarkPaid(s, i, ch, manual).value.books.plans == s.books.plans
  {
  }

  lemma RefundingLeavesPlans(s: State, i: nat)
    ensures MarkRefunded(s, i).Ok? ==> MarkRefunded(s, i).value.books.plans == s.books.plans
  {
  }

  predicate TouchesPlans(e: Event) {
    e.AddPlanEvent? || e.EditPlanEvent? || e.DeletePlanEvent?
  }

  lemma SupplementLeavesPlans(s: State, m: int, i: nat, channel: Option<Channel>, key: string, digest: string)
    requires Supplement(s, m, i, channel, key, digest).Ok?
    ensures Supplement(s, m, i, channel, key, digest).value.books.plans == s.books.plans
  {
    hide MarkPaid;
    if HandChannel(s.pay.orders[i], channel).Some? {
      PayingLeavesPlans(s, i, HandChannel(s.pay.orders[i], channel).value, true);
    }
  }

  lemma OthersLeavePlans(s: State, e: Event)
    requires Apply(s, e).Ok? && !TouchesPlans(e)
    ensures Apply(s, e).value.books.plans == s.books.plans
  {
    hide MarkPaid, MarkRefunded, CancelAll, Supplement;
    match e {
      case IngestEvent(authorized, r, seen) =>
        if FirstMatch(s.pay.orders, r, seen).Some? {
          PayingLeavesPlans(s, FirstMatch(s.pay.orders, r, seen).value, r.channel, false);
        }
      case SupplementEvent(m, i, channel, key, digest) => SupplementLeavesPlans(s, m, i, channel, key, digest);
      case ResolveRefundEvent(m, k, reject) =>
        if k < |s.pay.refunds| { RefundingLeavesPlans(s, s.pay.refunds[k].order); }
      case RefundMarkEvent(m, i, key, digest) => RefundingLeavesPlans(s, i);
      case GrantEvent(m, k, channels, revision, expiry) => CancelLeavesPlans(s, PendingOfBuyer(s.books.purchases, m));
      case BanEvent(m) =>
        CancelLeavesPlans(s.(pay := P.ExpireBanned(s.pay, m)), PendingOfBuyer(s.books.purchases, m));
      case _ =>
    }
  }

  lemma DeletionMovesPlans(s: State, id: nat, revision: int)
    requires DeletePlan(s, id, revision).Ok?
    ensures PlansMoveOn(s.books.plans, DeletePlan(s, id, revision).value.books.plans)
  {
    hide CancelAll;
    var plan := s.books.plans[id];
    var plans := s.books.plans[id := plan.(revision := plan.revision + 1, deleted := true)];
    CancelLeavesPlans(s.(books := s.books.(plans := plans)), PendingOfPlan(s.books.purchases, id));
  }

  lemma EditMovesPlans(s: State, id: nat, plan: B.Plan)
    ensures EditPlan(s, id, plan).Ok? ==> PlansMoveOn(s.books.plans, EditPlan(s, id, plan).value.books.plans)
    ensures AddPlan(s, plan).Ok? ==> PlansMoveOn(s.books.plans, AddPlan(s, plan).value.books.plans)
  {
  }

  lemma NextMovesPlans(s: State, c: Call)
    ensures PlansMoveOn(s.books.plans, Next(s, c).books.plans)
  {
    hide AddPlan, EditPlan, DeletePlan;
    var s0 := s.(now := c.at);
    if Apply(s0, c.event).Ok? {
      match c.event {
        case AddPlanEvent(plan) => EditMovesPlans(s0, 0, plan);
        case EditPlanEvent(k, plan) => EditMovesPlans(s0, k, plan);
        case DeletePlanEvent(k, revision) => DeletionMovesPlans(s0, k, revision);
        case _ => OthersLeavePlans(s0, c.event);
      }
    }
  }

  lemma {:induction false} RunMovesPlans(s: State, trace: seq<Call>)
    ensures PlansMoveOn(s.books.plans, Run(s, trace).books.plans)
  {
    if trace != [] {
      RunMovesPlans(s, trace[..|trace| - 1]);
      NextMovesPlans(Run(s, trace[..|trace| - 1]), trace[|trace| - 1]);
    }
  }

  /** Nobody buys at a superseded price: once a plan was changed or deleted, no purchase that quotes an earlier
      revision of it ever goes through again, however much later it is submitted. */
  lemma StaleQuoteIsRefused(s: State, change: Call, trace: seq<Call>, env: Env, c: PurchaseCommand)
    requires c.plan < |s.books.plans| && s.books.plans[c.plan].revision == c.planRevision
    requires c.plan < |Next(s, change).books.plans| && Next(s, change).books.plans[c.plan] != s.books.plans[c.plan]
    requires NewKey(Run(Next(s, change), trace), c)
    ensures Purchase(Run(Next(s, change), trace), env, c).Err?
  {
    NextMovesPlans(s, change);
    RunMovesPlans(Next(s, change), trace);
  }

  /** Lifting a ban changes nothing else; what it expired and cancelled stays so. */
  lemma UnbanEffect(s: State, m: int)
    ensures Unban(s, m) == s.(pay := s.pay.(banned := s.pay.banned - {m}))
  {
  }
}
