/** The service calls as transactions over all tables: each either fails and changes nothing, or
    commits the state given here. */
module System {
  import opened Base
  import opened Allocation
  import P = Payment
  import B = Ledger
  import E = Entitlement
  import Money

  datatype Route = SupplementRoute | RefundMarkRoute | ReplayRoute
  datatype CommandKey = CommandKey(actor: int, route: Route, key: string)
  datatype CommandRecord = CommandRecord(digest: string, expiresAt: int)

  datatype State = State(
    now: int, pay: P.Payments, books: B.Books, commands: map<CommandKey, CommandRecord>)

  const INITIAL := State(0, P.NO_PAYMENTS, B.NO_BOOKS, map[])

  /** What a merchant's settings, devices and QR images say at the time of a call. */
  datatype Env = Env(
    min: int, max: int, defaultTtl: int, maxTtl: int, floatDefault: int, floatDirection: string,
    merchantTtl: Option<int>, merchantFloat: Option<int>, merchantDirection: Option<string>,
    online: bool, qr: set<Channel>)
  {
    function Limit(): int {
      if merchantFloat.Some? then merchantFloat.value else floatDefault
    }

    function Direction(): string {
      if merchantDirection.Some? then merchantDirection.value else floatDirection
    }
  }

  // ---------------------------------------------------------------------------
  // Eligibility and amounts
  // ---------------------------------------------------------------------------

  /** The channels the merchant's entitlement allows, or why it may not take orders. */
  function Eligible(s: State, env: Env, m: int, amount: int): Result<set<Channel>> {
    if m in s.pay.banned then Err(AccountBanned)
    else if amount > 0 && (amount < env.min || amount > env.max) then Err(AmountOutOfRange)
    else if m !in s.books.subs || s.books.subs[m].expiresAt <= s.now then Err(SubscriptionInactive)
    else
      var sub := s.books.subs[m];
      if sub.snapshot.None? && (sub.plan.None? || sub.plan.value >= |s.books.plans|) then Err(SubscriptionInactive)
      else if !env.online then Err(DeviceOffline)
      else Ok(if sub.snapshot.Some? then sub.snapshot.value.channels else s.books.plans[sub.plan.value].channels)
  }

  /** The free amount nearest the price among the amounts of the merchant not reserved on the channel. */
  function FreeAmount(s: State, env: Env, m: int, ch: Channel, original: int): Result<int> {
    var reserved := P.Occupied(P.Purged(s.pay.reservations, m, s.now), m, ch);
    match Allocated(original, env.Direction(), env.Limit(), env.min, env.max, reserved)
    case Ok(cents) => Ok(cents)
    case Err(_) => Err(CapacityExhausted)
  }

  // ---------------------------------------------------------------------------
  // Orders
  // ---------------------------------------------------------------------------

  function NewOrder(m: int, outTradeNo: P.OutTradeNo, purchase: Option<nat>, original: int, allowed: set<Channel>,
                    at: int, expiresAt: int): P.Order
  {
    P.Order(m, outTradeNo, purchase, original, allowed, None, None, None, at, None, expiresAt,
            P.Pending, None, None, None, false)
  }

  predicate DuplicateOutTradeNo(orders: seq<P.Order>, m: int, outTradeNo: P.OutTradeNo) {
    exists i :: 0 <= i < |orders| && orders[i].merchant == m && orders[i].outTradeNo == outTradeNo
  }

  function Create(s: State, env: Env, m: int, outTradeNo: string, original: int, channel: Option<Channel>,
                  ttl: Option<int>): Result<State>
  {
    if original < 1 || original > MAX_AMOUNT_CENTS then Err(Validation)
    else
      var entitled :- Eligible(s, env, m, original);
      var channels := entitled * env.qr;
      if channels == {} then Err(QrUnavailable)
      else
        var seconds := if ttl.Some? then ttl.value else if env.merchantTtl.Some? then env.merchantTtl.value else env.defaultTtl;
        if seconds < 1 || seconds > env.maxTtl then Err(TtlOutOfRange)
        else if DuplicateOutTradeNo(s.pay.orders, m, P.External(outTradeNo)) then Err(DuplicateOrder)
        else
          var pay := P.AddOrder(s.pay, NewOrder(m, P.External(outTradeNo), None, original, channels, s.now,
                                                s.now + seconds * SECOND));
          match channel
          case None => Ok(s.(pay := pay))
          case Some(ch) =>
            if ch !in channels then Err(ChannelNotAllowed)
            else
              var cents :- FreeAmount(s, env, m, ch, original);
              Ok(s.(pay := P.LockOrder(pay, |s.pay.orders|, ch, cents, s.now)))
  }

  function SelectChannel(s: State, env: Env, i: nat, ch: Channel): Result<State> {
    if i >= |s.pay.orders| then Err(NotFound)
    else
      var o := s.pay.orders[i];
      if !o.status.Pending? || o.expiresAt <= s.now then Err(NotPayable)
      else if o.channel.Some? then (if o.channel.value != ch then Err(ChannelLocked) else Ok(s))
      else
        var entitled :- Eligible(s, env, o.merchant, o.original);
        if ch !in entitled then Err(ChannelNotAllowed)
        else if ch !in env.qr then Err(QrUnavailable)
        else if ch !in o.allowed then Err(ChannelNotAllowed)
        else
          var cents :- FreeAmount(s, env, o.merchant, ch, o.original);
          Ok(s.(pay := P.LockOrder(s.pay, i, ch, cents, s.now)))
  }

  /** Marks an order paid and, for a subscription order, fulfils the purchase in the same transaction. */
  function MarkPaid(s: State, i: nat, ch: Channel, manual: bool): Result<State> {
    if i >= |s.pay.orders| then Err(NotFound)
    else
      var o := s.pay.orders[i];
      if o.status.Paid? then Ok(s)
      else if o.status.Refunded? || (!manual && (!o.status.Pending? || o.expiresAt <= s.now)) then Err(NotPayable)
      else if o.channel.Some? && o.channel.value != ch then Err(ChannelLocked)
      else
        var pay := P.PayOrder(s.pay, i, ch, manual, s.now);
        match o.purchase
        case None => Ok(s.(pay := pay))
        case Some(k) =>
          var books :- B.PaidTx(s.books, k, s.now);
          Ok(s.(pay := pay, books := books))
  }

  /** Orders expire one by one; a stale candidate is left alone. */
  function ExpireDue(s: State, i: nat): State {
    if i < |s.pay.orders| && s.pay.orders[i].status.Pending? && s.pay.orders[i].expiresAt <= s.now
    then s.(pay := P.ExpireOrder(s.pay, i, P.Timeout)) else s
  }

  // ---------------------------------------------------------------------------
  // At-most-once commands
  // ---------------------------------------------------------------------------

  function LiveCommands(commands: map<CommandKey, CommandRecord>, key: CommandKey, now: int): map<CommandKey, CommandRecord> {
    if key in commands && commands[key].expiresAt <= now then commands - {key} else commands
  }

  /** Keys have 8 to 128 characters, no white space around them and no line break or null inside. */
  predicate KeyOk(key: string) {
    8 <= |key| <= 128 && Money.TrimSpace(key) == key && forall c :: c in "\r\n\0" ==> c !in key
  }

  /** Whether the command was already done under this key. */
  function Begin(commands: map<CommandKey, CommandRecord>, key: CommandKey, digest: string, now: int): Result<bool> {
    if !KeyOk(key.key) then Err(Validation)
    else
      var live := LiveCommands(commands, key, now);
      if key !in live then Ok(false)
      else if live[key].digest == digest then Ok(true)
      else Err(IdempotencyConflict)
  }

  function Recorded(s: State, key: CommandKey, digest: string): State {
    s.(commands := LiveCommands(s.commands, key, s.now)[key := CommandRecord(digest, s.now + DAY)])
  }

  // ---------------------------------------------------------------------------
  // Manual payment and refunds
  // ---------------------------------------------------------------------------

  function SupplementOnce(s: State, m: int, i: nat, channel: Option<Channel>): Result<State>
    requires i < |s.pay.orders|
  {
    var o := s.pay.orders[i];
    if m in s.pay.banned then Err(AccountBanned)
    else if o.EverPaid() then Err(NotPayable)
    else
      var selected := if channel.Some? then channel else o.channel;
      if selected.None? || selected.value !in o.allowed then Err(ChannelNotAllowed)
      else if o.channel.Some? && o.channel != selected then Err(ChannelLocked)
      else MarkPaid(s, i, selected.value, true)
  }

  /** The merchant vouches for a payment. An empty key means no replay protection. */
  function Supplement(s: State, m: int, i: nat, channel: Option<Channel>, key: string, digest: string): Result<State> {
    if i >= |s.pay.orders| || s.pay.orders[i].merchant != m then Err(NotFound)
    else if key == "" then SupplementOnce(s, m, i, channel)
    else
      var command := CommandKey(m, SupplementRoute, key);
      var replayed :- Begin(s.commands, command, digest, s.now);
      if replayed then Ok(s)
      else
        var s' :- SupplementOnce(s, m, i, channel);
        Ok(Recorded(s', command, digest))
  }

  predicate HasPendingRefund(refunds: seq<P.Refund>, i: nat) {
    exists k :: 0 <= k < |refunds| && refunds[k].order == i && refunds[k].status.RefundPending?
  }

  function PendingRefund(refunds: seq<P.Refund>, i: nat): (r: Option<nat>)
    ensures r.Some? ==> r.value < |refunds| && refunds[r.value].order == i && refunds[r.value].status.RefundPending?
    ensures r.None? ==> !HasPendingRefund(refunds, i)
  {
    if refunds == [] then None
    else if refunds[|refunds| - 1].order == i && refunds[|refunds| - 1].status.RefundPending? then Some(|refunds| - 1)
    else PendingRefund(refunds[..|refunds| - 1], i)
  }

  predicate KnownRefundNo(refunds: seq<P.Refund>, outRefundNo: string) {
    exists k :: 0 <= k < |refunds| && refunds[k].outRefundNo == outRefundNo
  }

  function RequestRefund(s: State, m: int, i: nat, amount: int, outRefundNo: string, digest: string): Result<State> {
    if i >= |s.pay.orders| || s.pay.orders[i].merchant != m then Err(NotFound)
    else
      var o := s.pay.orders[i];
      if o.status.Refunded? then Err(AlreadyRefunded)
      else if !o.status.Paid? then Err(NotPaid)
      else if amount != o.original then Err(PartialRefund)
      else
        match PendingRefund(s.pay.refunds, i)
        case Some(k) => if digest != "" && s.pay.refunds[k].digest != digest then Err(RefundPending) else Ok(s)
        case None =>
          if outRefundNo != "" && KnownRefundNo(s.pay.refunds, outRefundNo) then Err(IdempotencyConflict)
          else Ok(s.(pay := P.AddRefund(s.pay, P.Refund(i, outRefundNo, digest, P.RefundPending))))
  }

  function MarkRefunded(s: State, i: nat): Result<State> {
    if i >= |s.pay.orders| then Err(NotFound)
    else
      var o := s.pay.orders[i];
      if o.status.Refunded? then Err(AlreadyRefunded)
      else if !o.status.Paid? then Err(NotPaid)
      else
        var pay := P.RefundOrder(s.pay, i, s.now);
        match o.purchase
        case None => Ok(s.(pay := pay))
        case Some(k) =>
          var books :- B.RefundedTx(s.books, k, s.now);
          Ok(s.(pay := pay, books := books))
  }

  function ResolveRefund(s: State, m: int, k: nat, reject: bool): Result<State> {
    if k >= |s.pay.refunds| || s.pay.refunds[k].order >= |s.pay.orders|
       || s.pay.orders[s.pay.refunds[k].order].merchant != m then Err(NotFound)
    else
      var i := s.pay.refunds[k].order;
      if !s.pay.orders[i].status.Paid? then Err(NotPaid)
      else if reject then Ok(s.(pay := P.RejectRefund(s.pay, k)))
      else MarkRefunded(s, i)
  }

  function RefundMark(s: State, m: int, i: nat, key: string, digest: string): Result<State> {
    if key == "" then
      if i >= |s.pay.orders| || s.pay.orders[i].merchant != m then Err(NotFound) else MarkRefunded(s, i)
    else
      var command := CommandKey(m, RefundMarkRoute, key);
      var replayed :- Begin(s.commands, command, digest, s.now);
      if replayed then Ok(s)
      else if i >= |s.pay.orders| || s.pay.orders[i].merchant != m then Err(NotFound)
      else
        var s' :- MarkRefunded(s, i);
        Ok(Recorded(s', command, digest))
  }

  // ---------------------------------------------------------------------------
  // Receipts
  // ---------------------------------------------------------------------------

  datatype UnmatchedReason = Matched | NoMatchingOrder | BannedMerchant | ExpiredOrder
  datatype Reply = Reply(receipt: nat, duplicate: bool, trade: Option<nat>, reason: UnmatchedReason)

  function FindEvent(receipts: seq<P.Receipt>, m: int, eventId: string): (r: Option<nat>)
    ensures r.Some? ==> r.value < |receipts| && receipts[r.value].merchant == m && receipts[r.value].eventId == eventId
    ensures r.None? ==> forall k :: 0 <= k < |receipts| ==> receipts[k].merchant != m || receipts[k].eventId != eventId
  {
    if receipts == [] then None
    else if receipts[|receipts| - 1].merchant == m && receipts[|receipts| - 1].eventId == eventId then Some(|receipts| - 1)
    else FindEvent(receipts[..|receipts| - 1], m, eventId)
  }

  predicate KnownProviderNo(receipts: seq<P.Receipt>, r: P.Receipt) {
    exists k :: 0 <= k < |receipts| && receipts[k].merchant == r.merchant && receipts[k].channel == r.channel
                && receipts[k].providerNo == r.providerNo
  }

  /** The oldest order that the receipt can pay. */
  function FirstMatch(orders: seq<P.Order>, r: P.Receipt, now: int): (i: Option<nat>)
    ensures i.Some? ==> i.value < |orders| && P.Matches(orders[i.value], r, now)
    ensures i.Some? ==> forall j :: 0 <= j < |orders| && P.Matches(orders[j], r, now) ==>
                          orders[i.value].createdAt <= orders[j].createdAt
    ensures i.None? ==> forall j :: 0 <= j < |orders| ==> !P.Matches(orders[j], r, now)
  {
    if orders == [] then None
    else
      var n := |orders| - 1;
      var earlier := FirstMatch(orders[..n], r, now);
      if P.Matches(orders[n], r, now) && (earlier.None? || orders[n].createdAt < orders[earlier.value].createdAt)
      then Some(n) else earlier
  }

  predicate LateOrder(orders: seq<P.Order>, r: P.Receipt, now: int) {
    exists i :: 0 <= i < |orders| && orders[i].merchant == r.merchant && orders[i].Asks(r.channel, r.cents)
                && orders[i].status.Pending? && (orders[i].expiresAt <= now || r.occurredAt >= orders[i].expiresAt)
  }

  function StoredReason(r: P.Receipt): UnmatchedReason {
    if r.order.Some? then Matched else NoMatchingOrder
  }

  /** A device reports a payment; `seen` is the instant read before the transaction got its locks. */
  function Ingest(s: State, authorized: bool, r: P.Receipt, seen: int): Result<(State, Reply)> {
    if r.cents < 1 || r.cents > MAX_AMOUNT_CENTS then Err(Validation)
    else if !authorized then Err(DeviceUnauthorized)
    else
      match FindEvent(s.pay.receipts, r.merchant, r.eventId)
      case Some(k) =>
        var stored := s.pay.receipts[k];
        if stored.digest != r.digest then Err(EventConflict)
        else Ok((s, Reply(k, true, stored.order, StoredReason(stored))))
      case None =>
        var id := |s.pay.receipts|;
        if r.providerNo != "" && KnownProviderNo(s.pay.receipts, r) then Err(EventConflict)
        else if r.merchant in s.pay.banned then
          Ok((s.(pay := P.AddReceipt(s.pay, r.(order := None))), Reply(id, false, None, BannedMerchant)))
        else
          match FirstMatch(s.pay.orders, r, seen)
          case Some(i) =>
            var s' :- MarkPaid(s, i, r.channel, false);
            Ok((s'.(pay := P.AddReceipt(s'.pay, r.(order := Some(i)))), Reply(id, false, Some(i), Matched)))
          case None =>
            var reason := if LateOrder(s.pay.orders, r, seen) then ExpiredOrder else NoMatchingOrder;
            Ok((s.(pay := P.AddReceipt(s.pay, r.(order := None))), Reply(id, false, None, reason)))
  }

  // ---------------------------------------------------------------------------
  // Purchases
  // ---------------------------------------------------------------------------

  function FindPurchase(purchases: seq<B.Purchase>, buyer: int, key: string): (r: Option<nat>)
    ensures r.Some? ==> r.value < |purchases| && purchases[r.value].buyer == buyer && purchases[r.value].key == key
  {
    if purchases == [] then None
    else if purchases[|purchases| - 1].buyer == buyer && purchases[|purchases| - 1].key == key then Some(|purchases| - 1)
    else FindPurchase(purchases[..|purchases| - 1], buyer, key)
  }

  predicate HasPending(purchases: seq<B.Purchase>, buyer: int) {
    exists k :: 0 <= k < |purchases| && purchases[k].buyer == buyer && purchases[k].state.Pending?
  }

  predicate HasUnexpired(purchases: seq<B.Purchase>, buyer: int, now: int) {
    exists k :: 0 <= k < |purchases| && purchases[k].buyer == buyer && purchases[k].state.Pending?
                && purchases[k].expiresAt > now
  }

  function SnapshotOf(k: nat, plan: B.Plan, channels: set<Channel>): E.Snapshot {
    E.Snapshot(k, plan.price, plan.days, channels)
  }

  datatype PurchaseCommand = PurchaseCommand(
    buyer: int, plan: nat, planRevision: int, expectedRevision: int, confirmReplace: bool,
    key: string, digest: string, billing: Option<int>, credentialsOk: bool)

  function PurchaseKind(s: State, c: PurchaseCommand): Result<E.GrantKind> {
    if c.buyer in s.books.subs && s.books.subs[c.buyer].expiresAt > s.now && s.books.subs[c.buyer].plan.Some? then
      if s.books.subs[c.buyer].plan.value == c.plan then Ok(E.Renew)
      else if !c.confirmReplace then Err(VersionConflict)
      else Ok(E.Switch)
    else Ok(E.New)
  }

  function QuotaLeft(s: State, c: PurchaseCommand): bool
    requires c.plan < |s.books.plans|
  {
    var limit := s.books.plans[c.plan].limit;
    limit.Some? ==>
      B.PaidCount(s.books.counters, c.buyer, c.plan) + B.ReservedCount(s.books.counters, c.buyer, c.plan) < limit.value
  }

  /** Inserts the purchase, its order at the billing merchant, and reserves the quota. */
  function Purchase(s: State, env: Env, c: PurchaseCommand): Result<State> {
    if |c.key| < 8 || |c.key| > 128 then Err(Validation)
    else if c.billing.None? || c.billing.value in s.pay.banned then Err(BillingNotReady)
    else
      match FindPurchase(s.books.purchases, c.buyer, c.key)
      case Some(k) => if s.books.purchases[k].digest != c.digest then Err(IdempotencyConflict) else Ok(s)
      case None =>
        if !c.credentialsOk then Err(BillingNotReady)
        else if c.plan >= |s.books.plans| then Err(PlanUnavailable)
        else
          var plan := s.books.plans[c.plan];
          if plan.deleted || plan.revision != c.planRevision then Err(PlanUnavailable)
          else if B.Revision(s.books.subs, c.buyer) != c.expectedRevision then Err(VersionConflict)
          else
            var kind :- PurchaseKind(s, c);
            if HasUnexpired(s.books.purchases, c.buyer, s.now) then Err(PurchasePending)
            else if !QuotaLeft(s, c) then Err(LimitReached)
            else if HasPending(s.books.purchases, c.buyer) then Err(UniqueViolation)
            else OpenPurchase(s, env, c, kind)
  }

  function OpenPurchase(s: State, env: Env, c: PurchaseCommand, kind: E.GrantKind): Result<State>
    requires c.plan < |s.books.plans| && c.billing.Some?
  {
    var plan := s.books.plans[c.plan];
    var billing := c.billing.value;
    var expiresAt := s.now + env.defaultTtl * SECOND;
    match Eligible(s, env, billing, plan.price)
    case Err(_) => Err(BillingNotReady)
    case Ok(entitled) =>
      var channels := entitled * plan.channels * env.qr;
      if channels == {} || expiresAt <= s.now then Err(BillingNotReady)
      else
        var k := |s.books.purchases|;
        var pu := B.Purchase(c.buyer, billing, c.plan, SnapshotOf(c.plan, plan, plan.channels), kind, B.Pending,
                             |s.pay.orders|, c.key, c.digest, expiresAt, None);
        var o := NewOrder(billing, P.Internal(k), Some(k), plan.price, channels, s.now, expiresAt);
        Ok(s.(pay := P.AddOrder(s.pay, o), books := B.Reserve(s.books, pu)))
  }

  /** Cancels a pending purchase together with its order, if that is still pending. */
  function CancelOne(s: State, k: nat): State {
    if k >= |s.books.purchases| || !s.books.purchases[k].state.Pending? then s
    else
      var i := s.books.purchases[k].order;
      var pay := if i < |s.pay.orders| && s.pay.orders[i].purchase.Some? && s.pay.orders[i].status.Pending?
                 then P.ExpireOrder(s.pay, i, P.Cancelled) else s.pay;
      s.(pay := pay, books := B.Close(s.books, k, B.Cancelled))
  }

  function CancelAll(s: State, ks: seq<nat>): State {
    if ks == [] then s else CancelOne(CancelAll(s, ks[..|ks| - 1]), ks[|ks| - 1])
  }

  function PendingOfBuyer(purchases: seq<B.Purchase>, m: int): (ks: seq<nat>)
    ensures forall k: nat :: k in ks <==> k < |purchases| && purchases[k].state.Pending? && purchases[k].buyer == m
    ensures forall j :: 0 <= j < |ks| ==> ks[j] < |purchases| && purchases[ks[j]].state.Pending?
    ensures forall i, j :: 0 <= i < j < |ks| ==> ks[i] < ks[j]
  {
    if purchases == [] then []
    else
      var n := |purchases| - 1;
      var ks := PendingOfBuyer(purchases[..n], m);
      if purchases[n].state.Pending? && purchases[n].buyer == m then ks + [n] else ks
  }

  function PendingOfPlan(purchases: seq<B.Purchase>, plan: nat): (ks: seq<nat>)
    ensures forall k: nat :: k in ks <==> k < |purchases| && purchases[k].state.Pending? && purchases[k].plan == plan
    ensures forall j :: 0 <= j < |ks| ==> ks[j] < |purchases| && purchases[ks[j]].state.Pending?
    ensures forall i, j :: 0 <= i < j < |ks| ==> ks[i] < ks[j]
  {
    if purchases == [] then []
    else
      var n := |purchases| - 1;
      var ks := PendingOfPlan(purchases[..n], plan);
      if purchases[n].state.Pending? && purchases[n].plan == plan then ks + [n] else ks
  }

  function CancelPurchase(s: State, m: int, k: nat): Result<State> {
    if k >= |s.books.purchases| || s.books.purchases[k].buyer != m then Err(NotFound)
    else if !s.books.purchases[k].state.Pending? then Err(VersionConflict)
    else Ok(CancelOne(s, k))
  }

  /** Purchases expire one by one; a stale candidate is left alone. */
  function CloseDue(s: State, k: nat): State {
    if k < |s.books.purchases| && s.books.purchases[k].state.Pending? && s.books.purchases[k].expiresAt <= s.now
    then s.(books := B.Close(s.books, k, B.Expired)) else s
  }

  // ---------------------------------------------------------------------------
  // Administration
  // ---------------------------------------------------------------------------

  function AddPlan(s: State, plan: B.Plan): Result<State> {
    if !B.PlanOk(plan) then Err(Validation)
    else Ok(s.(books := s.books.(plans := s.books.plans + [plan.(revision := 1, deleted := false)])))
  }

  function EditPlan(s: State, id: nat, plan: B.Plan): Result<State> {
    if !B.PlanOk(plan) then Err(Validation)
    else if id >= |s.books.plans| || s.books.plans[id].revision != plan.revision || s.books.plans[id].deleted
    then Err(VersionConflict)
    else Ok(s.(books := s.books.(plans := s.books.plans[id := plan.(revision := plan.revision + 1, deleted := false)])))
  }

  function DeletePlan(s: State, id: nat, revision: int): Result<State> {
    if id >= |s.books.plans| then Err(NotFound)
    else if s.books.plans[id].revision != revision || s.books.plans[id].deleted then Err(VersionConflict)
    else
      var plan := s.books.plans[id];
      var s1 := s.(books := s.books.(plans := s.books.plans[id := plan.(revision := plan.revision + 1, deleted := true)]));
      Ok(CancelAll(s1, PendingOfPlan(s1.books.purchases, id)))
  }

  /** An administrator's grant: every pending purchase of the merchant is cancelled first. */
  function GrantManually(s: State, m: int, planId: nat, channels: set<Channel>, expectedRevision: int, expiry: int): Result<State> {
    if channels == {} then Err(Validation)
    else
      var s1 := CancelAll(s, PendingOfBuyer(s.books.purchases, m));
      if B.Revision(s1.books.subs, m) != expectedRevision then Err(VersionConflict)
      else if planId >= |s1.books.plans| || s1.books.plans[planId].deleted then Err(PlanUnavailable)
      else if !(channels <= s1.books.plans[planId].channels) then Err(Validation)
      else Ok(s1.(books := B.Override(s1.books, m, SnapshotOf(planId, s1.books.plans[planId], channels), expiry, s.now)))
  }

  function Ban(s: State, m: int): Result<State> {
    if m in s.pay.banned then Err(VersionConflict)
    else
      var s1 := s.(pay := P.ExpireBanned(s.pay, m));
      var s2 := CancelAll(s1, PendingOfBuyer(s1.books.purchases, m));
      Ok(s2.(pay := s2.pay.(banned := s2.pay.banned + {m})))
  }

  function Unban(s: State, m: int): State {
    s.(pay := s.pay.(banned := s.pay.banned - {m}))
  }

  // ---------------------------------------------------------------------------
  // The invariant across tables
  // ---------------------------------------------------------------------------

  /** A subscription order and its purchase tell the same story: it asks for the price of the plan bought. */
  predicate StatesAgree(o: P.Order, pu: B.Purchase, now: int) {
    && (o.status.Paid? <==> pu.state.Paid?)
    && (o.status.Refunded? <==> pu.state.Refunded?)
    && (pu.state.Cancelled? ==> o.status.Expired?)
    && (pu.state.Expired? ==> pu.expiresAt <= now)
    && o.expiresAt == pu.expiresAt
    && o.merchant == pu.billing
    && o.original == pu.snapshot.price && o.allowed <= pu.snapshot.channels
  }

  predicate Linked(orders: seq<P.Order>, purchases: seq<B.Purchase>, k: nat, now: int)
    requires k < |purchases|
  {
    && purchases[k].order < |orders|
    && orders[purchases[k].order].purchase == Some(k)
    && StatesAgree(orders[purchases[k].order], purchases[k], now)
  }

  predicate BackLinked(orders: seq<P.Order>, purchases: seq<B.Purchase>, i: nat)
    requires i < |orders|
  {
    match orders[i].purchase
    case None => orders[i].outTradeNo.External?
    case Some(k) => k < |purchases| && purchases[k].order == i && orders[i].outTradeNo == P.Internal(k)
  }

  ghost predicate LinksOk(orders: seq<P.Order>, purchases: seq<B.Purchase>, now: int) {
    && (forall k: nat :: k < |purchases| ==> Linked(orders, purchases, k, now))
    && (forall i: nat :: i < |orders| ==> BackLinked(orders, purchases, i))
  }

  ghost predicate StateOk(s: State) {
    && P.PaymentsOk(s.pay, s.now)
    && B.BooksOk(s.books, s.now)
    && LinksOk(s.pay.orders, s.books.purchases, s.now)
  }
}
