/** The tables as the services update them, statement by statement. Every method is proved against the
    function of the same call: it commits exactly that state, or fails and leaves every table as it was. */
module Database {
  import opened Base
  import opened Allocation
  import opened Batches
  import P = Payment
  import B = Ledger
  import E = Entitlement
  import Money
  import opened System
  import opened Steps
  import opened Runs

  /** What a transaction body must have done before it is committed or rolled back. */
  ghost predicate Done(call: Result<State>, r: Result<()>, s: State) {
    match call
    case Ok(s') => r == Ok(()) && s == s'
    case Err(e) => r == Err(e)
  }

  /** What a committed or rolled back transaction leaves behind. */
  ghost predicate Committed(call: Result<State>, r: Result<()>, before: State, s: State) {
    match call
    case Ok(s') => r == Ok(()) && s == s'
    case Err(e) => r == Err(e) && s == before
  }

  predicate Due(o: P.Order, now: int) {
    o.status.Pending? && o.expiresAt <= now
  }

  /** The billing merchants of a buyer's pending purchases. */
  function PendingBilling(purchases: seq<B.Purchase>, m: int): set<int> {
    set k | 0 <= k < |purchases| && purchases[k].state.Pending? && purchases[k].buyer == m :: purchases[k].billing
  }

  /** Whether the locks of attempt `j`, taken on what was read before it, cover the pending purchases of the
      merchant as they are when the locks are granted. */
  predicate Covered(start: State, rivals: seq<seq<Call>>, m: int, j: nat) {
    PendingBilling(Run(start, Joined(rivals, j + 1)).books.purchases, m)
    <= {m} + PendingBilling(Run(start, Joined(rivals, j)).books.purchases, m)
  }

  /** The merchant bills a waiting purchase of the buyer. */
  predicate Billed(purchases: seq<B.Purchase>, buyer: int, id: int) {
    exists k :: 0 <= k < |purchases| && purchases[k].state.Pending? && purchases[k].buyer == buyer && purchases[k].billing == id
  }

  /** Who bills a waiting purchase of the merchant now is the merchant itself, or billed one before. */
  ghost predicate BilledBefore(before: seq<B.Purchase>, after: seq<B.Purchase>, m: int) {
    forall id :: Billed(after, m, id) ==> id == m || Billed(before, m, id)
  }

  /** The comparison of the two sets of locks says that of the rows. */
  lemma CoveredIs(start: State, rivals: seq<seq<Call>>, m: int, j: nat)
    ensures Covered(start, rivals, m, j)
            <==> BilledBefore(Run(start, Joined(rivals, j)).books.purchases,
                              Run(start, Joined(rivals, j + 1)).books.purchases, m)
  {
    BilledWithin(Run(start, Joined(rivals, j)).books.purchases, Run(start, Joined(rivals, j + 1)).books.purchases, m);
  }

  lemma BilledWithin(before: seq<B.Purchase>, after: seq<B.Purchase>, m: int)
    ensures PendingBilling(after, m) <= {m} + PendingBilling(before, m) <==> BilledBefore(before, after, m)
  {
    hide Billed, PendingBilling;
    BillingIs(before, m);
    BillingIs(after, m);
    if BilledBefore(before, after, m) {
      forall id | id in PendingBilling(after, m) ensures id in {m} + PendingBilling(before, m) {
        assert Billed(after, m, id);
      }
    } else {
      var id :| Billed(after, m, id) && id != m && !Billed(before, m, id);
      assert id in PendingBilling(after, m) && id !in {m} + PendingBilling(before, m);
    }
  }

  lemma BillingIs(purchases: seq<B.Purchase>, m: int)
    ensures forall id :: id in PendingBilling(purchases, m) <==> Billed(purchases, m, id)
  {
  }

  class Database {
    var now: int
    var orders: seq<P.Order>
    var reservations: map<nat, P.Reservation>
    var receipts: seq<P.Receipt>
    var refunds: seq<P.Refund>
    var banned: set<int>
    var plans: seq<B.Plan>
    var purchases: seq<B.Purchase>
    var counters: map<(int, nat), B.Counter>
    var grants: seq<E.Grant>
    var subs: map<int, B.Subscription>
    var chains: nat
    var commands: map<CommandKey, CommandRecord>

    function View(): State
      reads this
    {
      State(now, P.Payments(orders, reservations, receipts, refunds, banned),
            B.Books(plans, purchases, counters, grants, subs, chains), commands)
    }

    ghost predicate Valid()
      reads this
    {
      StateOk(View())
    }

    /** Reservations belong to orders with a channel. */
    ghost predicate Held()
      reads this
    {
      forall i :: i in reservations ==> i < |orders| && orders[i].channel.Some?
    }

    /** Channel and amount are chosen together. */
    ghost predicate Priced()
      reads this
    {
      forall i :: 0 <= i < |orders| ==> orders[i].channel.None? ==> orders[i].actual.None?
    }

    lemma TablesFit()
      requires Valid()
      ensures Held() && Priced()
    {
      forall i | i in reservations ensures i < |orders| && orders[i].channel.Some? {
        assert P.ReservationOk(orders, i, reservations[i]);
      }
      forall i | 0 <= i < |orders| ensures orders[i].channel.None? ==> orders[i].actual.None? {
        assert P.OrderOk(orders[i], now);
      }
    }

    constructor ()
      ensures View() == INITIAL && Valid()
    {
      now := 0;
      orders, reservations, receipts, refunds, banned := [], map[], [], [], {};
      plans, purchases, counters, grants, subs, chains := [], [], map[], [], map[], 0;
      commands := map[];
      new;
      InitialOk();
    }

    /** Rolls the tables back. */
    method Restore(s: State)
      modifies this
      ensures View() == s
    {
      now, commands := s.now, s.commands;
      RestorePayments(s.pay);
      RestoreBooks(s.books);
    }

    method RestorePayments(pay: P.Payments)
      modifies this`orders, this`reservations, this`receipts, this`refunds, this`banned
      ensures View().pay == pay
    {
      orders, reservations, receipts := pay.orders, pay.reservations, pay.receipts;
      refunds, banned := pay.refunds, pay.banned;
    }

    method RestoreBooks(books: B.Books)
      modifies this`plans, this`purchases, this`counters, this`grants, this`subs, this`chains
      ensures View().books == books
    {
      plans, purchases, counters := books.plans, books.purchases, books.counters;
      grants, subs, chains := books.grants, books.subs, books.chains;
    }

    // -------------------------------------------------------------------------
    // Orders
    // -------------------------------------------------------------------------

    /** Drops lapsed reservations, collects the occupied amounts row by row, and searches a free one. */
    method ReserveAmountTx(env: Env, m: int, ch: Channel, original: int) returns (r: Result<int>)
      modifies this`reservations
      ensures reservations == P.Purged(old(reservations), m, now)
      ensures r == FreeAmount(old(View()), env, m, ch, original)
    {
      reservations := P.Purged(reservations, m, now);
      var rows := reservations;
      var left := set i | i in rows && rows[i].merchant == m && rows[i].channel == ch;
      ghost var all := left;
      var occupied: set<int> := {};
      while left != {}
        invariant left <= all
        invariant forall i :: i in all ==> i in left || rows[i].cents in occupied
        invariant forall cents :: cents in occupied ==> cents in P.Occupied(rows, m, ch)
        decreases |left|
      {
        var i :| i in left;
        left := left - {i};
        occupied := occupied + {rows[i].cents};
      }
      forall cents | cents in P.Occupied(rows, m, ch) ensures cents in occupied {
        var i :| i in all && rows[i].cents == cents;
      }
      forall cents | cents in occupied ensures cents in P.Occupied(rows, m, ch) {
      }
      assert occupied == P.Occupied(rows, m, ch);
      var found := AllocateAmount(original, env.Direction(), env.Limit(), env.min, env.max, occupied);
      r := if found.Ok? then found else Err(CapacityExhausted);
    }

    /** Inserts a reservation, unless the row would break a unique index. */
    method InsertReservation(i: nat, row: P.Reservation) returns (ok: bool)
      modifies this`reservations
      ensures ok <==> i !in old(reservations)
                      && row.cents !in P.Occupied(old(reservations), row.merchant, row.channel)
      ensures reservations == if ok then old(reservations)[i := row] else old(reservations)
    {
      ok := i !in reservations && forall j :: j in reservations ==> !P.SameAmount(reservations[j], row);
      if ok {
        reservations := reservations[i := row];
      }
    }

    method CreateTx(env: Env, m: int, outTradeNo: string, original: int, channel: Option<Channel>, ttl: Option<int>)
      returns (r: Result<()>)
      requires Held()
      modifies this`orders, this`reservations
      ensures Done(Create(old(View()), env, m, outTradeNo, original, channel, ttl), r, View())
    {
      hide Eligible, FreeAmount;
      if original < 1 || original > MAX_AMOUNT_CENTS { return Err(Validation); }
      var eligible := Eligible(View(), env, m, original);
      if eligible.Err? { return Err(eligible.error); }
      var channels := eligible.value * env.qr;
      if channels == {} { return Err(QrUnavailable); }
      var seconds := env.defaultTtl;
      if env.merchantTtl.Some? { seconds := env.merchantTtl.value; }
      if ttl.Some? { seconds := ttl.value; }
      if seconds < 1 || seconds > env.maxTtl { return Err(TtlOutOfRange); }
      var expires := now + seconds * SECOND;
      if DuplicateOutTradeNo(orders, m, P.External(outTradeNo)) { return Err(DuplicateOrder); }
      var o := NewOrder(m, P.External(outTradeNo), None, original, channels, now, expires);
      if channel.Some? {
        if channel.value !in channels { return Err(ChannelNotAllowed); }
        var cents := ReserveAmountTx(env, m, channel.value, original);
        if cents.Err? { return Err(cents.error); }
        o := o.(channel := channel, actual := Some(cents.value), offset := Some(cents.value - original), lockedAt := Some(now));
      }
      var i := |orders|;
      orders := orders + [o];
      if o.actual.Some? {
        FreeAmountIsFree(old(View()), env, m, channel.value, original);
        var inserted := InsertReservation(i, P.Reservation(m, channel.value, o.actual.value, None));
        assert inserted;
        if !inserted { return Err(CapacityExhausted); }
      }
      return Ok(());
    }

    method CreateOrder(env: Env, m: int, outTradeNo: string, original: int, channel: Option<Channel>, ttl: Option<int>)
      returns (r: Result<()>)
      requires Valid()
      modifies this
      ensures Valid()
      ensures Committed(Create(old(View()), env, m, outTradeNo, original, channel, ttl), r, old(View()), View())
    {
      var saved := View();
      TablesFit();
      r := CreateTx(env, m, outTradeNo, original, channel, ttl);
      if r.Err? {
        Restore(saved);
      } else {
        CreateKeeps(saved, env, m, outTradeNo, original, channel, ttl);
      }
    }

    method SelectChannelTx(env: Env, i: nat, ch: Channel) returns (r: Result<()>)
      requires Held()
      modifies this`orders, this`reservations
      ensures Done(SelectChannel(old(View()), env, i, ch), r, View())
    {
      if i >= |orders| { return Err(NotFound); }
      var o := orders[i];
      if !o.status.Pending? { return Err(NotPayable); }
      if o.expiresAt <= now {
        // Undone by the rollback that the error brings.
        orders := orders[i := o.(status := P.Expired, reason := Some(P.Timeout))];
        return Err(NotPayable);
      }
      if o.channel.Some? {
        if o.channel.value != ch { return Err(ChannelLocked); }
        return Ok(());
      }
      var eligible := Eligible(View(), env, o.merchant, o.original);
      if eligible.Err? { return Err(eligible.error); }
      if ch !in eligible.value { return Err(ChannelNotAllowed); }
      if ch !in env.qr { return Err(QrUnavailable); }
      if ch !in o.allowed { return Err(ChannelNotAllowed); }
      var cents := ReserveAmountTx(env, o.merchant, ch, o.original);
      if cents.Err? { return Err(cents.error); }
      orders := orders[i := o.(channel := Some(ch), actual := Some(cents.value),
                               offset := Some(cents.value - o.original), lockedAt := Some(now))];
      FreeAmountIsFree(old(View()), env, o.merchant, ch, o.original);
      var inserted := InsertReservation(i, P.Reservation(o.merchant, ch, cents.value, None));
      assert inserted;
      if !inserted { return Err(CapacityExhausted); }
      return Ok(());
    }

    method PickChannel(env: Env, i: nat, ch: Channel) returns (r: Result<()>)
      requires Valid()
      modifies this
      ensures Valid()
      ensures Committed(SelectChannel(old(View()), env, i, ch), r, old(View()), View())
    {
      var saved := View();
      TablesFit();
      r := SelectChannelTx(env, i, ch);
      if r.Err? {
        Restore(saved);
      } else {
        SelectChannelKeeps(saved, env, i, ch);
      }
    }

    // -------------------------------------------------------------------------
    // Payment and fulfilment
    // -------------------------------------------------------------------------

    /** Folds the rows of the chain and rewrites the cached subscription. */
    method RecomputeChainTx(m: int, c: nat, at: int)
      modifies this`subs
      ensures View() == old(View()).(books := B.Recomputed(old(View()).books, m, c, at))
    {
      var list := E.ChainRows(grants, m, c);
      var expiry: Option<int> := None;
      var chosen: Option<E.Snapshot> := None;
      var source := E.NoSource;
      for n := 0 to |list|
        invariant E.Entitled(expiry, chosen, source) == E.Folded(list[..n])
        invariant subs == old(subs)
      {
        var g := list[n];
        E.FoldedAppend(list[..n], g);
        assert list[..n + 1] == list[..n] + [g];
        if g.voidedAt.Some? || g.refundedAt.Some? { continue; }
        if g.fixedExpiry.Some? {
          expiry, chosen, source := g.fixedExpiry, Some(g.snapshot), E.ByManual;
          continue;
        }
        if g.duration <= 0 { continue; }
        var start := g.effectiveAt;
        if expiry.Some? && expiry.value > start { start := expiry.value; }
        expiry := Some(start + g.duration);
        chosen := Some(g.snapshot);
        if source.NoSource? { source := E.ByPurchase; }
      }
      assert list[..|list|] == list;
      assert E.Entitled(expiry, chosen, source) == E.Folded(list);
      if expiry.Some? && expiry.value <= at { source := E.NoSource; }
      var revision := B.Revision(subs, m) + 1;
      if expiry.None? {
        if m in subs {
          subs := subs[m := B.Subscription(None, None, at, revision, c, E.NoSource)];
        }
        return;
      }
      subs := subs[m := B.Subscription(Some(chosen.value.planId), chosen, expiry.value, revision, c, source)];
    }

    /** Adds the grant of a purchase: to the live chain it renews, or to a chain of its own. */
    method InsertGrantTx(k: nat, at: int) returns (chain: nat)
      requires k < |purchases|
      modifies this`grants, this`chains
      ensures grants == B.Kept(old(View()).books, k, at) + [B.BoughtGrant(old(View()).books, k, at)]
      ensures chain == B.BoughtGrant(old(View()).books, k, at).chain
      ensures chains == if B.Renews(old(View()).books, purchases[k], at) then old(chains) else old(chains) + 1
    {
      var pu := purchases[k];
      chain := chains;
      var effective := at;
      if pu.kind.Renew? && pu.buyer in subs && subs[pu.buyer].expiresAt > at {
        chain, effective := subs[pu.buyer].chain, subs[pu.buyer].expiresAt;
      } else {
        chains := chains + 1;
        if pu.kind.Switch? && pu.buyer in subs {
          grants := B.VoidChain(grants, pu.buyer, subs[pu.buyer].chain, at);
        }
      }
      grants := grants + [E.Grant(Some(k), pu.buyer, chain, pu.kind, pu.snapshot.days * DAY, effective, None,
                                  pu.snapshot, None, None)];
    }

    method PaidTx(k: nat, at: int) returns (r: Result<()>)
      modifies this
      ensures match B.PaidTx(old(View()).books, k, at)
              case Ok(books) => r == Ok(()) && View() == old(View()).(books := books)
              case Err(e) => r == Err(e)
    {
      hide B.Recomputed;
      if k >= |purchases| { return Ok(()); }
      var pu := purchases[k];
      if pu.state.Paid? { return Ok(()); }
      if !pu.state.Pending? || pu.expiresAt <= at { return Err(NotPayable); }
      var chain := InsertGrantTx(k, at);
      purchases := purchases[k := pu.(state := B.Paid, paidAt := Some(at))];
      if (pu.buyer, pu.plan) in counters {
        var c := counters[(pu.buyer, pu.plan)];
        counters := counters[(pu.buyer, pu.plan) := B.Counter(c.paid + 1, E.Max(0, c.reserved - 1))];
      }
      ghost var granted := B.Granted(old(View()).books, k, at);
      assert View() == old(View()).(books := granted);
      RecomputeChainTx(pu.buyer, chain, at);
      assert View() == old(View()).(books := B.Recomputed(granted, pu.buyer, chain, at));
      return Ok(());
    }

    method MarkPaidTx(i: nat, ch: Channel, manual: bool) returns (r: Result<()>)
      modifies this
      ensures Done(MarkPaid(old(View()), i, ch, manual), r, View())
    {
      if i >= |orders| { return Err(NotFound); }
      var o := orders[i];
      if o.status.Paid? { return Ok(()); }
      if manual {
        if !o.status.Pending? && !o.status.Expired? { return Err(NotPayable); }
      } else if !o.status.Pending? || o.expiresAt <= now {
        return Err(NotPayable);
      }
      if o.channel.Some? && o.channel.value != ch { return Err(ChannelLocked); }
      if o.actual.None? {
        orders := orders[i := o.(channel := Some(ch), actual := Some(o.original), offset := Some(0))];
      }
      orders := orders[i := orders[i].(status := P.Paid, reason := None, paidAt := Some(now), manual := manual)];
      reservations := reservations - {i};
      if o.purchase.Some? {
        r := PaidTx(o.purchase.value, now);
        return r;
      }
      return Ok(());
    }

    /** Whether the command was done before; expired records of the key are dropped. */
    method BeginIdempotencyTx(key: CommandKey, digest: string) returns (r: Result<bool>)
      modifies this`commands
      ensures r == Begin(old(commands), key, digest, now)
      ensures KeyOk(key.key) ==> commands == LiveCommands(old(commands), key, now)
    {
      if |key.key| < 8 || |key.key| > 128 || Money.TrimSpace(key.key) != key.key { return Err(Validation); }
      if exists c :: c in "\r\n\0" && c in key.key { return Err(Validation); }
      if key in commands && commands[key].expiresAt <= now {
        commands := commands - {key};
      }
      if key !in commands { return Ok(false); }
      var same := EqualDigest(commands[key].digest, digest);
      if !same { return Err(IdempotencyConflict); }
      return Ok(true);
    }

    /** Pays by hand, pricing an order that has no channel yet at its own price. */
    method SupplementOnceTx(m: int, i: nat, channel: Option<Channel>) returns (r: Result<()>)
      requires Priced() && i < |orders|
      modifies this
      ensures Done(SupplementOnce(old(View()), m, i, channel), r, View())
    {
      var o := orders[i];
      if m in banned { return Err(AccountBanned); }
      if !o.status.Pending? && !o.status.Expired? { return Err(NotPayable); }
      var selected := channel;
      if selected.None? { selected := o.channel; }
      if selected.None? || selected.value !in o.allowed { return Err(ChannelNotAllowed); }
      if o.channel.None? {
        orders := orders[i := o.(channel := selected, actual := Some(o.original), offset := Some(0))];
        PricedFirst(old(View()), i, selected.value);
      } else if o.channel != selected {
        return Err(ChannelLocked);
      }
      r := MarkPaidTx(i, selected.value, true);
    }

    method SupplementTx(m: int, i: nat, channel: Option<Channel>, key: string, digest: string) returns (r: Result<()>)
      requires Priced()
      modifies this
      ensures Done(Supplement(old(View()), m, i, channel, key, digest), r, View())
    {
      if i >= |orders| || orders[i].merchant != m { return Err(NotFound); }
      var command := CommandKey(m, SupplementRoute, key);
      if key != "" {
        var begun := BeginIdempotencyTx(command, digest);
        if begun.Err? { return Err(begun.error); }
        if begun.value {
          return Ok(());
        }
      }
      CommandsAside(old(View()), commands, m, i, channel);
      r := SupplementOnceTx(m, i, channel);
      if r.Err? { return r; }
      if key != "" {
        commands := commands[command := CommandRecord(digest, now + DAY)];
      }
      return Ok(());
    }

    method SupplementOrder(m: int, i: nat, channel: Option<Channel>, key: string, digest: string) returns (r: Result<()>)
      requires Valid()
      modifies this
      ensures Valid()
      ensures Committed(Supplement(old(View()), m, i, channel, key, digest), r, old(View()), View())
    {
      var saved := View();
      TablesFit();
      r := SupplementTx(m, i, channel, key, digest);
      if r.Err? {
        Restore(saved);
      } else {
        SupplementKeeps(saved, m, i, channel, key, digest);
      }
    }

    // -------------------------------------------------------------------------
    // Batches and what happens between their transactions
    // -------------------------------------------------------------------------

    /** Other callers commit in between. */
    method Interleave(calls: seq<Call>)
      requires Valid() && Timely(now, calls)
      modifies this
      ensures Valid() && View() == Run(old(View()), calls) && now == EndTime(old(now), calls)
    {
      RunKeeps(View(), calls);
      Restore(Run(View(), calls));
    }

    /** One order of a batch, re-checked in its own transaction. */
    method ExpireOneTx(i: nat) returns (changed: bool)
      requires i < |orders|
      modifies this`orders, this`reservations
      ensures View() == ExpireDue(old(View()), i)
      ensures changed <==> old(Due(orders[i], now))
    {
      var o := orders[i];
      changed := o.status.Pending? && o.expiresAt <= now;
      if changed {
        orders := orders[i := o.(status := P.Expired, reason := Some(P.Timeout))];
        if i in reservations {
          reservations := reservations[i := reservations[i].(releaseAfter := Some(o.expiresAt + DAY))];
        }
      }
    }

    /** One item of the batch, after what others did since the one before. */
    method ExpireNext(ghost start: State, ghost trace: seq<Call>, items: seq<nat>, n: nat, calls: seq<Call>) returns (changed: bool)
      requires Valid() && StateOk(start) && BatchSoFar(start, trace, View()) && Timely(now, calls)
      requires n < |items| && items[n] < |start.pay.orders| && start.pay.orders[items[n]].expiresAt <= start.now
      requires Settled(View(), items[..n])
      modifies this
      ensures Valid() && now == EndTime(old(now), calls)
      ensures BatchSoFar(start, trace + calls + [Call(now, ExpireEvent(items[n]))], View())
      ensures changed <==> View() != Run(start, trace + calls)
      ensures Settled(View(), items[..n + 1])
    {
      ghost var between := Run(View(), calls);
      ExpireStep(start, trace, View(), calls, items, n);
      RunConcat(start, trace, calls);
      ExpireChanges(between, items[n]);
      Interleave(calls);
      changed := ExpireOneTx(items[n]);
      assert View() == Next(between, Call(between.now, ExpireEvent(items[n])));
    }

    /** The same item as step `n` of the batch. */
    method ExpireItem(ghost start: State, rivals: seq<seq<Call>>, items: seq<nat>, n: nat, count: nat) returns (total: nat)
      requires StateOk(start) && n < |items| && DueThen(start, items[n]) && Timely(now, Nth(rivals, n))
      requires BatchAt(start, rivals, ExpireEvents(items), n, View(), count) && Settled(View(), items[..n])
      modifies this
      ensures now == EndTime(old(now), Nth(rivals, n)) && Settled(View(), items[..n + 1])
      ensures BatchAt(start, rivals, ExpireEvents(items), n + 1, View(), total)
    {
      hide StateOk, History, Timely;
      ghost var events := ExpireEvents(items);
      RunKeeps(start, Interleaved(start.now, rivals, events, n));
      var changed := ExpireNext(start, Interleaved(start.now, rivals, events, n), items, n, Nth(rivals, n));
      total := if changed then count + 1 else count;
      BatchAtNext(start, rivals, events, n, old(View()), View(), count, changed);
    }

    /** The loop over the scanned orders. */
    method ExpireAll(items: seq<nat>, rivals: seq<seq<Call>>) returns (count: nat)
      requires Valid() && TimelyAll(now, rivals) && forall k :: 0 <= k < |items| ==> DueThen(View(), items[k])
      modifies this
      ensures Valid() && Settled(View(), items)
      ensures BatchAt(old(View()), rivals, ExpireEvents(items), |items|, View(), count)
    {
      ghost var start := View();
      count := 0;
      var rest := rivals;
      for n := 0 to |items|
        invariant TimelyAll(now, rest) && rest == Drop(rivals, n)
        invariant BatchAt(start, rivals, ExpireEvents(items), n, View(), count) && Settled(View(), items[..n])
      {
        DropOne(rivals, n);
        DropTimely(now, rest);
        count := ExpireItem(start, rivals, items, n, count);
        rest := Tail(rest);
      }
      RunKeeps(start, Interleaved(start.now, rivals, ExpireEvents(items), |items|));
      assert items[..|items|] == items;
    }

    /** Scans once, then expires order by order, each in a transaction of its own. Whatever the other
        callers do in between, the batch is a run of single steps, and no scanned order is still pending
        at its end. */
    method ExpireBatch(limit: int, rivals: seq<seq<Call>>) returns (count: nat)
      requires Valid() && TimelyAll(now, rivals)
      modifies this
      ensures Valid()
      ensures var items := Scanned(old(orders), old(now), limit);
              && |items| <= BatchLimit(limit) && Settled(View(), items)
              && BatchAt(old(View()), rivals, ExpireEvents(items), |items|, View(), count)
    {
      var items := Scanned(orders, now, limit);
      ScannedIs(orders, now, limit);
      count := ExpireAll(items, rivals);
    }

    // -------------------------------------------------------------------------
    // Receipts
    // -------------------------------------------------------------------------

    /** The row is inserted unmatched, then updated once its order is paid. */
    method IngestTx(authorized: bool, r: P.Receipt, seen: int) returns (result: Result<Reply>)
      modifies this
      ensures match Ingest(old(View()), authorized, r, seen)
              case Ok((s', reply)) => result == Ok(reply) && View() == s'
              case Err(e) => result == Err(e)
    {
      if r.cents <= 0 || r.cents > MAX_AMOUNT_CENTS { return Err(Validation); }
      if !authorized { return Err(DeviceUnauthorized); }
      var known := FindEvent(receipts, r.merchant, r.eventId);
      if known.Some? {
        var stored := receipts[known.value];
        var same := EqualDigest(stored.digest, r.digest);
        if !same { return Err(EventConflict); }
        return Ok(Reply(known.value, true, stored.order, StoredReason(stored)));
      }
      if r.providerNo != "" && KnownProviderNo(receipts, r) { return Err(EventConflict); }
      var id := |receipts|;
      receipts := receipts + [r.(order := None)];
      var reason := NoMatchingOrder;
      var trade: Option<nat> := None;
      if r.merchant in banned {
        reason := BannedMerchant;
      } else {
        trade := FirstMatch(orders, r, seen);
        if trade.Some? {
          ReceiptsAside(old(View()), receipts, trade.value, r.channel);
          var paid := MarkPaidTx(trade.value, r.channel, false);
          if paid.Err? { return Err(paid.error); }
          receipts := receipts[id := receipts[id].(order := trade)];
          reason := Matched;
        } else if LateOrder(orders, r, seen) {
          reason := ExpiredOrder;
        }
      }
      return Ok(Reply(id, false, trade, reason));
    }

    method IngestReceipt(authorized: bool, r: P.Receipt, seen: int) returns (result: Result<Reply>)
      requires Valid()
      modifies this
      ensures Valid()
      ensures match Ingest(old(View()), authorized, r, seen)
              case Ok((s', reply)) => result == Ok(reply) && View() == s'
              case Err(e) => result == Err(e) && View() == old(View())
    {
      var saved := View();
      result := IngestTx(authorized, r, seen);
      if result.Err? {
        Restore(saved);
      } else {
        IngestKeeps(saved, authorized, r, seen);
      }
    }

    // -------------------------------------------------------------------------
    // Refunds
    // -------------------------------------------------------------------------

    method RequestRefundTx(m: int, i: nat, amount: int, outRefundNo: string, digest: string) returns (r: Result<()>)
      modifies this`refunds
      ensures Done(RequestRefund(old(View()), m, i, amount, outRefundNo, digest), r, View())
    {
      if i >= |orders| || orders[i].merchant != m { return Err(NotFound); }
      var o := orders[i];
      if o.status.Refunded? { return Err(AlreadyRefunded); }
      if !o.status.Paid? { return Err(NotPaid); }
      if amount != o.original { return Err(PartialRefund); }
      var pending := PendingRefund(refunds, i);
      if pending.Some? {
        if digest != "" && refunds[pending.value].digest != digest { return Err(RefundPending); }
        return Ok(());
      }
      if outRefundNo != "" && KnownRefundNo(refunds, outRefundNo) { return Err(IdempotencyConflict); }
      refunds := refunds + [P.Refund(i, outRefundNo, digest, P.RefundPending)];
      return Ok(());
    }

    method AskRefund(m: int, i: nat, amount: int, outRefundNo: string, digest: string) returns (r: Result<()>)
      requires Valid()
      modifies this
      ensures Valid()
      ensures Committed(RequestRefund(old(View()), m, i, amount, outRefundNo, digest), r, old(View()), View())
    {
      var saved := View();
      r := RequestRefundTx(m, i, amount, outRefundNo, digest);
      if r.Err? {
        Restore(saved);
      } else {
        RequestRefundKeeps(saved, m, i, amount, outRefundNo, digest);
      }
    }

    method RefundedTx(k: nat, at: int) returns (r: Result<()>)
      modifies this`purchases, this`grants, this`subs
      ensures match B.RefundedTx(old(View()).books, k, at)
              case Ok(books) => r == Ok(()) && View() == old(View()).(books := books)
              case Err(e) => r == Err(e)
    {
      var found := B.FindGrant(grants, k);
      if k >= |purchases| || found.None? { return Ok(()); }
      var pu := purchases[k];
      if pu.state.Refunded? { return Ok(()); }
      if !pu.state.Paid? { return Err(NotPaid); }
      var i := found.value;
      purchases := purchases[k := pu.(state := B.Refunded)];
      if grants[i].refundedAt.None? {
        grants := grants[i := grants[i].(refundedAt := Some(at))];
      }
      var chain := grants[i].chain;
      ghost var books := old(View()).books;
      ghost var taken := books.(purchases := books.purchases[k := pu.(state := B.Refunded)],
                                grants := books.grants[i := B.RefundedGrant(books.grants[i], at)]);
      assert View() == old(View()).(books := taken);
      if pu.buyer in subs && subs[pu.buyer].chain == chain {
        RecomputeChainTx(pu.buyer, chain, at);
      }
      return Ok(());
    }

    method MarkRefundedTx(i: nat) returns (r: Result<()>)
      modifies this
      ensures Done(MarkRefunded(old(View()), i), r, View())
    {
      if i >= |orders| { return Err(NotFound); }
      var o := orders[i];
      if o.status.Refunded? { return Err(AlreadyRefunded); }
      if !o.status.Paid? { return Err(NotPaid); }
      orders := orders[i := o.(status := P.Refunded, refundedAt := Some(now))];
      if o.purchase.Some? {
        r := RefundedTx(o.purchase.value, now);
        if r.Err? { return r; }
      }
      var done := refunds;
      for k := 0 to |refunds|
        invariant |done| == |refunds| && refunds == old(refunds)
        invariant forall l :: 0 <= l < |done| ==> done[l] == if l < k then P.CompletedRow(refunds[l], i) else refunds[l]
      {
        if done[k].order == i && done[k].status.RefundPending? {
          done := done[k := done[k].(status := P.RefundCompleted)];
        }
      }
      refunds := done;
      assert refunds == P.RefundOrder(old(View()).pay, i, now).refunds;
      return Ok(());
    }

    method ResolveRefundTx(m: int, k: nat, reject: bool) returns (r: Result<()>)
      modifies this
      ensures Done(ResolveRefund(old(View()), m, k, reject), r, View())
    {
      if k >= |refunds| || refunds[k].order >= |orders| || orders[refunds[k].order].merchant != m {
        return Err(NotFound);
      }
      var i := refunds[k].order;
      if !orders[i].status.Paid? { return Err(NotPaid); }
      if reject {
        if refunds[k].status.RefundPending? {
          refunds := refunds[k := refunds[k].(status := P.RefundRejected)];
        }
        return Ok(());
      }
      r := MarkRefundedTx(i);
      if r.Err? { return r; }
      if refunds[k].status.RefundPending? {
        refunds := refunds[k := refunds[k].(status := P.RefundCompleted)];
      }
      return Ok(());
    }

    method ResolveRefundRequest(m: int, k: nat, reject: bool) returns (r: Result<()>)
      requires Valid()
      modifies this
      ensures Valid()
      ensures Committed(ResolveRefund(old(View()), m, k, reject), r, old(View()), View())
    {
      var saved := View();
      r := ResolveRefundTx(m, k, reject);
      if r.Err? {
        Restore(saved);
      } else {
        ResolveRefundKeeps(saved, m, k, reject);
      }
    }

    method RefundMarkTx(m: int, i: nat, key: string, digest: string) returns (r: Result<()>)
      modifies this
      ensures Done(RefundMark(old(View()), m, i, key, digest), r, View())
    {
      var command := CommandKey(m, RefundMarkRoute, key);
      if key != "" {
        var begun := BeginIdempotencyTx(command, digest);
        if begun.Err? { return Err(begun.error); }
        if begun.value { return Ok(()); }
      }
      if i >= |orders| || orders[i].merchant != m { return Err(NotFound); }
      RefundCommandsAside(old(View()), commands, i);
      r := MarkRefundedTx(i);
      if r.Err? { return r; }
      if key != "" {
        commands := commands[command := CommandRecord(digest, now + DAY)];
      }
      return Ok(());
    }

    method MarkOrderRefunded(m: int, i: nat, key: string, digest: string) returns (r: Result<()>)
      requires Valid()
      modifies this
      ensures Valid()
      ensures Committed(RefundMark(old(View()), m, i, key, digest), r, old(View()), View())
    {
      var saved := View();
      r := RefundMarkTx(m, i, key, digest);
      if r.Err? {
        Restore(saved);
      } else {
        RefundMarkKeeps(saved, m, i, key, digest);
      }
    }

    // -------------------------------------------------------------------------
    // Purchases
    // -------------------------------------------------------------------------

    /** The order of a purchase, at the billing merchant. */
    method CreateSubscriptionOrderTx(env: Env, k: nat, billing: int, amount: int, planChannels: set<Channel>, expiresAt: int)
      returns (r: Result<nat>)
      modifies this`orders
      ensures var eligible := Eligible(old(View()), env, billing, amount);
              if eligible.Ok? && eligible.value * planChannels * env.qr != {} && expiresAt > now then
                && r == Ok(|old(orders)|)
                && orders == old(orders) + [NewOrder(billing, P.Internal(k), Some(k), amount,
                                                     eligible.value * planChannels * env.qr, now, expiresAt)]
              else
                r == Err(BillingNotReady) && orders == old(orders)
    {
      var eligible := Eligible(View(), env, billing, amount);
      if eligible.Err? { return Err(BillingNotReady); }
      var channels := eligible.value * planChannels * env.qr;
      if channels == {} { return Err(BillingNotReady); }
      if expiresAt <= now { return Err(BillingNotReady); }
      orders := orders + [NewOrder(billing, P.Internal(k), Some(k), amount, channels, now, expiresAt)];
      return Ok(|orders| - 1);
    }

    /** The counter row of the plan, if it is the first purchase of it, and the purchase, with no order yet. */
    method InsertPurchaseTx(pu: B.Purchase) returns (k: nat)
      modifies this`purchases, this`counters
      ensures k == |old(purchases)| && purchases == old(purchases) + [pu]
      ensures var key := (pu.buyer, pu.plan);
              counters == if key in old(counters) then old(counters) else old(counters)[key := B.Counter(0, 0)]
    {
      if (pu.buyer, pu.plan) !in counters {
        counters := counters[(pu.buyer, pu.plan) := B.Counter(0, 0)];
      }
      purchases := purchases + [pu];
      return |purchases| - 1;
    }

    /** Links the purchase to its order and counts it as reserved. */
    method ReserveQuotaTx(k: nat, order: nat)
      requires k < |purchases| && (purchases[k].buyer, purchases[k].plan) in counters
      modifies this`purchases, this`counters
      ensures purchases == old(purchases)[k := old(purchases)[k].(order := order)]
      ensures var key := (old(purchases)[k].buyer, old(purchases)[k].plan);
              counters == old(counters)[key := B.Counter(old(counters)[key].paid, old(counters)[key].reserved + 1)]
    {
      purchases := purchases[k := purchases[k].(order := order)];
      var key := (purchases[k].buyer, purchases[k].plan);
      counters := counters[key := counters[key].(reserved := counters[key].reserved + 1)];
    }

    method OpenPurchaseTx(env: Env, c: PurchaseCommand, kind: E.GrantKind) returns (r: Result<()>)
      requires c.plan < |plans| && c.billing.Some?
      modifies this`orders, this`purchases, this`counters
      ensures Done(OpenPurchase(old(View()), env, c, kind), r, View())
    {
      var plan := plans[c.plan];
      var expiresAt := now + env.defaultTtl * SECOND;
      var pu := B.Purchase(c.buyer, c.billing.value, c.plan, SnapshotOf(c.plan, plan, plan.channels), kind,
                           B.Pending, 0, c.key, c.digest, expiresAt, None);
      var k := InsertPurchaseTx(pu);
      EligibleAside(old(View()), View(), env, c.billing.value, plan.price);
      var order := CreateSubscriptionOrderTx(env, k, c.billing.value, plan.price, plan.channels, expiresAt);
      if order.Err? { return Err(BillingNotReady); }
      ReserveQuotaTx(k, order.value);
      ReservedAfterwards(old(View()).books, pu, order.value);
      return Ok(());
    }

    method PurchaseTx(env: Env, c: PurchaseCommand) returns (r: Result<()>)
      modifies this
      ensures Done(Purchase(old(View()), env, c), r, View())
    {
      if |c.key| < 8 || |c.key| > 128 { return Err(Validation); }
      if c.billing.None? || c.billing.value in banned { return Err(BillingNotReady); }
      var known := FindPurchase(purchases, c.buyer, c.key);
      if known.Some? {
        var same := EqualDigest(purchases[known.value].digest, c.digest);
        if !same { return Err(IdempotencyConflict); }
        return Ok(());
      }
      if !c.credentialsOk { return Err(BillingNotReady); }
      if c.plan >= |plans| { return Err(PlanUnavailable); }
      if plans[c.plan].deleted || plans[c.plan].revision != c.planRevision { return Err(PlanUnavailable); }
      if B.Revision(subs, c.buyer) != c.expectedRevision { return Err(VersionConflict); }
      var kind := E.New;
      if c.buyer in subs && subs[c.buyer].expiresAt > now && subs[c.buyer].plan.Some? {
        if subs[c.buyer].plan.value == c.plan {
          kind := E.Renew;
        } else {
          if !c.confirmReplace { return Err(VersionConflict); }
          kind := E.Switch;
        }
      }
      if HasUnexpired(purchases, c.buyer, now) { return Err(PurchasePending); }
      if !QuotaLeft(View(), c) { return Err(LimitReached); }
      if HasPending(purchases, c.buyer) { return Err(UniqueViolation); }
      r := OpenPurchaseTx(env, c, kind);
    }

    method Buy(env: Env, c: PurchaseCommand) returns (r: Result<()>)
      requires Valid()
      modifies this
      ensures Valid()
      ensures Committed(Purchase(old(View()), env, c), r, old(View()), View())
    {
      var saved := View();
      r := PurchaseTx(env, c);
      if r.Err? {
        Restore(saved);
      } else {
        PurchaseKeeps(saved, env, c);
      }
    }

    /** Expires a pending subscription order and starts the quarantine of its amount. */
    method CancelSubscriptionOrderTx(i: nat)
      requires i < |orders|
      modifies this`orders, this`reservations
      ensures View().pay == if old(orders)[i].purchase.Some? && old(orders)[i].status.Pending?
                            then P.ExpireOrder(old(View()).pay, i, P.Cancelled) else old(View()).pay
    {
      var o := orders[i];
      if o.purchase.Some? && o.status.Pending? {
        orders := orders[i := o.(status := P.Expired, reason := Some(P.Cancelled))];
        if i in reservations {
          reservations := reservations[i := reservations[i].(releaseAfter := Some(o.expiresAt + DAY))];
        }
      }
    }

    method CancelOneTx(k: nat)
      requires k < |purchases| && purchases[k].state.Pending?
      modifies this
      ensures View() == CancelOne(old(View()), k)
    {
      var pu := purchases[k];
      if pu.order < |orders| {
        CancelSubscriptionOrderTx(pu.order);
      }
      purchases := purchases[k := pu.(state := B.Cancelled)];
      var key := (pu.buyer, pu.plan);
      if key in counters {
        counters := counters[key := counters[key].(reserved := E.Max(0, counters[key].reserved - 1))];
      }
    }

    /** Cancels the listed purchases one after the other. */
    method CancelListedTx(ks: seq<nat>)
      requires forall j, l :: 0 <= j < l < |ks| ==> ks[j] != ks[l]
      requires forall j :: 0 <= j < |ks| ==> ks[j] < |purchases| && purchases[ks[j]].state.Pending?
      modifies this
      ensures View() == CancelAll(old(View()), ks) && now == old(now)
    {
      ghost var start := View();
      for n := 0 to |ks|
        invariant View() == CancelAll(start, ks[..n]) && now == start.now
        invariant forall j :: n <= j < |ks| ==> ks[j] < |purchases| && purchases[ks[j]].state.Pending?
      {
        assert ks[..n + 1][..n] == ks[..n];
        CancelTouches(View(), ks[n]);
        CancelOneTx(ks[n]);
      }
      assert ks[..|ks|] == ks;
    }

    method CancelPurchaseTx(m: int, k: nat) returns (r: Result<()>)
      modifies this
      ensures Done(CancelPurchase(old(View()), m, k), r, View())
    {
      if k >= |purchases| || purchases[k].buyer != m { return Err(NotFound); }
      if !purchases[k].state.Pending? { return Err(VersionConflict); }
      CancelOneTx(k);
      return Ok(());
    }

    method CancelBuying(m: int, k: nat) returns (r: Result<()>)
      requires Valid()
      modifies this
      ensures Valid()
      ensures Committed(CancelPurchase(old(View()), m, k), r, old(View()), View())
    {
      var saved := View();
      r := CancelPurchaseTx(m, k);
      if r.Err? {
        Restore(saved);
      } else {
        CancelPurchaseKeeps(saved, m, k);
      }
    }

    /** One purchase of the closing batch, re-checked in its own transaction. */
    method CloseOneTx(k: nat) returns (changed: bool)
      requires k < |purchases|
      modifies this`purchases, this`counters
      ensures View() == CloseDue(old(View()), k)
      ensures changed <==> old(purchases[k].state.Pending? && purchases[k].expiresAt <= now)
    {
      var pu := purchases[k];
      changed := pu.state.Pending? && pu.expiresAt <= now;
      if changed {
        purchases := purchases[k := pu.(state := B.Expired)];
        counters := B.Released(counters, pu.buyer, pu.plan);
      }
    }

    // -------------------------------------------------------------------------
    // Administration
    // -------------------------------------------------------------------------

    method DeletePlanTx(id: nat, revision: int) returns (r: Result<()>)
      modifies this
      ensures Done(DeletePlan(old(View()), id, revision), r, View())
    {
      if id >= |plans| { return Err(NotFound); }
      if plans[id].revision != revision { return Err(VersionConflict); }
      if plans[id].deleted { return Err(VersionConflict); }
      plans := plans[id := plans[id].(revision := revision + 1, deleted := true)];
      var list := PendingOfPlan(purchases, id);
      CancelListedTx(list);
      return Ok(());
    }

    method DropPlan(id: nat, revision: int) returns (r: Result<()>)
      requires Valid()
      modifies this
      ensures Valid()
      ensures Committed(DeletePlan(old(View()), id, revision), r, old(View()), View())
    {
      var saved := View();
      r := DeletePlanTx(id, revision);
      if r.Err? {
        Restore(saved);
      } else {
        DeletePlanKeeps(saved, id, revision);
      }
    }

    method GrantTx(m: int, planId: nat, channels: set<Channel>, expectedRevision: int, expiry: int) returns (r: Result<()>)
      modifies this
      ensures Done(GrantManually(old(View()), m, planId, channels, expectedRevision, expiry), r, View())
    {
      if channels == {} { return Err(Validation); }
      CancelListedTx(PendingOfBuyer(purchases, m));
      if B.Revision(subs, m) != expectedRevision { return Err(VersionConflict); }
      if planId >= |plans| || plans[planId].deleted { return Err(PlanUnavailable); }
      if !(channels <= plans[planId].channels) { return Err(Validation); }
      OverrideTx(m, SnapshotOf(planId, plans[planId], channels), expiry);
      return Ok(());
    }

    /** Voids the active chain and starts one that holds the manual grant alone. */
    method OverrideTx(m: int, snapshot: E.Snapshot, expiry: int)
      modifies this`grants, this`subs, this`chains
      ensures View() == old(View()).(books := B.Override(old(View()).books, m, snapshot, expiry, now))
    {
      var chain := chains;
      chains := chains + 1;
      if m in subs {
        grants := B.VoidChain(grants, m, subs[m].chain, now);
      }
      grants := grants + [E.Grant(None, m, chain, E.Manual, 0, now, Some(expiry), snapshot, None, None)];
      subs := subs[m := B.Subscription(Some(snapshot.planId), Some(snapshot), expiry, B.Revision(subs, m) + 1, chain, E.ByManual)];
    }

    /** The first statement: every pending order of the merchant expires, row by row. */
    method ExpirePendingRows(m: int)
      modifies this`orders
      ensures orders == P.BannedRows(old(orders), m)
    {
      for i := 0 to |orders|
        invariant |orders| == |old(orders)|
        invariant forall j :: 0 <= j < |orders| ==>
                    orders[j] == if j < i then P.BannedRow(old(orders)[j], m) else old(orders)[j]
      {
        if orders[i].merchant == m && orders[i].status.Pending? {
          orders := orders[i := orders[i].(status := P.Expired, reason := Some(P.MerchantBanned))];
        }
      }
    }

    /** No order of the merchant stays pending, the amounts those orders held are released a day after their
        deadlines, and no other order and no other merchant's reservation changes. */
    method ExpirePendingForBannedTx(m: int)
      modifies this`orders, this`reservations
      ensures View().pay == P.ExpireBanned(old(View()).pay, m)
      ensures forall i :: 0 <= i < |orders| && orders[i].merchant == m ==> !orders[i].status.Pending?
      ensures |orders| == |old(orders)| && reservations.Keys == old(reservations).Keys
      ensures forall i :: 0 <= i < |orders| && !(old(orders)[i].merchant == m && old(orders)[i].status.Pending?) ==>
                orders[i] == old(orders)[i]
      ensures forall i :: i in reservations && i < |orders| && old(orders)[i].merchant == m && old(orders)[i].status.Pending? ==>
                reservations[i].releaseAfter == Some(old(orders)[i].expiresAt + DAY)
      ensures forall i :: i in reservations && (i >= |orders| || orders[i].merchant != m) ==>
                reservations[i] == old(reservations)[i]
    {
      ExpirePendingRows(m);
      var expired := orders;
      reservations :=
        map i | i in reservations ::
          if i < |expired| && expired[i].merchant == m && expired[i].status.Expired? && expired[i].reason == Some(P.MerchantBanned)
          then reservations[i].(releaseAfter := Some(expired[i].expiresAt + DAY)) else reservations[i];
    }

    method BanTx(m: int) returns (r: Result<()>)
      modifies this
      ensures Done(Ban(old(View()), m), r, View())
    {
      if m in banned { return Err(VersionConflict); }
      ExpirePendingForBannedTx(m);
      CancelListedTx(PendingOfBuyer(purchases, m));
      banned := banned + {m};
      return Ok(());
    }

    /** Reads the merchants to lock, then locks them, while others commit in between; whether the locks cover
        the pending purchases as they are by then. */
    method LockOnce(m: int, ghost start: State, rivals: seq<seq<Call>>, n: nat) returns (covered: bool)
      requires StateOk(start) && Timely(now, Nth(rivals, n)) && AttemptsAt(start, rivals, m, n, View())
      modifies this
      ensures now == EndTime(old(now), Nth(rivals, n))
      ensures View() == Run(start, Joined(rivals, n + 1)) && Timely(start.now, Joined(rivals, n + 1))
      ensures covered <==> Covered(start, rivals, m, n)
      ensures !covered ==> AttemptsAt(start, rivals, m, n + 1, View())
    {
      RunKeeps(start, Joined(rivals, n));
      AttemptNext(start, rivals, m, n, View());
      var lockSet := {m} + PendingBilling(purchases, m);
      Interleave(Nth(rivals, n));
      covered := PendingBilling(purchases, m) <= lockSet;
    }

    /** Tries again, at most three times, as long as the locks fall short. */
    method AcquireLocks(m: int, rivals: seq<seq<Call>>) returns (covered: bool, tries: nat)
      requires Valid() && TimelyAll(now, rivals)
      modifies this
      ensures Valid() && 1 <= tries <= 3 && Timely(old(now), Joined(rivals, tries))
      ensures View() == Run(old(View()), Joined(rivals, tries))
      ensures forall j: nat :: j < tries - 1 ==> !Covered(old(View()), rivals, m, j)
      ensures covered <==> Covered(old(View()), rivals, m, tries - 1)
      ensures covered || tries == 3
    {
      hide StateOk, History, Timely, BatchSoFar, Covered, Run, Joined;
      ghost var start := View();
      AttemptsStart(start, rivals, m);
      var rest := rivals;
      for attempt := 0 to 3
        invariant TimelyAll(now, rest) && rest == Drop(rivals, attempt)
        invariant AttemptsAt(start, rivals, m, attempt, View())
      {
        DropOne(rivals, attempt);
        DropTimely(now, rest);
        covered := LockOnce(m, start, rivals, attempt);
        if covered {
          RunKeeps(start, Joined(rivals, attempt + 1));
          return true, attempt + 1;
        }
        rest := Tail(rest);
      }
      AttemptsKeep(start, rivals, m, 3, View());
      return false, 3;
    }

    /** Bans a merchant. The first attempt whose locks suffice does what the transaction does to what others
        had committed by then; without one in three attempts the call fails and leaves only what they did. */
    method BanMerchant(m: int, rivals: seq<seq<Call>>)
      returns (r: Result<()>, tries: nat)
      requires Valid() && TimelyAll(now, rivals)
      modifies this
      ensures Valid() && 1 <= tries <= 3 && Timely(old(now), Joined(rivals, tries))
      ensures forall j: nat :: j < tries - 1 ==> !Covered(old(View()), rivals, m, j)
      ensures var seen := Run(old(View()), Joined(rivals, tries));
              if Covered(old(View()), rivals, m, tries - 1) then
                Committed(Ban(seen, m), r, seen, View())
              else
                tries == 3 && r == Err(VersionConflict) && View() == seen
    {
      var covered;
      covered, tries := AcquireLocks(m, rivals);
      if !covered { return Err(VersionConflict), tries; }
      var saved := View();
      r := BanTx(m);
      if r.Err? {
        Restore(saved);
      } else {
        BanKeeps(saved, m);
      }
    }

    /** Lifts a ban. */
    method UnbanMerchant(m: int)
      requires Valid()
      modifies this
      ensures Valid() && View() == Unban(old(View()), m)
    {
      UnbanKeeps(View(), m);
      banned := banned - {m};
    }

    /** Grants an entitlement by hand. The first attempt whose locks suffice does what the transaction does to what others
        had committed by then; without one in three attempts the call fails and leaves only what they did. */
    method Grant(m: int, planId: nat, channels: set<Channel>, expectedRevision: int, expiry: int, rivals: seq<seq<Call>>)
      returns (r: Result<()>, tries: nat)
      requires Valid() && TimelyAll(now, rivals)
      modifies this
      ensures Valid() && 1 <= tries <= 3 && Timely(old(now), Joined(rivals, tries))
      ensures forall j: nat :: j < tries - 1 ==> !Covered(old(View()), rivals, m, j)
      ensures var seen := Run(old(View()), Joined(rivals, tries));
              if Covered(old(View()), rivals, m, tries - 1) then
                Committed(GrantManually(seen, m, planId, channels, expectedRevision, expiry), r, seen, View())
              else
                tries == 3 && r == Err(VersionConflict) && View() == seen
    {
      var covered;
      covered, tries := AcquireLocks(m, rivals);
      if !covered { return Err(VersionConflict), tries; }
      var saved := View();
      r := GrantTx(m, planId, channels, expectedRevision, expiry);
      if r.Err? {
        Restore(saved);
      } else {
        GrantManuallyKeeps(saved, m, planId, channels, expectedRevision, expiry);
      }
    }

    /** One item of the batch, after what others did since the one before. */
    method CloseNext(ghost start: State, ghost trace: seq<Call>, items: seq<nat>, n: nat, calls: seq<Call>) returns (changed: bool)
      requires Valid() && StateOk(start) && BatchSoFar(start, trace, View()) && Timely(now, calls)
      requires n < |items| && items[n] < |start.books.purchases| && start.books.purchases[items[n]].expiresAt <= start.now
      requires Closed(View(), items[..n])
      modifies this
      ensures Valid() && now == EndTime(old(now), calls)
      ensures BatchSoFar(start, trace + calls + [Call(now, CloseEvent(items[n]))], View())
      ensures changed <==> View() != Run(start, trace + calls)
      ensures Closed(View(), items[..n + 1])
    {
      ghost var between := Run(View(), calls);
      CloseStep(start, trace, View(), calls, items, n);
      RunConcat(start, trace, calls);
      CloseChanges(between, items[n]);
      Interleave(calls);
      changed := CloseOneTx(items[n]);
      assert View() == Next(between, Call(between.now, CloseEvent(items[n])));
    }

    /** The same item as step `n` of the batch. */
    method CloseItem(ghost start: State, rivals: seq<seq<Call>>, items: seq<nat>, n: nat, count: nat) returns (total: nat)
      requires StateOk(start) && n < |items| && OverdueThen(start, items[n]) && Timely(now, Nth(rivals, n))
      requires BatchAt(start, rivals, CloseEvents(items), n, View(), count) && Closed(View(), items[..n])
      modifies this
      ensures now == EndTime(old(now), Nth(rivals, n)) && Closed(View(), items[..n + 1])
      ensures BatchAt(start, rivals, CloseEvents(items), n + 1, View(), total)
    {
      hide StateOk, History, Timely;
      ghost var events := CloseEvents(items);
      RunKeeps(start, Interleaved(start.now, rivals, events, n));
      var changed := CloseNext(start, Interleaved(start.now, rivals, events, n), items, n, Nth(rivals, n));
      total := if changed then count + 1 else count;
      BatchAtNext(start, rivals, events, n, old(View()), View(), count, changed);
    }

    /** The loop over the scanned purchases. */
    method CloseAll(items: seq<nat>, rivals: seq<seq<Call>>) returns (count: nat)
      requires Valid() && TimelyAll(now, rivals) && forall k :: 0 <= k < |items| ==> OverdueThen(View(), items[k])
      modifies this
      ensures Valid() && Closed(View(), items)
      ensures BatchAt(old(View()), rivals, CloseEvents(items), |items|, View(), count)
    {
      ghost var start := View();
      count := 0;
      var rest := rivals;
      for n := 0 to |items|
        invariant TimelyAll(now, rest) && rest == Drop(rivals, n)
        invariant BatchAt(start, rivals, CloseEvents(items), n, View(), count) && Closed(View(), items[..n])
      {
        DropOne(rivals, n);
        DropTimely(now, rest);
        count := CloseItem(start, rivals, items, n, count);
        rest := Tail(rest);
      }
      RunKeeps(start, Interleaved(start.now, rivals, CloseEvents(items), |items|));
      assert items[..|items|] == items;
    }

    /** Scans once, then closes purchase by purchase, each in a transaction of its own. */
    method CloseExpiredPurchases(limit: int, rivals: seq<seq<Call>>) returns (count: nat)
      requires Valid() && TimelyAll(now, rivals)
      modifies this
      ensures Valid()
      ensures var items := ScannedPurchases(old(purchases), old(now), limit);
              && |items| <= BatchLimit(limit) && Closed(View(), items)
              && BatchAt(old(View()), rivals, CloseEvents(items), |items|, View(), count)
    {
      var items := ScannedPurchases(purchases, now, limit);
      ScannedPurchasesIs(purchases, now, limit);
      count := CloseAll(items, rivals);
    }
  }

  /** Linking the order after inserting the purchase is inserting it linked. */
  lemma ReservedAfterwards(b: B.Books, pu: B.Purchase, order: nat)
    ensures var key := (pu.buyer, pu.plan);
            var counters := if key in b.counters then b.counters else b.counters[key := B.Counter(0, 0)];
            && B.Reserve(b, pu.(order := order)).purchases == (b.purchases + [pu])[|b.purchases| := pu.(order := order)]
            && B.Reserve(b, pu.(order := order)).counters
               == counters[key := B.Counter(counters[key].paid, counters[key].reserved + 1)]
  {
  }

  /** The purchases a closing batch picks: those due, oldest deadline first, up to the limit. */
  function ScannedPurchases(purchases: seq<B.Purchase>, now: int, limit: int): seq<nat> {
    Scan(CloseKey(purchases), CloseWanted(purchases, now), |purchases|, limit)
  }

  function CloseKey(purchases: seq<B.Purchase>): nat -> int {
    (k: nat) => if k < |purchases| then purchases[k].expiresAt else 0
  }

  function CloseWanted(purchases: seq<B.Purchase>, now: int): nat -> bool {
    (k: nat) => k < |purchases| && DuePurchase(purchases[k], now)
  }

  /** It picks waiting purchases past their deadline, each once, by deadline and id, and leaves one out only when the
      limit is reached by earlier ones. */
  lemma ScannedPurchasesIs(purchases: seq<B.Purchase>, now: int, limit: int)
    ensures var items := ScannedPurchases(purchases, now, limit);
            && |items| <= BatchLimit(limit)
            && (forall j :: 0 <= j < |items| ==>
                  && items[j] < |purchases|
                  && purchases[items[j]].state.Pending? && purchases[items[j]].expiresAt <= now)
            && (forall i, j :: 0 <= i < j < |items| ==>
                  purchases[items[i]].expiresAt < purchases[items[j]].expiresAt
                  || (purchases[items[i]].expiresAt == purchases[items[j]].expiresAt && items[i] < items[j]))
            && (forall k: nat :: k < |purchases| && purchases[k].state.Pending? && purchases[k].expiresAt <= now
                                 && k !in items ==>
                  |items| == BatchLimit(limit)
                  && forall j :: 0 <= j < |items| ==> purchases[items[j]].expiresAt <= purchases[k].expiresAt)
  {
    var items := ScannedPurchases(purchases, now, limit);
    var key, wanted := CloseKey(purchases), CloseWanted(purchases, now);
    ScanIs(key, wanted, |purchases|, limit);
    forall i, j | 0 <= i < j < |items| ensures Before(key, items[i], items[j]) {
    }
    forall k: nat | k < |purchases| && DuePurchase(purchases[k], now) && k !in items
      ensures |items| == BatchLimit(limit)
      ensures forall j :: 0 <= j < |items| ==> purchases[items[j]].expiresAt <= purchases[k].expiresAt
    {
      assert wanted(k);
      forall j | 0 <= j < |items| ensures purchases[items[j]].expiresAt <= purchases[k].expiresAt {
        assert Before(key, items[j], k);
      }
    }
  }

  predicate DuePurchase(pu: B.Purchase, now: int) {
    pu.state.Pending? && pu.expiresAt <= now
  }

  ghost predicate Closed(s: State, items: seq<nat>) {
    forall k :: 0 <= k < |items| ==> items[k] < |s.books.purchases| && !s.books.purchases[items[k]].state.Pending?
  }

  lemma StillClosed(s: State, s': State, items: seq<nat>)
    requires History(s, s') && Closed(s, items)
    ensures Closed(s', items)
  {
    forall k | 0 <= k < |items|
      ensures items[k] < |s'.books.purchases| && !s'.books.purchases[items[k]].state.Pending?
    {
      assert PurchaseDescends(s.books.purchases[items[k]], s'.books.purchases[items[k]]);
    }
  }

  lemma CloseSettles(start: State, before: State, between: State, items: seq<nat>, n: nat)
    requires History(start, before) && History(before, between)
    requires n < |items| && items[n] < |start.books.purchases| && start.books.purchases[items[n]].expiresAt <= start.now
    requires Closed(before, items[..n])
    ensures items[n] < |between.books.purchases|
    ensures Closed(CloseDue(between, items[n]), items[..n + 1])
    ensures Next(between, Call(between.now, CloseEvent(items[n]))) == CloseDue(between, items[n])
  {
    assert between.(now := between.now) == between;
    StillClosed(before, between, items[..n]);
    assert PurchaseDescends(start.books.purchases[items[n]], before.books.purchases[items[n]]);
    assert PurchaseDescends(before.books.purchases[items[n]], between.books.purchases[items[n]]);
    assert items[..n + 1] == items[..n] + [items[n]];
  }

  /** Paying does not look at the receipts. */
  lemma ReceiptsAside(s: State, receipts: seq<P.Receipt>, i: nat, ch: Channel)
    ensures MarkPaid(s.(pay := s.pay.(receipts := receipts)), i, ch, false)
            == match MarkPaid(s, i, ch, false)
               case Ok(s') => Ok(s'.(pay := s'.pay.(receipts := receipts)))
               case Err(e) => Err(e)
    ensures MarkPaid(s, i, ch, false).Ok? ==> MarkPaid(s, i, ch, false).value.pay.receipts == s.pay.receipts
  {
  }

  lemma RefundCommandsAside(s: State, commands: map<CommandKey, CommandRecord>, i: nat)
    ensures MarkRefunded(s.(commands := commands), i)
            == match MarkRefunded(s, i)
               case Ok(s') => Ok(s'.(commands := commands))
               case Err(e) => Err(e)
    ensures MarkRefunded(s, i).Ok? ==> MarkRefunded(s, i).value.commands == s.commands
  {
  }

  /** Whether a merchant may take orders does not depend on purchases and counters. */
  lemma EligibleAside(s: State, s': State, env: Env, m: int, amount: int)
    requires s'.now == s.now && s'.pay.banned == s.pay.banned
    requires s'.books.subs == s.books.subs && s'.books.plans == s.books.plans
    ensures Eligible(s', env, m, amount) == Eligible(s, env, m, amount)
  {
  }

  /** Cancelling one purchase leaves the state of the others. */
  lemma CancelTouches(s: State, k: nat)
    ensures var s' := CancelOne(s, k);
            && |s'.books.purchases| == |s.books.purchases|
            && forall l :: 0 <= l < |s.books.purchases| && l != k ==> s'.books.purchases[l] == s.books.purchases[l]
  {
  }

  ghost predicate BatchSoFar(start: State, trace: seq<Call>, s: State) {
    Timely(start.now, trace) && s == Run(start, trace) && s.now == EndTime(start.now, trace)
  }

  ghost predicate Settled(s: State, items: seq<nat>) {
    forall k :: 0 <= k < |items| ==> items[k] < |s.pay.orders| && !s.pay.orders[items[k]].status.Pending?
  }

  /** One more transaction, after what others did, extends the run of a batch. */
  lemma BatchRuns(start: State, trace: seq<Call>, before: State, calls: seq<Call>, e: Event)
    requires StateOk(start) && BatchSoFar(start, trace, before) && Timely(before.now, calls)
    ensures var between := Run(before, calls);
            && BatchSoFar(start, trace + calls, between)
            && BatchSoFar(start, trace + calls + [Call(between.now, e)], Next(between, Call(between.now, e)))
            && StateOk(Next(between, Call(between.now, e)))
  {
    RunKeeps(start, trace);
    RunKeeps(before, calls);
    RunConcat(start, trace, calls);
    TimelyConcat(start.now, trace, calls);
    var step := Call(Run(before, calls).now, e);
    RunExtended(start, trace, calls, step);
    NextKeeps(Run(before, calls), step);
  }

  /** A batch that is through with `n` items is a run of what others committed and those `n` steps, and has
      counted those that changed a row. */
  ghost predicate BatchAt(start: State, rivals: seq<seq<Call>>, events: seq<Event>, n: nat, s: State, count: nat) {
    && n <= |events|
    && BatchSoFar(start, Interleaved(start.now, rivals, events, n), s)
    && count == Changes(start, rivals, events, n)
  }

  lemma BatchAtNext(start: State, rivals: seq<seq<Call>>, events: seq<Event>, n: nat, before: State, s: State, count: nat,
                    changed: bool)
    requires n < |events| && BatchAt(start, rivals, events, n, before, count)
    requires var trace := Until(start.now, rivals, events, n);
             && BatchSoFar(start, trace + [Call(EndTime(before.now, Nth(rivals, n)), events[n])], s)
             && (changed <==> s != Run(start, trace))
    ensures BatchAt(start, rivals, events, n + 1, s, if changed then count + 1 else count)
  {
  }

  lemma DropTimely(from: int, rest: seq<seq<Call>>)
    requires TimelyAll(from, rest)
    ensures Timely(from, Head(rest)) && TimelyAll(EndTime(from, Head(rest)), Tail(rest))
  {
  }

  /** `n` attempts found their locks short, and only others have committed. */
  ghost predicate AttemptsAt(start: State, rivals: seq<seq<Call>>, m: int, n: nat, s: State) {
    && BatchSoFar(start, Joined(rivals, n), s)
    && forall j: nat :: j < n ==> !Covered(start, rivals, m, j)
  }

  lemma AttemptsStart(s: State, rivals: seq<seq<Call>>, m: int)
    ensures AttemptsAt(s, rivals, m, 0, s)
  {
  }

  lemma AttemptsKeep(start: State, rivals: seq<seq<Call>>, m: int, n: nat, s: State)
    requires StateOk(start) && AttemptsAt(start, rivals, m, n, s)
    ensures StateOk(s) && Timely(start.now, Joined(rivals, n)) && s == Run(start, Joined(rivals, n))
  {
    RunKeeps(start, Joined(rivals, n));
  }

  lemma AttemptNext(start: State, rivals: seq<seq<Call>>, m: int, n: nat, s: State)
    requires AttemptsAt(start, rivals, m, n, s) && StateOk(s) && Timely(s.now, Nth(rivals, n))
    ensures var seen := Run(s, Nth(rivals, n));
            && Run(start, Joined(rivals, n + 1)) == seen && Timely(start.now, Joined(rivals, n + 1))
            && (Covered(start, rivals, m, n) <==>
                  PendingBilling(seen.books.purchases, m) <= {m} + PendingBilling(s.books.purchases, m))
            && (!Covered(start, rivals, m, n) ==> AttemptsAt(start, rivals, m, n + 1, seen))
  {
    hide StateOk, History, Timely, Run, PendingBilling;
    AttemptRuns(start, Joined(rivals, n), s, Nth(rivals, n));
    RunKeeps(s, Nth(rivals, n));
  }

  lemma AttemptRuns(start: State, trace: seq<Call>, before: State, calls: seq<Call>)
    requires BatchSoFar(start, trace, before) && Timely(before.now, calls)
    ensures Timely(start.now, trace + calls) && EndTime(start.now, trace + calls) == EndTime(before.now, calls)
    ensures Run(before, calls) == Run(start, trace + calls)
  {
    RunConcat(start, trace, calls);
    TimelyConcat(start.now, trace, calls);
  }

  lemma BatchHistory(start: State, trace: seq<Call>, before: State, calls: seq<Call>)
    requires StateOk(start) && BatchSoFar(start, trace, before) && Timely(before.now, calls)
    ensures History(start, before) && History(before, Run(before, calls))
    ensures Run(before, calls).now == EndTime(before.now, calls)
  {
    RunKeeps(start, trace);
    RunKeeps(before, calls);
  }

  function ExpireEvents(items: seq<nat>): seq<Event> {
    seq(|items|, k requires 0 <= k < |items| => ExpireEvent(items[k]))
  }

  function CloseEvents(items: seq<nat>): seq<Event> {
    seq(|items|, k requires 0 <= k < |items| => CloseEvent(items[k]))
  }

  predicate DueThen(s: State, i: nat) {
    i < |s.pay.orders| && s.pay.orders[i].expiresAt <= s.now
  }

  predicate OverdueThen(s: State, k: nat) {
    k < |s.books.purchases| && s.books.purchases[k].expiresAt <= s.now
  }

  /** A step of the batch changes a row exactly when the item is still due. */
  lemma ExpireChanges(s: State, i: nat)
    requires i < |s.pay.orders|
    ensures ExpireDue(s, i) != s <==> Due(s.pay.orders[i], s.now)
  {
    if Due(s.pay.orders[i], s.now) {
      assert ExpireDue(s, i).pay.orders[i].status.Expired?;
    }
  }

  lemma CloseChanges(s: State, k: nat)
    requires k < |s.books.purchases|
    ensures CloseDue(s, k) != s <==> DuePurchase(s.books.purchases[k], s.now)
  {
    if DuePurchase(s.books.purchases[k], s.now) {
      assert CloseDue(s, k).books.purchases[k].state.Expired?;
    }
  }

  /** An order due at the scan is settled once its transaction is over, and what was settled stays so. */
  lemma BatchSettles(start: State, before: State, between: State, items: seq<nat>, n: nat)
    requires History(start, before) && History(before, between)
    requires n < |items| && items[n] < |start.pay.orders| && start.pay.orders[items[n]].expiresAt <= start.now
    requires Settled(before, items[..n])
    ensures items[n] < |between.pay.orders|
    ensures Settled(ExpireDue(between, items[n]), items[..n + 1])
    ensures Next(between, Call(between.now, ExpireEvent(items[n]))) == ExpireDue(between, items[n])
  {
    assert between.(now := between.now) == between;
    StillSettled(before, between, items[..n]);
    assert P.Descends(start.pay.orders[items[n]], before.pay.orders[items[n]]);
    assert P.Descends(before.pay.orders[items[n]], between.pay.orders[items[n]]);
    assert items[..n + 1] == items[..n] + [items[n]];
  }

  /** One item of the expiry batch. */
  lemma ExpireStep(start: State, trace: seq<Call>, before: State, calls: seq<Call>, items: seq<nat>, n: nat)
    requires StateOk(start) && BatchSoFar(start, trace, before) && Timely(before.now, calls)
    requires n < |items| && items[n] < |start.pay.orders| && start.pay.orders[items[n]].expiresAt <= start.now
    requires Settled(before, items[..n])
    ensures var between := Run(before, calls);
            var step := Call(between.now, ExpireEvent(items[n]));
            && items[n] < |between.pay.orders| && between.now == EndTime(before.now, calls)
            && Next(between, step) == ExpireDue(between, items[n])
            && StateOk(Next(between, step)) && BatchSoFar(start, trace + calls + [step], Next(between, step))
            && Settled(ExpireDue(between, items[n]), items[..n + 1])
  {
    BatchHistory(start, trace, before, calls);
    BatchSettles(start, before, Run(before, calls), items, n);
    BatchRuns(start, trace, before, calls, ExpireEvent(items[n]));
  }

  /** One item of the closing batch. */
  lemma CloseStep(start: State, trace: seq<Call>, before: State, calls: seq<Call>, items: seq<nat>, n: nat)
    requires StateOk(start) && BatchSoFar(start, trace, before) && Timely(before.now, calls)
    requires n < |items| && items[n] < |start.books.purchases| && start.books.purchases[items[n]].expiresAt <= start.now
    requires Closed(before, items[..n])
    ensures var between := Run(before, calls);
            var step := Call(between.now, CloseEvent(items[n]));
            && items[n] < |between.books.purchases| && between.now == EndTime(before.now, calls)
            && Next(between, step) == CloseDue(between, items[n])
            && StateOk(Next(between, step)) && BatchSoFar(start, trace + calls + [step], Next(between, step))
            && Closed(CloseDue(between, items[n]), items[..n + 1])
  {
    BatchHistory(start, trace, before, calls);
    CloseSettles(start, before, Run(before, calls), items, n);
    BatchRuns(start, trace, before, calls, CloseEvent(items[n]));
  }

  /** The orders an expiry batch picks: those due, oldest deadline first, up to the limit. */
  function Scanned(orders: seq<P.Order>, now: int, limit: int): seq<nat> {
    Scan(ExpiryKey(orders), ExpiryWanted(orders, now), |orders|, limit)
  }

  function ExpiryKey(orders: seq<P.Order>): nat -> int {
    (i: nat) => if i < |orders| then orders[i].expiresAt else 0
  }

  function ExpiryWanted(orders: seq<P.Order>, now: int): nat -> bool {
    (i: nat) => i < |orders| && Due(orders[i], now)
  }

  /** It picks waiting orders past their deadline, each once, by deadline and id, and leaves one out only when the
      limit is reached by earlier ones. */
  lemma ScannedIs(orders: seq<P.Order>, now: int, limit: int)
    ensures var items := Scanned(orders, now, limit);
            && |items| <= BatchLimit(limit)
            && (forall j :: 0 <= j < |items| ==>
                  && items[j] < |orders|
                  && orders[items[j]].status.Pending? && orders[items[j]].expiresAt <= now)
            && (forall i, j :: 0 <= i < j < |items| ==>
                  orders[items[i]].expiresAt < orders[items[j]].expiresAt
                  || (orders[items[i]].expiresAt == orders[items[j]].expiresAt && items[i] < items[j]))
            && (forall k: nat :: k < |orders| && orders[k].status.Pending? && orders[k].expiresAt <= now && k !in items ==>
                  |items| == BatchLimit(limit)
                  && forall j :: 0 <= j < |items| ==> orders[items[j]].expiresAt <= orders[k].expiresAt)
  {
    var items := Scanned(orders, now, limit);
    var key, wanted := ExpiryKey(orders), ExpiryWanted(orders, now);
    ScanIs(key, wanted, |orders|, limit);
    forall i, j | 0 <= i < j < |items| ensures Before(key, items[i], items[j]) {
    }
    forall k: nat | k < |orders| && Due(orders[k], now) && k !in items
      ensures |items| == BatchLimit(limit)
      ensures forall j :: 0 <= j < |items| ==> orders[items[j]].expiresAt <= orders[k].expiresAt
    {
      assert wanted(k);
      forall j | 0 <= j < |items| ensures orders[items[j]].expiresAt <= orders[k].expiresAt {
        assert Before(key, items[j], k);
      }
    }
  }

  lemma StillSettled(s: State, s': State, items: seq<nat>)
    requires History(s, s') && Settled(s, items)
    ensures Settled(s', items)
  {
    forall k | 0 <= k < |items|
      ensures items[k] < |s'.pay.orders| && !s'.pay.orders[items[k]].status.Pending?
    {
      assert P.Descends(s.pay.orders[items[k]], s'.pay.orders[items[k]]);
    }
  }

  /** Pricing an order just before paying it is what paying it unpriced does. */
  lemma PricedFirst(s: State, i: nat, ch: Channel)
    requires i < |s.pay.orders| && s.pay.orders[i].channel.None? && s.pay.orders[i].actual.None?
    requires !s.pay.orders[i].EverPaid()
    ensures var o := s.pay.orders[i];
            var priced := o.(channel := Some(ch), actual := Some(o.original), offset := Some(0));
            MarkPaid(s.(pay := s.pay.(orders := s.pay.orders[i := priced])), i, ch, true) == MarkPaid(s, i, ch, true)
  {
    var o := s.pay.orders[i];
    var priced := o.(channel := Some(ch), actual := Some(o.original), offset := Some(0));
    var paid := P.PaidRow(o, ch, true, s.now);
    assert P.PaidRow(priced, ch, true, s.now) == paid;
    assert s.pay.orders[i := priced][i := paid] == s.pay.orders[i := paid];
  }

  /** Paying does not look at the recorded commands. */
  lemma CommandsAside(s: State, commands: map<CommandKey, CommandRecord>, m: int, i: nat, channel: Option<Channel>)
    requires i < |s.pay.orders|
    ensures SupplementOnce(s.(commands := commands), m, i, channel)
            == match SupplementOnce(s, m, i, channel)
               case Ok(s') => Ok(s'.(commands := commands))
               case Err(e) => Err(e)
    ensures SupplementOnce(s, m, i, channel).Ok? ==> SupplementOnce(s, m, i, channel).value.commands == s.commands
  {
  }

  /** Compares without stopping at the first difference. */
  method EqualDigest(a: string, b: string) returns (same: bool)
    ensures same <==> a == b
  {
    if |a| != |b| { return false; }
    var difference := false;
    for i := 0 to |a|
      invariant difference <==> a[..i] != b[..i]
    {
      assert a[..i + 1] == a[..i] + [a[i]] && b[..i + 1] == b[..i] + [b[i]];
      difference := difference || a[i] != b[i];
    }
    assert a[..|a|] == a && b[..|b|] == b;
    return !difference;
  }
}
