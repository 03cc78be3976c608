/** Telling a merchant that an order was paid: numbered attempts, a back-off table, reclaiming of crashed
    attempts, and replays as new generations. */
module Callback {
  import opened Base
  import opened System

  datatype OrderStatus = Unpaid | Paid | Refunded

  datatype OrderRow = OrderRow(merchant: int, subscription: bool, notify: bool, status: OrderStatus)

  datatype EventState = Pending | Running | Success | Failed | Cancelled | InternalFulfillment

  datatype EventRow = EventRow(order: nat, generation: int, state: EventState, count: nat, next: Option<int>)

  datatype AttemptRow = AttemptRow(startedAt: int, finishedAt: Option<int>, succeeded: bool, next: Option<int>) {
    predicate FailedAttempt() {
      finishedAt.Some? && !succeeded
    }
  }

  datatype Callbacks = Callbacks(
    now: int, orders: seq<OrderRow>, events: seq<EventRow>, attempts: map<(nat, nat), AttemptRow>,
    commands: map<CommandKey, CommandRecord>)

  const EMPTY := Callbacks(0, [], [], map[], map[])

  const MAX_ATTEMPTS := 10
  const RECLAIM := 2 * MINUTE
  const MAX_GENERATION := 2147483647

  /** How long after a failed attempt the next one may start; none after the last. */
  function RetryDelay(attempt: int): (d: Option<int>)
    ensures d.Some? <==> 1 <= attempt < MAX_ATTEMPTS
    ensures d.Some? ==> d.value >= MINUTE
  {
    if attempt == 1 then Some(MINUTE)
    else if attempt == 2 then Some(5 * MINUTE)
    else if attempt == 3 then Some(15 * MINUTE)
    else if attempt == 4 then Some(30 * MINUTE)
    else if attempt == 5 then Some(HOUR)
    else if attempt == 6 then Some(3 * HOUR)
    else if attempt == 7 then Some(6 * HOUR)
    else if attempt == 8 then Some(12 * HOUR)
    else if attempt == 9 then Some(24 * HOUR)
    else None
  }

  // ---------------------------------------------------------------------------
  // Claiming and finishing
  // ---------------------------------------------------------------------------

  predicate Open(state: EventState) {
    state.Pending? || state.Failed? || state.Running?
  }

  predicate Due(e: EventRow, i: nat, now: int) {
    e.order == i && Open(e.state) && (e.next.None? || e.next.value <= now)
  }

  /** The due event of the order with the highest generation. */
  function BestDue(events: seq<EventRow>, i: nat, now: int): (r: Option<nat>)
    ensures r.None? ==> forall e :: 0 <= e < |events| ==> !Due(events[e], i, now)
    ensures r.Some? ==> r.value < |events| && Due(events[r.value], i, now)
                        && forall e :: 0 <= e < |events| && Due(events[e], i, now) ==>
                             events[e].generation <= events[r.value].generation
  {
    if events == [] then None
    else
      var n := |events| - 1;
      var best := BestDue(events[..n], i, now);
      if Due(events[n], i, now) && (best.None? || events[best.value].generation < events[n].generation) then Some(n)
      else best
  }

  predicate HasAttempt(attempts: map<(nat, nat), AttemptRow>, e: nat, n: nat) {
    (e, n) in attempts
  }

  /** The row of the event with the largest attempt number, if there is any. */
  ghost predicate IsLatest(attempts: map<(nat, nat), AttemptRow>, e: nat, n: nat) {
    HasAttempt(attempts, e, n) && forall k: nat :: HasAttempt(attempts, e, k) ==> k <= n
  }

  /** An attempt that started less than two minutes ago is still someone's. */
  ghost predicate Busy(attempts: map<(nat, nat), AttemptRow>, e: nat, now: int) {
    exists n: nat :: IsLatest(attempts, e, n) && attempts[(e, n)].startedAt > now - RECLAIM
  }

  datatype Work = Work(event: nat, attempt: nat)

  function Started(s: Callbacks, e: nat): Callbacks
    requires e < |s.events|
  {
    var n := s.events[e].count + 1;
    s.(events := s.events[e := s.events[e].(state := Running, count := n, next := None)],
       attempts := s.attempts[(e, n) := AttemptRow(s.now, None, false, None)])
  }

  /** What a worker takes on for an order: nothing, or the next attempt of its newest due event. Events of
      orders no longer paid are cancelled, an event out of attempts stays failed. */
  ghost function Claim(s: Callbacks, i: nat): Result<(Callbacks, Option<Work>)> {
    if i >= |s.orders| then Err(NotFound)
    else
      match BestDue(s.events, i, s.now)
      case None => Ok((s, None))
      case Some(e) =>
        var row := s.events[e];
        if !s.orders[i].status.Paid? then Ok((s.(events := s.events[e := row.(state := Cancelled, next := None)]), None))
        else if row.state.Running? && Busy(s.attempts, e, s.now) then Ok((s, None))
        else if row.count + 1 > MAX_ATTEMPTS then Ok((s.(events := s.events[e := row.(state := Failed, next := None)]), None))
        else Ok((Started(s, e), Some(Work(e, row.count + 1))))
  }

  /** The worker of an attempt reports how it went. Only its own worker finishes an attempt, once. */
  function Finish(s: Callbacks, w: Work, succeeded: bool): Callbacks {
    if w.event >= |s.events| || (w.event, w.attempt) !in s.attempts
       || s.attempts[(w.event, w.attempt)].finishedAt.Some?
    then s
    else
      var delay := RetryDelay(w.attempt);
      var next := if !succeeded && delay.Some? then Some(s.now + delay.value) else None;
      var row := s.attempts[(w.event, w.attempt)].(finishedAt := Some(s.now), succeeded := succeeded, next := next);
      s.(attempts := s.attempts[(w.event, w.attempt) := row],
         events := s.events[w.event := s.events[w.event].(state := if succeeded then Success else Failed, next := next)])
  }

  // ---------------------------------------------------------------------------
  // Orders and replays
  // ---------------------------------------------------------------------------

  predicate FirstGeneration(events: seq<EventRow>, i: nat) {
    exists e :: 0 <= e < |events| && events[e].order == i && events[e].generation == 1
  }

  function Paying(s: Callbacks, i: nat): Callbacks {
    if i >= |s.orders| || !s.orders[i].status.Unpaid? then s
    else
      var o := s.orders[i];
      var added :=
        if FirstGeneration(s.events, i) then []
        else if o.subscription then [EventRow(i, 1, InternalFulfillment, 0, None)]
        else if o.notify then [EventRow(i, 1, Pending, 0, Some(s.now))]
        else [];
      s.(orders := s.orders[i := o.(status := Paid)], events := s.events + added)
  }

  function CancelledRow(e: EventRow, i: nat): EventRow {
    if e.order == i && (e.state.Pending? || e.state.Failed?) then e.(state := Cancelled, next := None) else e
  }

  function Refunding(s: Callbacks, i: nat): Callbacks {
    if i >= |s.orders| || !s.orders[i].status.Paid? then s
    else
      s.(orders := s.orders[i := s.orders[i].(status := Refunded)],
         events := seq(|s.events|, e requires 0 <= e < |s.events| => CancelledRow(s.events[e], i)))
  }

  /** The newest event of the order. */
  function Newest(events: seq<EventRow>, i: nat): (r: Option<nat>)
    ensures r.None? ==> forall e :: 0 <= e < |events| ==> events[e].order != i
    ensures r.Some? ==> r.value < |events| && events[r.value].order == i
                        && forall e :: 0 <= e < |events| && events[e].order == i ==>
                             events[e].generation <= events[r.value].generation
  {
    if events == [] then None
    else
      var n := |events| - 1;
      var best := Newest(events[..n], i);
      if events[n].order == i && (best.None? || events[best.value].generation < events[n].generation) then Some(n)
      else best
  }

  function ReplayNow(s: Callbacks, m: int, i: nat): Result<Callbacks> {
    if i >= |s.orders| || s.orders[i].merchant != m then Err(NotFound)
    else if s.orders[i].status.Refunded? then Err(AlreadyRefunded)
    else if !s.orders[i].status.Paid? then Err(NotPaid)
    else if s.orders[i].subscription || !s.orders[i].notify then Err(CallbackUnavailable)
    else
      match Newest(s.events, i)
      case None => Err(CallbackUnavailable)
      case Some(e) =>
        if s.events[e].state.Pending? || s.events[e].state.Running? then Err(CallbackPending)
        else if s.events[e].generation >= MAX_GENERATION then Err(VersionConflict)
        else Ok(s.(events := s.events + [EventRow(i, s.events[e].generation + 1, Pending, 0, Some(s.now))]))
  }

  /** Starts a new generation, at most once for a key. */
  function Replay(s: Callbacks, m: int, i: nat, key: string, digest: string): Result<Callbacks> {
    var command := CommandKey(m, ReplayRoute, key);
    var replayed :- Begin(s.commands, command, digest, s.now);
    if replayed then Ok(s)
    else
      var s' :- ReplayNow(s, m, i);
      Ok(s'.(commands := LiveCommands(s.commands, command, s.now)[command := CommandRecord(digest, s.now + DAY)]))
  }

  // ---------------------------------------------------------------------------
  // Runs
  // ---------------------------------------------------------------------------

  datatype Move =
    | OpenMove(o: OrderRow)
    | PayMove(i: nat)
    | RefundMove(i: nat)
    | ClaimMove(i: nat)
    | FinishMove(w: Work, succeeded: bool)
    | ReplayMove(m: int, i: nat, key: string, digest: string)

  datatype Call = Call(at: int, move: Move)

  ghost function Apply(s: Callbacks, move: Move): Callbacks {
    match move
    case OpenMove(o) => s.(orders := s.orders + [o.(status := Unpaid)])
    case PayMove(i) => Paying(s, i)
    case RefundMove(i) => Refunding(s, i)
    case ClaimMove(i) => (match Claim(s, i) case Ok(v) => v.0 case Err(_) => s)
    case FinishMove(w, succeeded) => Finish(s, w, succeeded)
    case ReplayMove(m, i, key, digest) => (match Replay(s, m, i, key, digest) case Ok(s') => s' case Err(_) => s)
  }

  ghost function Next(s: Callbacks, c: Call): Callbacks {
    Apply(s.(now := c.at), c.move)
  }

  ghost function Run(s: Callbacks, trace: seq<Call>): Callbacks {
    if trace == [] then s else Next(Run(s, trace[..|trace| - 1]), trace[|trace| - 1])
  }

  /** The clock never goes back. */
  ghost predicate Orderly(s: Callbacks, trace: seq<Call>) {
    trace == [] || (Orderly(s, trace[..|trace| - 1]) && Run(s, trace[..|trace| - 1]).now <= trace[|trace| - 1].at)
  }

  /** An attempt that finishes does so before others may reclaim it. */
  predicate FinishesInTime(s: Callbacks, c: Call) {
    c.move.FinishMove? && (c.move.w.event, c.move.w.attempt) in s.attempts
    && s.attempts[(c.move.w.event, c.move.w.attempt)].finishedAt.None? ==>
      c.at < s.attempts[(c.move.w.event, c.move.w.attempt)].startedAt + RECLAIM
  }

  ghost predicate Prompt(s: Callbacks, trace: seq<Call>) {
    trace == [] || (Prompt(s, trace[..|trace| - 1]) && FinishesInTime(Run(s, trace[..|trace| - 1]), trace[|trace| - 1]))
  }

  // ---------------------------------------------------------------------------
  // What every run keeps
  // ---------------------------------------------------------------------------

  predicate EventOk(s: Callbacks, e: nat)
    requires e < |s.events|
  {
    var row := s.events[e];
    && row.order < |s.orders| && !s.orders[row.order].status.Unpaid?
    && row.generation >= 1 && row.count <= MAX_ATTEMPTS
    && (row.state.Pending? ==> row.count == 0)
  }

  /** Later events of an order have higher generations, and only its newest event can be pending. */
  predicate Generations(events: seq<EventRow>) {
    forall e, f :: 0 <= e < f < |events| && events[e].order == events[f].order ==>
      events[e].generation < events[f].generation && !events[e].state.Pending?
  }

  predicate AttemptOk(n: nat, a: AttemptRow, now: int) {
    && a.startedAt <= now
    && match a.finishedAt
       case None => !a.succeeded && a.next.None?
       case Some(at) =>
         && a.startedAt <= at <= now
         && a.next == if a.succeeded || RetryDelay(n).None? then None else Some(at + RetryDelay(n).value)
  }

  /** The attempts of an event are numbered from one to its count. */
  ghost predicate Numbered(s: Callbacks) {
    && (forall e: nat, n: nat :: HasAttempt(s.attempts, e, n) <==> e < |s.events| && 1 <= n <= s.events[e].count)
    && (forall e: nat, n: nat :: HasAttempt(s.attempts, e, n) ==> AttemptOk(n, s.attempts[(e, n)], s.now))
  }

  ghost predicate CallbacksOk(s: Callbacks) {
    && (forall e :: 0 <= e < |s.events| ==> EventOk(s, e))
    && Generations(s.events)
    && Numbered(s)
  }

  lemma LatestIsCount(s: Callbacks, e: nat)
    requires Numbered(s) && e < |s.events|
    ensures forall n: nat :: IsLatest(s.attempts, e, n) ==> n == s.events[e].count
    ensures s.events[e].count >= 1 ==> IsLatest(s.attempts, e, s.events[e].count)
  {
    forall n: nat | IsLatest(s.attempts, e, n) ensures n == s.events[e].count {
      assert HasAttempt(s.attempts, e, n);
      assert HasAttempt(s.attempts, e, s.events[e].count);
    }
    if s.events[e].count >= 1 {
      assert HasAttempt(s.attempts, e, s.events[e].count);
    }
  }

  lemma StartedKeeps(s: Callbacks, e: nat)
    requires CallbacksOk(s) && e < |s.events| && s.events[e].count < MAX_ATTEMPTS
    ensures CallbacksOk(Started(s, e))
  {
    var s' := Started(s, e);
    forall f: nat, n: nat
      ensures HasAttempt(s'.attempts, f, n) <==> f < |s'.events| && 1 <= n <= s'.events[f].count
      ensures HasAttempt(s'.attempts, f, n) ==> AttemptOk(n, s'.attempts[(f, n)], s'.now)
    {
      assert HasAttempt(s'.attempts, f, n) <==> HasAttempt(s.attempts, f, n) || (f == e && n == s.events[e].count + 1);
      assert HasAttempt(s.attempts, f, n) ==> AttemptOk(n, s.attempts[(f, n)], s.now);
    }
    forall f | 0 <= f < |s'.events| ensures EventOk(s', f) {
      assert EventOk(s, f);
    }
  }

  /** Changing state and time of the next attempt alone. */
  lemma RowKeeps(s: Callbacks, e: nat, state: EventState, next: Option<int>)
    requires CallbacksOk(s) && e < |s.events| && !state.Pending?
    ensures CallbacksOk(s.(events := s.events[e := s.events[e].(state := state, next := next)]))
  {
    var s' := s.(events := s.events[e := s.events[e].(state := state, next := next)]);
    forall f | 0 <= f < |s'.events| ensures EventOk(s', f) {
      assert EventOk(s, f);
    }
    forall f: nat, n: nat
      ensures HasAttempt(s'.attempts, f, n) <==> f < |s'.events| && 1 <= n <= s'.events[f].count
      ensures HasAttempt(s'.attempts, f, n) ==> AttemptOk(n, s'.attempts[(f, n)], s'.now)
    {
      assert HasAttempt(s'.attempts, f, n) <==> HasAttempt(s.attempts, f, n);
    }
  }

  lemma ClaimKeeps(s: Callbacks, i: nat)
    requires CallbacksOk(s) && Claim(s, i).Ok?
    ensures CallbacksOk(Claim(s, i).value.0)
  {
    match BestDue(s.events, i, s.now) {
      case None =>
      case Some(e) =>
        assert EventOk(s, e);
        RowKeeps(s, e, Cancelled, None);
        RowKeeps(s, e, Failed, None);
        if s.events[e].count < MAX_ATTEMPTS { StartedKeeps(s, e); }
    }
  }

  lemma FinishKeeps(s: Callbacks, w: Work, succeeded: bool)
    requires CallbacksOk(s)
    ensures CallbacksOk(Finish(s, w, succeeded))
  {
    var s' := Finish(s, w, succeeded);
    if s' != s {
      var row := s'.attempts[(w.event, w.attempt)];
      var s1 := s.(attempts := s.attempts[(w.event, w.attempt) := row]);
      assert HasAttempt(s.attempts, w.event, w.attempt);
      forall f: nat, n: nat
        ensures HasAttempt(s1.attempts, f, n) <==> f < |s1.events| && 1 <= n <= s1.events[f].count
        ensures HasAttempt(s1.attempts, f, n) ==> AttemptOk(n, s1.attempts[(f, n)], s1.now)
      {
        assert HasAttempt(s1.attempts, f, n) <==> HasAttempt(s.attempts, f, n);
        assert HasAttempt(s.attempts, f, n) ==> AttemptOk(n, s.attempts[(f, n)], s.now);
      }
      forall f | 0 <= f < |s1.events| ensures EventOk(s1, f) {
        assert EventOk(s, f);
      }
      RowKeeps(s1, w.event, s'.events[w.event].state, row.next);
    }
  }

  /** A new event, newer than all others of its order. */
  lemma EventAdded(s: Callbacks, row: EventRow)
    requires CallbacksOk(s) && row.order < |s.orders| && !s.orders[row.order].status.Unpaid?
    requires row.generation >= 1 && row.count == 0
    requires forall e :: 0 <= e < |s.events| && s.events[e].order == row.order ==>
               s.events[e].generation < row.generation && !s.events[e].state.Pending?
    ensures CallbacksOk(s.(events := s.events + [row]))
  {
    var s' := s.(events := s.events + [row]);
    forall f | 0 <= f < |s'.events| ensures EventOk(s', f) {
      assert f < |s.events| ==> EventOk(s, f);
    }
    forall f: nat, n: nat
      ensures HasAttempt(s'.attempts, f, n) <==> f < |s'.events| && 1 <= n <= s'.events[f].count
      ensures HasAttempt(s'.attempts, f, n) ==> AttemptOk(n, s'.attempts[(f, n)], s'.now)
    {
      assert HasAttempt(s'.attempts, f, n) <==> HasAttempt(s.attempts, f, n);
    }
  }

  lemma OrdersKeep(s: Callbacks, orders: seq<OrderRow>)
    requires CallbacksOk(s) && |s.orders| <= |orders|
    requires forall i :: 0 <= i < |s.orders| && !s.orders[i].status.Unpaid? ==> !orders[i].status.Unpaid?
    ensures CallbacksOk(s.(orders := orders))
  {
    var s' := s.(orders := orders);
    forall f | 0 <= f < |s'.events| ensures EventOk(s', f) {
      assert EventOk(s, f);
    }
    assert Numbered(s') by {
      forall f: nat, n: nat
        ensures HasAttempt(s'.attempts, f, n) <==> f < |s'.events| && 1 <= n <= s'.events[f].count
        ensures HasAttempt(s'.attempts, f, n) ==> AttemptOk(n, s'.attempts[(f, n)], s'.now)
      {
        assert HasAttempt(s'.attempts, f, n) <==> HasAttempt(s.attempts, f, n);
      }
    }
  }

  lemma PayingKeeps(s: Callbacks, i: nat)
    requires CallbacksOk(s)
    ensures CallbacksOk(Paying(s, i))
  {
    if i < |s.orders| && s.orders[i].status.Unpaid? {
      forall e | 0 <= e < |s.events| ensures s.events[e].order != i {
        assert EventOk(s, e);
      }
      var s1 := s.(orders := s.orders[i := s.orders[i].(status := Paid)]);
      OrdersKeep(s, s1.orders);
      if s.orders[i].subscription {
        EventAdded(s1, EventRow(i, 1, InternalFulfillment, 0, None));
      } else if s.orders[i].notify {
        EventAdded(s1, EventRow(i, 1, Pending, 0, Some(s.now)));
      } else {
        assert s.events + [] == s.events;
      }
    }
  }

  lemma RefundingKeeps(s: Callbacks, i: nat)
    requires CallbacksOk(s)
    ensures CallbacksOk(Refunding(s, i))
  {
    var s' := Refunding(s, i);
    if i < |s.orders| && s.orders[i].status.Paid? {
      forall e | 0 <= e < |s'.events| ensures EventOk(s', e) {
        assert EventOk(s, e) && s'.events[e] == CancelledRow(s.events[e], i);
      }
      forall e, f | 0 <= e < f < |s'.events| && s'.events[e].order == s'.events[f].order
        ensures s'.events[e].generation < s'.events[f].generation && !s'.events[e].state.Pending?
      {
        assert s'.events[e] == CancelledRow(s.events[e], i) && s'.events[f] == CancelledRow(s.events[f], i);
      }
      forall e: nat, n: nat
        ensures HasAttempt(s'.attempts, e, n) <==> e < |s'.events| && 1 <= n <= s'.events[e].count
        ensures HasAttempt(s'.attempts, e, n) ==> AttemptOk(n, s'.attempts[(e, n)], s'.now)
      {
        assert HasAttempt(s'.attempts, e, n) <==> HasAttempt(s.attempts, e, n);
        assert e < |s.events| ==> s'.events[e] == CancelledRow(s.events[e], i);
      }
    }
  }

  lemma ReplayKeeps(s: Callbacks, m: int, i: nat)
    requires CallbacksOk(s) && ReplayNow(s, m, i).Ok?
    ensures CallbacksOk(ReplayNow(s, m, i).value)
  {
    var e := Newest(s.events, i).value;
    assert EventOk(s, e);
    forall f | 0 <= f < |s.events| && s.events[f].order == i
      ensures s.events[f].generation <= s.events[e].generation && !s.events[f].state.Pending?
    {
      if f < e {
        assert !s.events[f].state.Pending?;
      }
    }
    EventAdded(s, EventRow(i, s.events[e].generation + 1, Pending, 0, Some(s.now)));
  }

  lemma CommandsKeep(s: Callbacks, commands: map<CommandKey, CommandRecord>)
    requires CallbacksOk(s)
    ensures CallbacksOk(s.(commands := commands))
  {
    var s' := s.(commands := commands);
    forall e | 0 <= e < |s'.events| ensures EventOk(s', e) {
      assert EventOk(s, e);
    }
    assert Numbered(s');
  }

  lemma TickKeeps(s: Callbacks, at: int)
    requires CallbacksOk(s) && s.now <= at
    ensures CallbacksOk(s.(now := at))
  {
    var s' := s.(now := at);
    forall e | 0 <= e < |s'.events| ensures EventOk(s', e) {
      assert EventOk(s, e);
    }
    forall e: nat, n: nat | HasAttempt(s'.attempts, e, n) ensures AttemptOk(n, s'.attempts[(e, n)], s'.now) {
      assert HasAttempt(s.attempts, e, n);
    }
  }

  lemma NextKeeps(s: Callbacks, c: Call)
    requires CallbacksOk(s) && s.now <= c.at
    ensures CallbacksOk(Next(s, c)) && Next(s, c).now == c.at
  {
    hide CallbacksOk;
    var s0 := s.(now := c.at);
    TickKeeps(s, c.at);
    match c.move {
      case OpenMove(o) => OrdersKeep(s0, s0.orders + [o.(status := Unpaid)]);
      case PayMove(i) => PayingKeeps(s0, i);
      case RefundMove(i) => RefundingKeeps(s0, i);
      case ClaimMove(i) => if Claim(s0, i).Ok? { ClaimKeeps(s0, i); }
      case FinishMove(w, succeeded) => FinishKeeps(s0, w, succeeded);
      case ReplayMove(m, i, key, digest) =>
        if Replay(s0, m, i, key, digest).Ok? && ReplayNow(s0, m, i).Ok? {
          ReplayKeeps(s0, m, i);
          CommandsKeep(ReplayNow(s0, m, i).value, Replay(s0, m, i, key, digest).value.commands);
        }
    }
  }

  lemma {:induction false} RunKeeps(s: Callbacks, trace: seq<Call>)
    requires CallbacksOk(s) && Orderly(s, trace)
    ensures CallbacksOk(Run(s, trace)) && s.now <= Run(s, trace).now
  {
    if trace != [] {
      RunKeeps(s, trace[..|trace| - 1]);
      NextKeeps(Run(s, trace[..|trace| - 1]), trace[|trace| - 1]);
    }
  }

  // ---------------------------------------------------------------------------
  // What every prompt run keeps
  // ---------------------------------------------------------------------------

  /** An attempt without a result is past the time in which it could still finish. */
  predicate Lapsed(a: AttemptRow, now: int) {
    a.finishedAt.None? ==> a.startedAt + RECLAIM <= now
  }

  ghost predicate AttemptScheduled(s: Callbacks, e: nat, n: nat)
    requires e < |s.events| && HasAttempt(s.attempts, e, n)
  {
    var a, row := s.attempts[(e, n)], s.events[e];
    && (n < row.count || row.state.Failed? || row.state.Success? ==> Lapsed(a, s.now))
    && (n < row.count ==> !a.succeeded)
    && (n < row.count && a.finishedAt.Some? && HasAttempt(s.attempts, e, n + 1) ==>
          a.next.Some? && a.next.value <= s.attempts[(e, n + 1)].startedAt)
    && (n == row.count ==>
          match row.state
          case Running => a.finishedAt.None? && row.next.None?
          case Success => a.succeeded
          case Failed =>
            || (a.FailedAttempt() && row.next == a.next)
            || (a.finishedAt.None? && row.next.None? && row.count == MAX_ATTEMPTS)
          case _ => true)
  }

  ghost predicate EventScheduled(s: Callbacks, e: nat)
    requires e < |s.events|
  {
    && (s.events[e].state.Running? || s.events[e].state.Success? || s.events[e].state.Failed? ==> s.events[e].count >= 1)
    && (forall n: nat :: HasAttempt(s.attempts, e, n) ==> AttemptScheduled(s, e, n))
  }

  ghost predicate Scheduled(s: Callbacks) {
    forall e :: 0 <= e < |s.events| ==> EventScheduled(s, e)
  }

  ghost predicate SameAttempts(attempts: map<(nat, nat), AttemptRow>, attempts': map<(nat, nat), AttemptRow>, e: nat) {
    forall n: nat :: (HasAttempt(attempts', e, n) <==> HasAttempt(attempts, e, n))
                     && (HasAttempt(attempts, e, n) && HasAttempt(attempts', e, n) ==> attempts'[(e, n)] == attempts[(e, n)])
  }

  /** What does not touch an event leaves it scheduled. */
  lemma StillScheduled(s: Callbacks, s': Callbacks, e: nat)
    requires e < |s.events| && e < |s'.events| && EventScheduled(s, e)
    requires s'.events[e] == s.events[e] && s.now <= s'.now
    requires SameAttempts(s.attempts, s'.attempts, e)
    ensures EventScheduled(s', e)
  {
    forall n: nat | HasAttempt(s'.attempts, e, n) ensures AttemptScheduled(s', e, n) {
      assert AttemptScheduled(s, e, n);
    }
  }

  lemma StartedScheduled(s: Callbacks, e: nat)
    requires CallbacksOk(s) && Scheduled(s) && e < |s.events| && s.events[e].count < MAX_ATTEMPTS
    requires Open(s.events[e].state) && (s.events[e].next.None? || s.events[e].next.value <= s.now)
    requires s.events[e].state.Running? ==> !Busy(s.attempts, e, s.now)
    ensures EventScheduled(Started(s, e), e)
  {
    var s' := Started(s, e);
    var c := s.events[e].count;
    LatestIsCount(s, e);
    assert EventOk(s, e) && EventScheduled(s, e);
    forall n: nat | HasAttempt(s'.attempts, e, n) ensures AttemptScheduled(s', e, n) {
      if n <= c {
        assert HasAttempt(s.attempts, e, n) && AttemptScheduled(s, e, n) && AttemptOk(n, s.attempts[(e, n)], s.now);
        assert n < c ==> HasAttempt(s.attempts, e, n + 1);
      }
    }
  }

  lemma FinishedScheduled(s: Callbacks, w: Work, succeeded: bool)
    requires CallbacksOk(s) && Scheduled(s) && w.event < |s.events| && HasAttempt(s.attempts, w.event, w.attempt)
    requires s.attempts[(w.event, w.attempt)].finishedAt.None?
    requires s.now < s.attempts[(w.event, w.attempt)].startedAt + RECLAIM
    ensures EventScheduled(Finish(s, w, succeeded), w.event)
    ensures w.attempt == s.events[w.event].count && !s.events[w.event].state.Success?
  {
    var s' := Finish(s, w, succeeded);
    var e, c := w.event, s.events[w.event].count;
    assert EventScheduled(s, e) && AttemptScheduled(s, e, w.attempt);
    forall n: nat | HasAttempt(s'.attempts, e, n) ensures AttemptScheduled(s', e, n) {
      assert HasAttempt(s.attempts, e, n) && AttemptScheduled(s, e, n) && AttemptOk(n, s.attempts[(e, n)], s.now);
    }
  }

  lemma ClaimScheduled(s: Callbacks, i: nat)
    requires CallbacksOk(s) && Scheduled(s) && Claim(s, i).Ok?
    ensures Scheduled(Claim(s, i).value.0)
  {
    var s' := Claim(s, i).value.0;
    var best := BestDue(s.events, i, s.now);
    forall e | 0 <= e < |s'.events| ensures EventScheduled(s', e) {
      assert EventScheduled(s, e) && EventOk(s, e);
      if best != Some(e) {
        StillScheduled(s, s', e);
      } else if s'.events[e].state.Running? && s' != s {
        StartedScheduled(s, e);
      } else {
        LatestIsCount(s, e);
        forall n: nat | HasAttempt(s'.attempts, e, n) ensures AttemptScheduled(s', e, n) {
          assert HasAttempt(s.attempts, e, n) && AttemptScheduled(s, e, n) && AttemptOk(n, s.attempts[(e, n)], s.now);
        }
      }
    }
  }

  lemma FinishScheduled(s: Callbacks, w: Work, succeeded: bool)
    requires CallbacksOk(s) && Scheduled(s)
    requires HasAttempt(s.attempts, w.event, w.attempt) && s.attempts[(w.event, w.attempt)].finishedAt.None? ==>
               s.now < s.attempts[(w.event, w.attempt)].startedAt + RECLAIM
    ensures Scheduled(Finish(s, w, succeeded))
  {
    var s' := Finish(s, w, succeeded);
    forall e | 0 <= e < |s'.events| ensures EventScheduled(s', e) {
      assert EventScheduled(s, e);
      if s' == s || e != w.event {
        StillScheduled(s, s', e);
      } else {
        FinishedScheduled(s, w, succeeded);
      }
    }
  }

  lemma RefundingScheduled(s: Callbacks, i: nat)
    requires CallbacksOk(s) && Scheduled(s)
    ensures Scheduled(Refunding(s, i))
  {
    var s' := Refunding(s, i);
    if i < |s.orders| && s.orders[i].status.Paid? {
      forall e | 0 <= e < |s'.events| ensures EventScheduled(s', e) {
        assert EventScheduled(s, e) && s'.events[e] == CancelledRow(s.events[e], i);
        forall n: nat | HasAttempt(s'.attempts, e, n) ensures AttemptScheduled(s', e, n) {
          assert HasAttempt(s.attempts, e, n) && AttemptScheduled(s, e, n);
        }
      }
    }
  }

  /** Moves that add events or change orders and records alone. */
  lemma AddingScheduled(s: Callbacks, s': Callbacks)
    requires CallbacksOk(s) && CallbacksOk(s') && Scheduled(s)
    requires s.events <= s'.events && s'.attempts == s.attempts && s.now <= s'.now
    requires forall e :: |s.events| <= e < |s'.events| ==>
               s'.events[e].count == 0 && (s'.events[e].state.Pending? || s'.events[e].state.InternalFulfillment?)
    ensures Scheduled(s')
  {
    forall e | 0 <= e < |s'.events| ensures EventScheduled(s', e) {
      if e < |s.events| {
        StillScheduled(s, s', e);
      } else {
        assert forall n: nat :: HasAttempt(s'.attempts, e, n) ==> 1 <= n <= s'.events[e].count;
      }
    }
  }

  lemma NextScheduled(s: Callbacks, c: Call)
    requires CallbacksOk(s) && Scheduled(s) && s.now <= c.at && FinishesInTime(s, c)
    ensures Scheduled(Next(s, c))
  {
    var s0 := s.(now := c.at);
    TickKeeps(s, c.at);
    AddingScheduled(s, s0);
    NextKeeps(s, c);
    match c.move {
      case ClaimMove(i) => if Claim(s0, i).Ok? { ClaimScheduled(s0, i); }
      case FinishMove(w, succeeded) => FinishScheduled(s0, w, succeeded);
      case RefundMove(i) => RefundingScheduled(s0, i);
      case _ => AddingScheduled(s0, Next(s, c));
    }
  }

  lemma {:induction false} RunScheduled(s: Callbacks, trace: seq<Call>)
    requires CallbacksOk(s) && Scheduled(s) && Orderly(s, trace) && Prompt(s, trace)
    ensures Scheduled(Run(s, trace))
  {
    if trace != [] {
      RunKeeps(s, trace[..|trace| - 1]);
      RunScheduled(s, trace[..|trace| - 1]);
      NextScheduled(Run(s, trace[..|trace| - 1]), trace[|trace| - 1]);
    }
  }

  ghost predicate Reachable(s: Callbacks) {
    exists trace :: Orderly(EMPTY, trace) && Run(EMPTY, trace) == s
  }

  ghost predicate PromptlyReachable(s: Callbacks) {
    exists trace :: Orderly(EMPTY, trace) && Prompt(EMPTY, trace) && Run(EMPTY, trace) == s
  }

  lemma ReachableOk(s: Callbacks)
    requires Reachable(s)
    ensures CallbacksOk(s)
  {
    var trace :| Orderly(EMPTY, trace) && Run(EMPTY, trace) == s;
    RunKeeps(EMPTY, trace);
  }

  lemma PromptlyReachableOk(s: Callbacks)
    requires PromptlyReachable(s)
    ensures CallbacksOk(s) && Scheduled(s)
  {
    var trace :| Orderly(EMPTY, trace) && Prompt(EMPTY, trace) && Run(EMPTY, trace) == s;
    RunKeeps(EMPTY, trace);
    RunScheduled(EMPTY, trace);
  }

  // ---------------------------------------------------------------------------
  // Attempts
  // ---------------------------------------------------------------------------

  /** The attempts of a generation are numbered 1..n, n being its attempt count, which never passes ten. */
  lemma AttemptsAreNumbered(s: Callbacks, e: nat, n: nat)
    requires Reachable(s) && e < |s.events|
    ensures HasAttempt(s.attempts, e, n) <==> 1 <= n <= s.events[e].count
    ensures s.events[e].count <= 10
  {
    ReachableOk(s);
    assert EventOk(s, e);
  }

  /** A failed attempt is followed no sooner than its delay. */
  lemma BacksOff(s: Callbacks, e: nat, n: nat)
    requires PromptlyReachable(s) && e < |s.events| && 1 <= n < s.events[e].count
    ensures HasAttempt(s.attempts, e, n) && HasAttempt(s.attempts, e, n + 1)
    ensures var a := s.attempts[(e, n)];
            a.finishedAt.Some? ==>
              && a.FailedAttempt() && RetryDelay(n).Some?
              && a.finishedAt.value + RetryDelay(n).value <= s.attempts[(e, n + 1)].startedAt
  {
    PromptlyReachableOk(s);
    assert EventOk(s, e) && EventScheduled(s, e);
    assert HasAttempt(s.attempts, e, n) && HasAttempt(s.attempts, e, n + 1);
    assert AttemptScheduled(s, e, n) && AttemptOk(n, s.attempts[(e, n)], s.now);
  }

  /** The time the table puts between the first `n` attempts. */
  function DelaysUpTo(n: nat): int
    requires n <= 9
  {
    if n == 0 then 0 else DelaysUpTo(n - 1) + RetryDelay(n).value
  }

  /** The first `n` attempts came to a result. */
  ghost predicate Resulted(s: Callbacks, e: nat, n: nat) {
    forall k: nat :: 1 <= k <= n ==> HasAttempt(s.attempts, e, k) && s.attempts[(e, k)].finishedAt.Some?
  }

  /** An attempt does not end before it starts. */
  lemma ResultIsLater(s: Callbacks, e: nat, n: nat)
    requires PromptlyReachable(s) && HasAttempt(s.attempts, e, n) && s.attempts[(e, n)].finishedAt.Some?
    ensures s.attempts[(e, n)].startedAt <= s.attempts[(e, n)].finishedAt.value
  {
    PromptlyReachableOk(s);
    assert AttemptOk(n, s.attempts[(e, n)], s.now);
  }

  lemma {:induction false} AttemptIsLate(s: Callbacks, e: nat, n: nat)
    requires PromptlyReachable(s) && e < |s.events| && 1 <= n < s.events[e].count <= 10 && Resulted(s, e, n)
    ensures HasAttempt(s.attempts, e, 1) && HasAttempt(s.attempts, e, n + 1)
    ensures s.attempts[(e, 1)].finishedAt.value + DelaysUpTo(n) <= s.attempts[(e, n + 1)].startedAt
  {
    assert HasAttempt(s.attempts, e, 1);
    BacksOff(s, e, n);
    if n > 1 {
      AttemptIsLate(s, e, n - 1);
      ResultIsLater(s, e, n);
    }
  }

  /** When the nine attempts before it all came to a result, the tenth starts at least 2811 minutes after
      the first one's. */
  lemma TenthAttempt(s: Callbacks, e: nat)
    requires PromptlyReachable(s) && e < |s.events| && s.events[e].count == 10 && Resulted(s, e, 9)
    ensures HasAttempt(s.attempts, e, 1) && HasAttempt(s.attempts, e, 10)
    ensures s.attempts[(e, 1)].finishedAt.value + 2811 * MINUTE <= s.attempts[(e, 10)].startedAt
  {
    AttemptIsLate(s, e, 9);
    assert DelaysUpTo(3) == 21 * MINUTE;
    assert DelaysUpTo(6) == 291 * MINUTE;
    assert DelaysUpTo(9) == 2811 * MINUTE;
  }

  // ---------------------------------------------------------------------------
  // Success is final
  // ---------------------------------------------------------------------------

  /** The event and its attempts, as they are stored. */
  ghost predicate SameEvent(s: Callbacks, s': Callbacks, e: nat) {
    e < |s.events| && e < |s'.events| && s'.events[e] == s.events[e] && SameAttempts(s.attempts, s'.attempts, e)
  }

  lemma SuccessStays(s: Callbacks, c: Call, e: nat)
    requires CallbacksOk(s) && Scheduled(s) && s.now <= c.at && FinishesInTime(s, c)
    requires e < |s.events| && s.events[e].state.Success?
    ensures SameEvent(s, Next(s, c), e)
  {
    var s0 := s.(now := c.at);
    match c.move {
      case FinishMove(w, succeeded) =>
        if w.event == e && Finish(s0, w, succeeded) != s0 {
          TickKeeps(s, c.at);
          AddingScheduled(s, s0);
          assert HasAttempt(s0.attempts, w.event, w.attempt);
          FinishedScheduled(s0, w, succeeded);
        }
      case RefundMove(i) =>
        if i < |s.orders| && s.orders[i].status.Paid? {
          assert Next(s, c).events[e] == CancelledRow(s.events[e], i);
        }
      case _ =>
    }
  }

  /** As long as attempts finish before they can be reclaimed, a confirmed callback stays confirmed and its
      attempts stay as they are. */
  lemma {:induction false} SuccessIsFinal(s: Callbacks, trace: seq<Call>, e: nat)
    requires PromptlyReachable(s) && Orderly(s, trace) && Prompt(s, trace)
    requires e < |s.events| && s.events[e].state.Success?
    ensures SameEvent(s, Run(s, trace), e)
  {
    if trace != [] {
      var front := trace[..|trace| - 1];
      SuccessIsFinal(s, front, e);
      PromptlyReachableOk(s);
      RunKeeps(s, front);
      RunScheduled(s, front);
      SuccessStays(Run(s, front), trace[|trace| - 1], e);
    }
  }

  /** No attempt of the event is still waiting for a result. */
  ghost predicate NothingOutstanding(s: Callbacks, e: nat) {
    forall n: nat :: HasAttempt(s.attempts, e, n) ==> s.attempts[(e, n)].finishedAt.Some?
  }

  lemma SettledStays(s: Callbacks, c: Call, e: nat)
    requires e < |s.events| && s.events[e].state.Success? && NothingOutstanding(s, e)
    ensures e < |Next(s, c).events| && Next(s, c).events[e] == s.events[e] && NothingOutstanding(Next(s, c), e)
  {
    var s' := Next(s, c);
    match c.move {
      case FinishMove(w, succeeded) =>
        if w.event == e && Finish(s.(now := c.at), w, succeeded) != s.(now := c.at) {
          assert HasAttempt(s.attempts, e, w.attempt);
        }
      case RefundMove(i) =>
        if i < |s.orders| && s.orders[i].status.Paid? {
          assert s'.events[e] == CancelledRow(s.events[e], i);
        }
      case _ =>
    }
    forall n: nat | HasAttempt(s'.attempts, e, n) ensures s'.attempts[(e, n)].finishedAt.Some? {
      assert HasAttempt(s.attempts, e, n);
    }
  }

  lemma {:induction false} SettledOutlivesRun(s: Callbacks, trace: seq<Call>, e: nat)
    requires e < |s.events| && s.events[e].state.Success? && NothingOutstanding(s, e)
    ensures var s' := Run(s, trace); e < |s'.events| && s'.events[e] == s.events[e] && NothingOutstanding(s', e)
  {
    if trace != [] {
      SettledOutlivesRun(s, trace[..|trace| - 1], e);
      SettledStays(Run(s, trace[..|trace| - 1]), trace[|trace| - 1], e);
    }
  }

  ghost predicate StaysConfirmed(s: Callbacks, trace: seq<Call>, e: nat) {
    e < |Run(s, trace).events| && Run(s, trace).events[e].state.Success?
  }

  lemma LateFailure(s: Callbacks, e: nat, n: nat)
    requires e < |s.events| && HasAttempt(s.attempts, e, n) && s.attempts[(e, n)].finishedAt.None?
    ensures var trace := [Call(s.now, FinishMove(Work(e, n), false))];
            Orderly(s, trace) && !StaysConfirmed(s, trace, e)
  {
    var c := Call(s.now, FinishMove(Work(e, n), false));
    assert [c][..0] == [] && Run(s, [c]) == Next(Run(s, []), c);
  }

  /** A confirmed callback stays confirmed over every run, prompt or not, exactly when none of its attempts
      is still waiting for a result; else that attempt's late failure undoes it. */
  lemma ConfirmedForGood(s: Callbacks, e: nat)
    requires e < |s.events| && s.events[e].state.Success?
    ensures (forall trace :: Orderly(s, trace) ==> StaysConfirmed(s, trace, e)) <==> NothingOutstanding(s, e)
  {
    if NothingOutstanding(s, e) {
      forall trace | Orderly(s, trace) ensures StaysConfirmed(s, trace, e) {
        SettledOutlivesRun(s, trace, e);
      }
    } else {
      var n: nat :| HasAttempt(s.attempts, e, n) && s.attempts[(e, n)].finishedAt.None?;
      LateFailure(s, e, n);
    }
  }

  /** One late failure undoes a confirmed callback exactly when its worker had not reported before. */
  lemma LateFailureUndoesSuccess(s: Callbacks, w: Work)
    requires w.event < |s.events| && s.events[w.event].state.Success?
    ensures Finish(s, w, false).events[w.event].state.Success?
            <==> !(HasAttempt(s.attempts, w.event, w.attempt) && s.attempts[(w.event, w.attempt)].finishedAt.None?)
  {
  }

  lemma ReachableNext(s: Callbacks, c: Call)
    requires Reachable(s) && s.now <= c.at
    ensures Reachable(Next(s, c))
  {
    var trace :| Orderly(EMPTY, trace) && Run(EMPTY, trace) == s;
    assert (trace + [c])[..|trace|] == trace;
    assert Orderly(EMPTY, trace + [c]) && Run(EMPTY, trace + [c]) == Next(s, c);
  }

  /** One merchant order whose callback was started at 0 and, the first worker hanging, again after the
      two minutes. */
  ghost function Hung(now: int, started: nat): Callbacks {
    Callbacks(now, [OrderRow(1, false, true, Paid)],
              [EventRow(0, 1, if started == 0 then Pending else Running, started, if started == 0 then Some(0) else None)],
              map k: (nat, nat) | k in {(0, 1), (0, 2)} && k.1 <= started ::
                AttemptRow(if k.1 == 1 then 0 else RECLAIM, None, false, None),
              map[])
  }

  lemma HungClaim(now: int, started: nat)
    requires started <= 1 && now == started * RECLAIM
    ensures Apply(Hung(now, started), ClaimMove(0)) == Hung(now, started + 1)
  {
    var s := Hung(now, started);
    assert Due(s.events[0], 0, now);
    assert s.events[..0] == [] && BestDue(s.events, 0, now) == Some(0);
    assert !Busy(s.attempts, 0, now);
    assert Started(s, 0).attempts == Hung(now, started + 1).attempts;
    assert Started(s, 0).events == Hung(now, started + 1).events;
  }

  lemma HungPaid()
    ensures Reachable(Hung(0, 0))
  {
    assert Orderly(EMPTY, []) && Run(EMPTY, []) == EMPTY;
    var o := OrderRow(1, false, true, Unpaid);
    ReachableNext(EMPTY, Call(0, OpenMove(o)));
    var s1 := Next(EMPTY, Call(0, OpenMove(o)));
    assert s1 == EMPTY.(orders := [o]);
    ReachableNext(s1, Call(0, PayMove(0)));
    assert Next(s1, Call(0, PayMove(0))) == Hung(0, 0);
  }

  lemma HungReached()
    ensures Reachable(Hung(RECLAIM, 2))
  {
    hide CallbacksOk, Apply;
    HungPaid();
    HungClaim(0, 0);
    HungClaim(RECLAIM, 1);
    ReachableNext(Hung(0, 0), Call(0, ClaimMove(0)));
    assert Hung(0, 0).(now := 0) == Hung(0, 0);
    ReachableNext(Hung(0, 1), Call(RECLAIM, ClaimMove(0)));
    assert Hung(0, 1).(now := RECLAIM) == Hung(RECLAIM, 1);
  }

  /** Such a state is reached when a worker hangs past the two minutes: the attempt that takes over succeeds,
      then the first one reports its failure. */
  lemma HungWorker() returns (s: Callbacks, w: Work)
    ensures Reachable(s) && w.event < |s.events| && s.events[w.event].state.Success?
    ensures Finish(s, w, false).events[w.event].state.Failed?
  {
    HungReached();
    var c := Call(RECLAIM, FinishMove(Work(0, 2), true));
    ReachableNext(Hung(RECLAIM, 2), c);
    s, w := Next(Hung(RECLAIM, 2), c), Work(0, 1);
    assert (0, 2) in Hung(RECLAIM, 2).attempts && (0, 1) in Hung(RECLAIM, 2).attempts;
  }

  // ---------------------------------------------------------------------------
  // Refunds
  // ---------------------------------------------------------------------------

  /** An event belongs to its order for good, and no attempt is added to one of order `i`. */
  predicate SameGeneration(i: nat, row: EventRow, row': EventRow) {
    row'.order == row.order && (row.order == i ==> row'.count == row.count)
  }

  /** What a refunded order can still see happen to its events. */
  ghost predicate RefundedKept(s: Callbacks, s': Callbacks, i: nat) {
    && i < |s'.orders| && s'.orders[i].status.Refunded?
    && |s.events| <= |s'.events|
    && (forall e :: 0 <= e < |s.events| ==> SameGeneration(i, s.events[e], s'.events[e]))
    && (forall e :: |s.events| <= e < |s'.events| ==> s'.events[e].order != i)
  }

  lemma RefundedStays(s: Callbacks, c: Call, i: nat)
    requires i < |s.orders| && s.orders[i].status.Refunded?
    ensures RefundedKept(s, Next(s, c), i)
  {
    hide Claim, Refunding;
    var s0 := s.(now := c.at);
    match c.move {
      case RefundMove(k) => OtherRefunded(s0, k, i);
      case ClaimMove(k) => OtherClaimed(s0, k, i);
      case _ =>
    }
  }

  lemma OtherRefunded(s: Callbacks, k: nat, i: nat)
    requires i < |s.orders| && s.orders[i].status.Refunded?
    ensures RefundedKept(s, Refunding(s, k), i)
  {
    if k < |s.orders| && s.orders[k].status.Paid? {
      forall e | 0 <= e < |s.events| ensures SameGeneration(i, s.events[e], Refunding(s, k).events[e]) {
        assert Refunding(s, k).events[e] == CancelledRow(s.events[e], k);
      }
    }
  }

  lemma OtherClaimed(s: Callbacks, k: nat, i: nat)
    requires i < |s.orders| && s.orders[i].status.Refunded?
    ensures RefundedKept(s, Apply(s, ClaimMove(k)), i)
  {
  }

  /** Once an order is refunded, no attempt of any of its generations starts any more, prompt or not. */
  lemma {:induction false} NoAttemptAfterRefund(s: Callbacks, trace: seq<Call>, i: nat)
    requires Reachable(s) && Orderly(s, trace) && i < |s.orders| && s.orders[i].status.Refunded?
    ensures var s' := Run(s, trace);
            && i < |s'.orders| && s'.orders[i].status.Refunded? && |s.events| <= |s'.events|
            && (forall e :: 0 <= e < |s'.events| && s'.events[e].order == i ==> e < |s.events|)
            && (forall e :: 0 <= e < |s.events| && s.events[e].order == i ==> s'.events[e].order == i)
            && (forall e: nat, n: nat :: e < |s.events| && s.events[e].order == i ==>
                  (HasAttempt(s'.attempts, e, n) <==> HasAttempt(s.attempts, e, n)))
  {
    ReachableOk(s);
    RunKeeps(s, trace);
    RefundedRun(s, trace, i);
  }

  lemma {:induction false} RefundedRun(s: Callbacks, trace: seq<Call>, i: nat)
    requires i < |s.orders| && s.orders[i].status.Refunded?
    ensures var s' := Run(s, trace);
            && i < |s'.orders| && s'.orders[i].status.Refunded? && |s.events| <= |s'.events|
            && (forall e :: 0 <= e < |s'.events| && s'.events[e].order == i ==> e < |s.events|)
            && (forall e :: 0 <= e < |s.events| && s.events[e].order == i ==>
                  s'.events[e].order == i && s'.events[e].count == s.events[e].count)
  {
    hide Next;
    if trace != [] {
      RefundedRun(s, trace[..|trace| - 1], i);
      RefundedStays(Run(s, trace[..|trace| - 1]), trace[|trace| - 1], i);
    }
  }

  // ---------------------------------------------------------------------------
  // Replays
  // ---------------------------------------------------------------------------

  /** Of the generations of an order only the newest can be waiting for its first attempt, and a replay adds
      one only when the newest is neither waiting nor running. */
  lemma OnePending(s: Callbacks, e: nat, f: nat)
    requires Reachable(s) && e < |s.events| && f < |s.events| && s.events[e].order == s.events[f].order
    ensures s.events[e].state.Pending? ==> s.events[f].generation <= s.events[e].generation
    ensures s.events[e].generation == s.events[f].generation ==> e == f
  {
    ReachableOk(s);
  }

  lemma CommandKept(s: Callbacks, c: Call, key: CommandKey)
    requires key in s.commands && c.at < s.commands[key].expiresAt
    ensures key in Next(s, c).commands && Next(s, c).commands[key] == s.commands[key]
  {
  }

  lemma {:induction false} CommandOutlivesRun(s: Callbacks, trace: seq<Call>, key: CommandKey)
    requires key in s.commands && forall n :: 0 <= n < |trace| ==> trace[n].at < s.commands[key].expiresAt
    ensures key in Run(s, trace).commands && Run(s, trace).commands[key] == s.commands[key]
  {
    if trace != [] {
      CommandOutlivesRun(s, trace[..|trace| - 1], key);
      CommandKept(Run(s, trace[..|trace| - 1]), trace[|trace| - 1], key);
    }
  }

  lemma ReplayRecorded(s: Callbacks, m: int, i: nat, key: string, digest: string)
    requires Replay(s, m, i, key, digest).Ok?
    requires Begin(s.commands, CommandKey(m, ReplayRoute, key), digest, s.now) == Ok(false)
    ensures var command := CommandKey(m, ReplayRoute, key);
            var s' := Replay(s, m, i, key, digest).value;
            && KeyOk(key) && |s'.events| == |s.events| + 1
            && command in s'.commands && s'.commands[command] == CommandRecord(digest, s.now + DAY)
  {
  }

  /** A live record answers: the same digest as done, any other as a conflict. */
  lemma ReplayAnswered(s: Callbacks, m: int, key: string, digest: string, again: Call)
    requires again.move.ReplayMove? && again.move.m == m && again.move.key == key && KeyOk(key)
    requires var command := CommandKey(m, ReplayRoute, key);
             command in s.commands && s.commands[command].digest == digest && again.at < s.commands[command].expiresAt
    ensures var s1 := s.(now := again.at);
            && Next(s, again) == s1
            && Replay(s1, m, again.move.i, key, again.move.digest)
               == if again.move.digest == digest then Ok(s1) else Err(IdempotencyConflict)
  {
  }

  /** Once a replay succeeded under a key, submitting it again within 24 hours starts no further generation. */
  lemma ReplayAtMostOnce(s: Callbacks, m: int, i: nat, key: string, digest: string, trace: seq<Call>, again: Call)
    requires Replay(s, m, i, key, digest).Ok?
    requires Begin(s.commands, CommandKey(m, ReplayRoute, key), digest, s.now) == Ok(false)
    requires forall n :: 0 <= n < |trace| ==> trace[n].at < s.now + DAY
    requires again.move.ReplayMove? && again.move.m == m && again.move.key == key && again.at < s.now + DAY
    ensures |Replay(s, m, i, key, digest).value.events| == |s.events| + 1
    ensures var s1 := Run(Replay(s, m, i, key, digest).value, trace);
            var s2 := s1.(now := again.at);
            && Next(s1, again) == s2
            && Replay(s2, m, again.move.i, key, again.move.digest)
               == if again.move.digest == digest then Ok(s2) else Err(IdempotencyConflict)
  {
    ReplayRecorded(s, m, i, key, digest);
    var s1 := Replay(s, m, i, key, digest).value;
    CommandOutlivesRun(s1, trace, CommandKey(m, ReplayRoute, key));
    ReplayAnswered(Run(s1, trace), m, key, digest, again);
  }

  // ---------------------------------------------------------------------------
  // What each move does to the rows
  // ---------------------------------------------------------------------------

  /** The minutes after each of the first nine attempts. */
  const BACK_OFF: seq<int> := [1, 5, 15, 30, 60, 180, 360, 720, 1440]

  lemma DelayIs(n: nat)
    requires 1 <= n <= 9
    ensures RetryDelay(n) == Some(BACK_OFF[n - 1] * MINUTE)
  {
  }

  /** The event a claim turns to: waiting, failed or running, its time come, and no newer one like it. */
  ghost predicate NextUp(s: Callbacks, i: nat, e: nat) {
    && e < |s.events| && s.events[e].order == i
    && (s.events[e].state.Pending? || s.events[e].state.Failed? || s.events[e].state.Running?)
    && (s.events[e].next.None? || s.events[e].next.value <= s.now)
    && forall f :: 0 <= f < |s.events| && s.events[f].order == i
                   && (s.events[f].state.Pending? || s.events[f].state.Failed? || s.events[f].state.Running?)
                   && (s.events[f].next.None? || s.events[f].next.value <= s.now)
                   ==> s.events[f].generation <= s.events[e].generation
  }

  lemma NextUpIs(s: Callbacks, i: nat, e: nat)
    requires CallbacksOk(s)
    ensures NextUp(s, i, e) <==> BestDue(s.events, i, s.now) == Some(e)
  {
    var best := BestDue(s.events, i, s.now);
    if NextUp(s, i, e) {
      assert Due(s.events[e], i, s.now);
    }
  }

  /** The latest attempt of the event started less than two minutes ago. */
  predicate StillTrying(s: Callbacks, e: nat)
    requires e < |s.events|
  {
    (e, s.events[e].count) in s.attempts && s.attempts[(e, s.events[e].count)].startedAt > s.now - 2 * MINUTE
  }

  lemma StillTryingIs(s: Callbacks, e: nat)
    requires CallbacksOk(s) && e < |s.events|
    ensures Busy(s.attempts, e, s.now) <==> StillTrying(s, e)
  {
    LatestIsCount(s, e);
    assert HasAttempt(s.attempts, e, s.events[e].count) ==> IsLatest(s.attempts, e, s.events[e].count);
  }

  /** A claim turns to the newest event whose time has come. If the order is no longer paid the event is
      cancelled; if its latest attempt may still be under way it is left alone; after ten attempts it fails for
      good; in every other case, a failed event included, the next attempt starts now. */
  lemma ClaimEffect(s: Callbacks, i: nat, e: nat)
    requires Reachable(s) && i < |s.orders| && NextUp(s, i, e)
    ensures var row := s.events[e];
            Claim(s, i)
            == if !s.orders[i].status.Paid? then Ok((s.(events := s.events[e := row.(state := Cancelled, next := None)]), None))
               else if row.state.Running? && StillTrying(s, e) then Ok((s, None))
               else if row.count >= 10 then Ok((s.(events := s.events[e := row.(state := Failed, next := None)]), None))
               else Ok((s.(events := s.events[e := row.(state := Running, count := row.count + 1, next := None)],
                           attempts := s.attempts[(e, row.count + 1) := AttemptRow(s.now, None, false, None)]),
                        Some(Work(e, row.count + 1))))
    ensures (e, s.events[e].count + 1) !in s.attempts
  {
    hide CallbacksOk, NextUp, Claim, Busy, StillTrying;
    ReachableOk(s);
    NextUpIs(s, i, e);
    NextUpExists(s, i, e);
    StillTryingIs(s, e);
    ClaimIs(s, i, e);
    NumberIsNew(s, e);
  }

  lemma NextUpExists(s: Callbacks, i: nat, e: nat)
    requires NextUp(s, i, e)
    ensures e < |s.events|
  {
  }

  lemma NumberIsNew(s: Callbacks, e: nat)
    requires CallbacksOk(s) && e < |s.events|
    ensures (e, s.events[e].count + 1) !in s.attempts
  {
    assert !HasAttempt(s.attempts, e, s.events[e].count + 1);
  }

  lemma ClaimIs(s: Callbacks, i: nat, e: nat)
    requires i < |s.orders| && e < |s.events| && BestDue(s.events, i, s.now) == Some(e)
    ensures var row := s.events[e];
            Claim(s, i)
            == if !s.orders[i].status.Paid? then Ok((s.(events := s.events[e := row.(state := Cancelled, next := None)]), None))
               else if row.state.Running? && Busy(s.attempts, e, s.now) then Ok((s, None))
               else if row.count >= 10 then Ok((s.(events := s.events[e := row.(state := Failed, next := None)]), None))
               else Ok((s.(events := s.events[e := row.(state := Running, count := row.count + 1, next := None)],
                           attempts := s.attempts[(e, row.count + 1) := AttemptRow(s.now, None, false, None)]),
                        Some(Work(e, row.count + 1))))
  {
    hide Busy, BestDue;
  }

  /** With no event whose time has come there is nothing to do. */
  lemma ClaimIdle(s: Callbacks, i: nat)
    requires Reachable(s) && forall e: nat :: !NextUp(s, i, e)
    ensures Claim(s, i) == if i < |s.orders| then Ok((s, None)) else Err(NotFound)
  {
    ReachableOk(s);
    if BestDue(s.events, i, s.now).Some? {
      NextUpIs(s, i, BestDue(s.events, i, s.now).value);
    }
  }

  /** A worker's report counts once, for its own attempt: a success settles the event, a failure schedules the
      next attempt by the table, or none after the tenth. */
  lemma FinishEffect(s: Callbacks, w: Work, succeeded: bool)
    requires Reachable(s)
    ensures (w.event, w.attempt) in s.attempts ==> w.event < |s.events| && 1 <= w.attempt <= 10
    ensures var s' := Finish(s, w, succeeded);
            if (w.event, w.attempt) in s.attempts && s.attempts[(w.event, w.attempt)].finishedAt.None? then
              var next := if !succeeded && w.attempt <= 9 then Some(s.now + BACK_OFF[w.attempt - 1] * MINUTE) else None;
              s' == s.(events := s.events[w.event := s.events[w.event].(state := if succeeded then Success else Failed,
                                                                           next := next)],
                          attempts := s.attempts[(w.event, w.attempt) :=
                                        AttemptRow(s.attempts[(w.event, w.attempt)].startedAt, Some(s.now), succeeded, next)])
            else s' == s
  {
    hide CallbacksOk, Reachable, RetryDelay;
    ReachableOk(s);
    if (w.event, w.attempt) in s.attempts {
      AttemptIs(s, w.event, w.attempt);
      if w.attempt <= 9 {
        DelayIs(w.attempt);
      }
    }
  }

  lemma AttemptIs(s: Callbacks, e: nat, n: nat)
    requires CallbacksOk(s) && (e, n) in s.attempts
    ensures e < |s.events| && 1 <= n <= s.events[e].count <= 10
    ensures s.attempts[(e, n)].finishedAt.None? ==> !s.attempts[(e, n)].succeeded && s.attempts[(e, n)].next.None?
  {
    assert HasAttempt(s.attempts, e, n) && EventOk(s, e);
    assert AttemptOk(n, s.attempts[(e, n)], s.now);
  }

  /** Retrying: in a run whose attempts finish in time, an event that failed after one to nine attempts waits for
      exactly the table's delay, and the first claim from then on starts the next attempt. */
  lemma RetriesOnTime(s: Callbacks, i: nat, e: nat, at: int)
    requires PromptlyReachable(s) && i < |s.orders| && s.orders[i].status.Paid?
    requires e < |s.events| && s.events[e].order == i && s.events[e].state.Failed? && 1 <= s.events[e].count <= 9
    requires forall f :: 0 <= f < |s.events| && s.events[f].order == i ==> s.events[f].generation <= s.events[e].generation
    ensures var n := s.events[e].count;
            && (e, n) in s.attempts && s.attempts[(e, n)].finishedAt.Some? && !s.attempts[(e, n)].succeeded
            && s.events[e].next == Some(s.attempts[(e, n)].finishedAt.value + BACK_OFF[n - 1] * MINUTE)
            && (s.now <= at && s.events[e].next.value <= at ==>
                  var s' := Next(s, Call(at, ClaimMove(i)));
                  && s'.events == s.events[e := s.events[e].(state := Running, count := n + 1, next := None)]
                  && s'.attempts == s.attempts[(e, n + 1) := AttemptRow(at, None, false, None)])
  {
    hide CallbacksOk, Scheduled, NextUp, Next, PromptlyReachable, EventScheduled, Busy, Claim;
    PromptlyReachableOk(s);
    FailedWaits(s, e);
    if s.now <= at && s.events[e].next.value <= at {
      NewestIsUp(s.(now := at), i, e);
      ClaimStarts(s, i, e, at);
    }
  }

  lemma ClaimStarts(s: Callbacks, i: nat, e: nat, at: int)
    requires CallbacksOk(s) && s.now <= at && i < |s.orders| && s.orders[i].status.Paid? && e < |s.events|
    requires NextUp(s.(now := at), i, e) && !s.events[e].state.Running? && s.events[e].count <= 9
    ensures var s' := Next(s, Call(at, ClaimMove(i)));
            && s'.events == s.events[e := s.events[e].(state := Running, count := s.events[e].count + 1, next := None)]
            && s'.attempts == s.attempts[(e, s.events[e].count + 1) := AttemptRow(at, None, false, None)]
  {
    hide CallbacksOk, NextUp, Claim, Busy;
    TickKeeps(s, at);
    NextUpIs(s.(now := at), i, e);
    ClaimIs(s.(now := at), i, e);
  }

  lemma FailedWaits(s: Callbacks, e: nat)
    requires CallbacksOk(s) && Scheduled(s) && e < |s.events| && s.events[e].state.Failed? && 1 <= s.events[e].count <= 9
    ensures var n := s.events[e].count;
            && (e, n) in s.attempts && s.attempts[(e, n)].finishedAt.Some? && !s.attempts[(e, n)].succeeded
            && s.events[e].next == Some(s.attempts[(e, n)].finishedAt.value + BACK_OFF[n - 1] * MINUTE)
  {
    var n := s.events[e].count;
    assert EventScheduled(s, e) && HasAttempt(s.attempts, e, n);
    assert AttemptScheduled(s, e, n) && AttemptOk(n, s.attempts[(e, n)], s.now);
    DelayIs(n);
  }

  lemma NewestIsUp(s: Callbacks, i: nat, e: nat)
    requires e < |s.events| && s.events[e].order == i
    requires s.events[e].state.Pending? || s.events[e].state.Failed? || s.events[e].state.Running?
    requires s.events[e].next.None? || s.events[e].next.value <= s.now
    requires forall f :: 0 <= f < |s.events| && s.events[f].order == i ==> s.events[f].generation <= s.events[e].generation
    ensures NextUp(s, i, e)
  {
  }

  /** Paying an order adds its first event: due at once where the merchant wants to be told, done already for a
      subscription, none otherwise. */
  lemma PayEffect(s: Callbacks, i: nat)
    requires Reachable(s)
    ensures Paying(s, i)
            == if i < |s.orders| && s.orders[i].status.Unpaid? then
                 s.(orders := s.orders[i := s.orders[i].(status := Paid)],
                    events := s.events + (if s.orders[i].subscription then [EventRow(i, 1, InternalFulfillment, 0, None)]
                                          else if s.orders[i].notify then [EventRow(i, 1, Pending, 0, Some(s.now))] else []))
               else s
  {
    ReachableOk(s);
    if FirstGeneration(s.events, i) {
      var e :| 0 <= e < |s.events| && s.events[e].order == i && s.events[e].generation == 1;
      assert EventOk(s, e);
    }
  }

  /** So every paid order that is to be told of gets its first attempt at the next claim. */
  lemma FirstAttempt(s: Callbacks, i: nat, at: int, later: int)
    requires Reachable(s) && i < |s.orders| && s.orders[i].status.Unpaid? && s.orders[i].notify && !s.orders[i].subscription
    requires s.now <= at <= later
    ensures var s' := Next(Next(s, Call(at, PayMove(i))), Call(later, ClaimMove(i)));
            var e := |s.events|;
            && |s'.events| == e + 1 && s'.events[e] == EventRow(i, 1, Running, 1, None)
            && (e, 1) in s'.attempts && s'.attempts[(e, 1)] == AttemptRow(later, None, false, None)
  {
    var s1 := Next(s, Call(at, PayMove(i)));
    ReachableNext(s, Call(at, PayMove(i)));
    ReachableOk(s);
    ReachableOk(s1);
    TickKeeps(s, at);
    PayNotYet(s, i);
    PayEffect(s, i);
    NewestIsUp(s1.(now := later), i, |s.events|);
    ClaimStarts(s1, i, |s.events|, later);
  }

  lemma PayNotYet(s: Callbacks, i: nat)
    requires CallbacksOk(s) && i < |s.orders| && s.orders[i].status.Unpaid?
    ensures forall e :: 0 <= e < |s.events| ==> s.events[e].order != i
  {
    forall e | 0 <= e < |s.events| ensures s.events[e].order != i {
      assert EventOk(s, e);
    }
  }

  /** A refund cancels what waits or has failed; an attempt under way is left to its worker. */
  lemma RefundEffect(s: Callbacks, i: nat)
    ensures var s' := Refunding(s, i);
            if i < |s.orders| && s.orders[i].status.Paid? then
              && s' == s.(orders := s.orders[i := s.orders[i].(status := Refunded)], events := s'.events)
              && |s'.events| == |s.events|
              && forall e :: 0 <= e < |s.events| ==>
                   s'.events[e] == if s.events[e].order == i && (s.events[e].state.Pending? || s.events[e].state.Failed?)
                                   then s.events[e].(state := Cancelled, next := None) else s.events[e]
            else s' == s
  {
  }

  /** A replay without a live record starts the next generation exactly for a paid order of the merchant's own that
      is to be told of and whose newest event is neither waiting nor under way. */
  lemma ReplayEffect(s: Callbacks, m: int, i: nat, key: string, digest: string, e: nat)
    requires Reachable(s) && KeyOk(key)
    requires var command := CommandKey(m, ReplayRoute, key);
             command !in s.commands || s.commands[command].expiresAt <= s.now
    requires e < |s.events| && s.events[e].order == i
    requires forall f :: 0 <= f < |s.events| && s.events[f].order == i ==> s.events[f].generation <= s.events[e].generation
    ensures Replay(s, m, i, key, digest).Ok? <==>
              && i < |s.orders| && s.orders[i].merchant == m && s.orders[i].status.Paid?
              && s.orders[i].notify && !s.orders[i].subscription
              && !s.events[e].state.Pending? && !s.events[e].state.Running? && s.events[e].generation < MAX_GENERATION
    ensures Replay(s, m, i, key, digest).Ok? ==>
              Replay(s, m, i, key, digest).value
              == s.(events := s.events + [EventRow(i, s.events[e].generation + 1, Pending, 0, Some(s.now))],
                    commands := s.commands[CommandKey(m, ReplayRoute, key) := CommandRecord(digest, s.now + DAY)])
  {
    hide CallbacksOk, ReplayNow, Reachable;
    ReachableOk(s);
    NewestIs(s, i, e);
    ReplayNowIs(s, m, i, e);
    KeyedReplay(s, m, i, key, digest);
  }

  lemma KeyedReplay(s: Callbacks, m: int, i: nat, key: string, digest: string)
    requires KeyOk(key)
    requires var command := CommandKey(m, ReplayRoute, key);
             command !in s.commands || s.commands[command].expiresAt <= s.now
    ensures Replay(s, m, i, key, digest)
            == match ReplayNow(s, m, i)
               case Ok(s') =>
                 Ok(s'.(commands := s.commands[CommandKey(m, ReplayRoute, key) := CommandRecord(digest, s.now + DAY)]))
               case Err(error) => Err(error)
  {
    hide ReplayNow;
    var command := CommandKey(m, ReplayRoute, key);
    assert LiveCommands(s.commands, command, s.now)[command := CommandRecord(digest, s.now + DAY)]
           == s.commands[command := CommandRecord(digest, s.now + DAY)];
  }

  lemma NewestIs(s: Callbacks, i: nat, e: nat)
    requires CallbacksOk(s) && e < |s.events| && s.events[e].order == i
    requires forall f :: 0 <= f < |s.events| && s.events[f].order == i ==> s.events[f].generation <= s.events[e].generation
    ensures Newest(s.events, i) == Some(e) && i < |s.orders|
  {
    assert EventOk(s, e);
    assert Newest(s.events, i).Some?;
  }

  lemma ReplayNowIs(s: Callbacks, m: int, i: nat, e: nat)
    requires i < |s.orders| && e < |s.events| && Newest(s.events, i) == Some(e)
    ensures ReplayNow(s, m, i).Ok? <==>
              && s.orders[i].merchant == m && s.orders[i].status.Paid?
              && s.orders[i].notify && !s.orders[i].subscription
              && !s.events[e].state.Pending? && !s.events[e].state.Running? && s.events[e].generation < MAX_GENERATION
    ensures ReplayNow(s, m, i).Ok? ==>
              ReplayNow(s, m, i).value
              == s.(events := s.events + [EventRow(i, s.events[e].generation + 1, Pending, 0, Some(s.now))])
  {
    hide Newest;
  }

  // ---------------------------------------------------------------------------
  // The transactions, statement by statement
  // ---------------------------------------------------------------------------

  class Dispatcher {
    var now: int
    var orders: seq<OrderRow>
    var events: seq<EventRow>
    var attempts: map<(nat, nat), AttemptRow>
    var commands: map<CommandKey, CommandRecord>

    function View(): Callbacks
      reads this
    {
      Callbacks(now, orders, events, attempts, commands)
    }

    ghost predicate Valid()
      reads this
    {
      CallbacksOk(View())
    }

    constructor ()
      ensures View() == EMPTY && Valid()
    {
      now, orders, events, attempts, commands := 0, [], [], map[], map[];
    }

    /** Whether the newest attempt of the event started less than two minutes ago. */
    method IsBusy(e: nat) returns (busy: bool)
      ensures busy <==> Busy(attempts, e, now)
    {
      var latest: Option<nat> := None;
      var left := attempts.Keys;
      while left != {}
        invariant left <= attempts.Keys
        invariant latest.Some? ==> HasAttempt(attempts, e, latest.value)
        invariant forall n: nat :: HasAttempt(attempts, e, n) && (e, n) !in left ==> latest.Some? && n <= latest.value
        decreases |left|
      {
        var key :| key in left;
        left := left - {key};
        if key.0 == e && (latest.None? || latest.value < key.1) {
          latest := Some(key.1);
        }
      }
      if latest.None? { return false; }
      assert IsLatest(attempts, e, latest.value);
      return attempts[(e, latest.value)].startedAt > now - RECLAIM;
    }

    /** The claiming transaction of a worker. */
    method ClaimTx(i: nat) returns (r: Result<Option<Work>>)
      requires Valid()
      modifies this`events, this`attempts
      ensures Valid()
      ensures match Claim(old(View()), i)
              case Ok((s', work)) => r == Ok(work) && View() == s'
              case Err(error) => r == Err(error) && View() == old(View())
    {
      if Claim(View(), i).Ok? { ClaimKeeps(View(), i); }
      if i >= |orders| { return Err(NotFound); }
      var due := BestDue(events, i, now);
      if due.None? { return Ok(None); }
      var e := due.value;
      if !orders[i].status.Paid? {
        events := events[e := events[e].(state := Cancelled, next := None)];
        return Ok(None);
      }
      if events[e].state.Running? {
        var busy := IsBusy(e);
        if busy { return Ok(None); }
      }
      var n := events[e].count + 1;
      if n > MAX_ATTEMPTS {
        events := events[e := events[e].(state := Failed, next := None)];
        return Ok(None);
      }
      events := events[e := events[e].(state := Running, count := n, next := None)];
      attempts := attempts[(e, n) := AttemptRow(now, None, false, None)];
      return Ok(Some(Work(e, n)));
    }

    /** The finishing transaction of the worker of an attempt. */
    method FinishTx(w: Work, succeeded: bool)
      requires Valid() && w.event < |events|
      requires (w.event, w.attempt) in attempts && attempts[(w.event, w.attempt)].finishedAt.None?
      modifies this`events, this`attempts
      ensures Valid() && View() == Finish(old(View()), w, succeeded)
    {
      FinishKeeps(View(), w, succeeded);
      var state, next: Option<int> := Failed, None;
      if succeeded {
        state := Success;
      } else {
        var delay := RetryDelay(w.attempt);
        if delay.Some? { next := Some(now + delay.value); }
      }
      var key := (w.event, w.attempt);
      attempts := attempts[key := attempts[key].(finishedAt := Some(now), succeeded := succeeded, next := next)];
      events := events[w.event := events[w.event].(state := state, next := next)];
    }

    /** The replay transaction; an error leaves every table as it was. */
    method ReplayTx(m: int, i: nat, key: string, digest: string) returns (r: Result<()>)
      requires Valid()
      modifies this`events, this`commands
      ensures Valid()
      ensures match Replay(old(View()), m, i, key, digest)
              case Ok(s') => r == Ok(()) && View() == s'
              case Err(error) => r == Err(error) && View() == old(View())
    {
      if ReplayNow(View(), m, i).Ok? {
        ReplayKeeps(View(), m, i);
      }
      var command := CommandKey(m, ReplayRoute, key);
      var begun := Begin(commands, command, digest, now);
      if begun.Err? { return Err(begun.error); }
      if begun.value { return Ok(()); }
      if i >= |orders| || orders[i].merchant != m { return Err(NotFound); }
      if orders[i].status.Refunded? { return Err(AlreadyRefunded); }
      if !orders[i].status.Paid? { return Err(NotPaid); }
      if orders[i].subscription || !orders[i].notify { return Err(CallbackUnavailable); }
      var newest := Newest(events, i);
      if newest.None? { return Err(CallbackUnavailable); }
      var last := events[newest.value];
      if last.state.Pending? || last.state.Running? { return Err(CallbackPending); }
      if last.generation >= MAX_GENERATION { return Err(VersionConflict); }
      events := events + [EventRow(i, last.generation + 1, Pending, 0, Some(now))];
      CommandsKeep(ReplayNow(old(View()), m, i).value, LiveCommands(commands, command, now)[command := CommandRecord(digest, now + DAY)]);
      commands := LiveCommands(commands, command, now)[command := CommandRecord(digest, now + DAY)];
      return Ok(());
    }
  }
}
