/** Whole runs: any interleaving of service calls, each one transaction, under a clock that never
    goes back. */
module Runs {
  import opened Base
  import opened Allocation
  import P = Payment
  import B = Ledger
  import E = Entitlement
  import opened System
  import opened Steps

  datatype Event =
    | CreateEvent(env: Env, m: int, outTradeNo: string, original: int, channel: Option<Channel>, ttl: Option<int>)
    | SelectEvent(env: Env, i: nat, ch: Channel)
    | IngestEvent(authorized: bool, r: P.Receipt, seen: int)
    | SupplementEvent(m: int, i: nat, channel: Option<Channel>, key: string, digest: string)
    | ExpireEvent(i: nat)
    | RequestRefundEvent(m: int, i: nat, amount: int, outRefundNo: string, digest: string)
    | ResolveRefundEvent(m: int, k: nat, reject: bool)
    | RefundMarkEvent(m: int, i: nat, key: string, digest: string)
    | PurchaseEvent(env: Env, c: PurchaseCommand)
    | CancelPurchaseEvent(m: int, k: nat)
    | CloseEvent(k: nat)
    | AddPlanEvent(plan: B.Plan)
    | EditPlanEvent(k: nat, plan: B.Plan)
    | DeletePlanEvent(k: nat, revision: int)
    | GrantEvent(m: int, k: nat, channels: set<Channel>, expectedRevision: int, expiry: int)
    | BanEvent(m: int)
    | UnbanEvent(m: int)

  function Apply(s: State, e: Event): Result<State> {
    match e
    case CreateEvent(env, m, outTradeNo, original, channel, ttl) => Create(s, env, m, outTradeNo, original, channel, ttl)
    case SelectEvent(env, i, ch) => SelectChannel(s, env, i, ch)
    case IngestEvent(authorized, r, seen) => (match Ingest(s, authorized, r, seen) case Ok(v) => Ok(v.0) case Err(x) => Err(x))
    case SupplementEvent(m, i, channel, key, digest) => Supplement(s, m, i, channel, key, digest)
    case ExpireEvent(i) => Ok(ExpireDue(s, i))
    case RequestRefundEvent(m, i, amount, no, digest) => RequestRefund(s, m, i, amount, no, digest)
    case ResolveRefundEvent(m, k, reject) => ResolveRefund(s, m, k, reject)
    case RefundMarkEvent(m, i, key, digest) => RefundMark(s, m, i, key, digest)
    case PurchaseEvent(env, c) => Purchase(s, env, c)
    case CancelPurchaseEvent(m, k) => CancelPurchase(s, m, k)
    case CloseEvent(k) => Ok(CloseDue(s, k))
    case AddPlanEvent(plan) => AddPlan(s, plan)
    case EditPlanEvent(k, plan) => EditPlan(s, k, plan)
    case DeletePlanEvent(k, revision) => DeletePlan(s, k, revision)
    case GrantEvent(m, k, channels, revision, expiry) => GrantManually(s, m, k, channels, revision, expiry)
    case BanEvent(m) => Ban(s, m)
    case UnbanEvent(m) => Ok(Unban(s, m))
  }

  datatype Call = Call(at: int, event: Event)

  /** A call commits or leaves no trace but the time it took. */
  function Next(s: State, c: Call): State {
    var s0 := s.(now := c.at);
    match Apply(s0, c.event)
    case Ok(s') => s'
    case Err(_) => s0
  }

  function Run(s: State, trace: seq<Call>): State {
    if trace == [] then s else Next(Run(s, trace[..|trace| - 1]), trace[|trace| - 1])
  }

  predicate Timely(from: int, trace: seq<Call>) {
    && (forall i :: 0 <= i < |trace| ==> from <= trace[i].at)
    && (forall i, j :: 0 <= i < j < |trace| ==> trace[i].at <= trace[j].at)
  }

  ghost predicate Reachable(s: State) {
    exists trace :: Timely(INITIAL.now, trace) && Run(INITIAL, trace) == s
  }

  // ---------------------------------------------------------------------------
  // One step
  // ---------------------------------------------------------------------------

  lemma ApplyKeeps(s: State, e: Event)
    requires StateOk(s) && Apply(s, e).Ok?
    ensures StateOk(Apply(s, e).value) && Moves(s, Apply(s, e).value)
  {
    match e {
      case CreateEvent(env, m, outTradeNo, original, channel, ttl) => CreateKeeps(s, env, m, outTradeNo, original, channel, ttl);
      case SelectEvent(env, i, ch) => SelectChannelKeeps(s, env, i, ch);
      case IngestEvent(authorized, r, seen) => IngestKeeps(s, authorized, r, seen);
      case SupplementEvent(m, i, channel, key, digest) => SupplementKeeps(s, m, i, channel, key, digest);
      case RefundMarkEvent(m, i, key, digest) => RefundMarkKeeps(s, m, i, key, digest);
      case PurchaseEvent(env, c) => PurchaseKeeps(s, env, c);
      case _ => ApplyQuietly(s, e);
    }
  }

  predicate QuietEvent(e: Event) {
    !(e.CreateEvent? || e.SelectEvent? || e.IngestEvent? || e.SupplementEvent? || e.RefundMarkEvent? || e.PurchaseEvent?)
  }

  lemma ApplyQuietly(s: State, e: Event)
    requires StateOk(s) && QuietEvent(e) && Apply(s, e).Ok?
    ensures StateOk(Apply(s, e).value) && Moves(s, Apply(s, e).value) && Quiet(s, Apply(s, e).value)
  {
    match e {
      case ExpireEvent(i) => ExpireDueKeeps(s, i);
      case RequestRefundEvent(m, i, amount, no, digest) => RequestRefundKeeps(s, m, i, amount, no, digest);
      case ResolveRefundEvent(m, k, reject) => ResolveRefundKeeps(s, m, k, reject);
      case CancelPurchaseEvent(m, k) => CancelPurchaseKeeps(s, m, k);
      case CloseEvent(k) => CloseDueKeeps(s, k);
      case AddPlanEvent(plan) => AddPlanKeeps(s, plan);
      case EditPlanEvent(k, plan) => EditPlanKeeps(s, k, plan);
      case DeletePlanEvent(k, revision) => DeletePlanKeeps(s, k, revision);
      case GrantEvent(m, k, channels, revision, expiry) => GrantManuallyKeeps(s, m, k, channels, revision, expiry);
      case BanEvent(m) => BanKeeps(s, m);
      case UnbanEvent(m) => UnbanKeeps(s, m);
    }
  }

  lemma NextKeeps(s: State, c: Call)
    requires StateOk(s) && s.now <= c.at
    ensures StateOk(Next(s, c)) && Next(s, c).now == c.at
    ensures P.Advances(s.pay, Next(s, c).pay)
    ensures Moves(s.(now := c.at), Next(s, c))
  {
    TickKeeps(s, c.at);
    if Apply(s.(now := c.at), c.event).Ok? {
      ApplyKeeps(s.(now := c.at), c.event);
    }
  }

  // ---------------------------------------------------------------------------
  // Every reachable state
  // ---------------------------------------------------------------------------

  /** The life of a purchase over any number of steps. */
  predicate PurchaseDescends(pu: B.Purchase, pu': B.Purchase) {
    && pu'.buyer == pu.buyer && pu'.plan == pu.plan && pu'.order == pu.order && pu'.snapshot == pu.snapshot
    && pu'.expiresAt == pu.expiresAt
    && match pu.state
       case Pending => true
       case Paid => pu'.EverPaid()
       case _ => pu'.state == pu.state
  }

  ghost predicate History(s: State, s': State) {
    && s.now <= s'.now
    && P.Evolves(s.pay, s'.pay)
    && |s.books.purchases| <= |s'.books.purchases|
    && (forall k :: 0 <= k < |s.books.purchases| ==> PurchaseDescends(s.books.purchases[k], s'.books.purchases[k]))
  }

  lemma HistoryStep(s: State, s': State, s'': State)
    requires History(s, s') && s'.now <= s''.now && Moves(s'.(now := s''.now), s'')
    ensures History(s, s'')
  {
    P.AdvancesEvolves(s.pay, s'.pay, s''.pay);
    forall k | 0 <= k < |s.books.purchases| ensures PurchaseDescends(s.books.purchases[k], s''.books.purchases[k]) {
      assert PurchaseDescends(s.books.purchases[k], s'.books.purchases[k]);
      assert PurchaseFollows(s'.books.purchases[k], s''.books.purchases[k]);
    }
  }

  lemma TimelyPrefix(from: int, trace: seq<Call>)
    requires Timely(from, trace) && trace != []
    ensures Timely(from, trace[..|trace| - 1])
    ensures forall i :: 0 <= i < |trace| - 1 ==> trace[i].at <= trace[|trace| - 1].at
  {
  }

  lemma {:induction false} RunKeeps(s: State, trace: seq<Call>)
    requires StateOk(s) && Timely(s.now, trace)
    ensures StateOk(Run(s, trace)) && History(s, Run(s, trace))
    ensures Run(s, trace).now == (if trace == [] then s.now else trace[|trace| - 1].at)
  {
    if trace != [] {
      var n := |trace| - 1;
      TimelyPrefix(s.now, trace);
      RunKeeps(s, trace[..n]);
      NextKeeps(Run(s, trace[..n]), trace[n]);
      HistoryStep(s, Run(s, trace[..n]), Run(s, trace));
    }
  }

  lemma InitialOk()
    ensures StateOk(INITIAL)
  {
  }

  /** The invariant across all tables holds after any run. */
  lemma ReachableOk(s: State)
    requires Reachable(s)
    ensures StateOk(s)
  {
    var trace :| Timely(INITIAL.now, trace) && Run(INITIAL, trace) == s;
    InitialOk();
    RunKeeps(INITIAL, trace);
  }

  /** A reachable state leads to reachable states. */
  lemma ReachableNext(s: State, c: Call)
    requires Reachable(s) && s.now <= c.at
    ensures Reachable(Next(s, c))
  {
    var trace :| Timely(INITIAL.now, trace) && Run(INITIAL, trace) == s;
    EndOfRun(trace);
    TimelyConcat(INITIAL.now, trace, [c]);
    RunAppend(INITIAL, trace, c);
  }

  lemma EndOfRun(trace: seq<Call>)
    requires Timely(INITIAL.now, trace)
    ensures Run(INITIAL, trace).now == EndTime(INITIAL.now, trace)
  {
    InitialOk();
    RunKeeps(INITIAL, trace);
  }

  lemma RunAppend(s: State, trace: seq<Call>, c: Call)
    ensures Run(s, trace + [c]) == Next(Run(s, trace), c)
  {
    assert (trace + [c])[..|trace|] == trace;
  }

  lemma InitialReachable()
    ensures Reachable(INITIAL)
  {
    assert Timely(INITIAL.now, []) && Run(INITIAL, []) == INITIAL;
  }

  // ---------------------------------------------------------------------------
  // Runs one after the other
  // ---------------------------------------------------------------------------

  lemma {:induction false} RunConcat(s: State, a: seq<Call>, b: seq<Call>)
    ensures Run(s, a + b) == Run(Run(s, a), b)
  {
    if b == [] {
      assert a + b == a;
    } else {
      var n := |b| - 1;
      RunConcat(s, a, b[..n]);
      assert (a + b)[..|a + b| - 1] == a + b[..n];
    }
  }

  function EndTime(from: int, trace: seq<Call>): int {
    if trace == [] then from else trace[|trace| - 1].at
  }

  lemma TimelyConcat(from: int, a: seq<Call>, b: seq<Call>)
    requires Timely(from, a) && Timely(EndTime(from, a), b)
    ensures Timely(from, a + b) && EndTime(from, a + b) == EndTime(EndTime(from, a), b)
  {
  }

  /** What other callers commit before each transaction of a batch. */
  predicate TimelyAll(from: int, rivals: seq<seq<Call>>)
    decreases |rivals|
  {
    rivals == [] || (Timely(from, rivals[0]) && TimelyAll(EndTime(from, rivals[0]), rivals[1..]))
  }

  /** A trace of one more transaction, after what others did first. */
  lemma RunExtended(s: State, trace: seq<Call>, calls: seq<Call>, step: Call)
    requires StateOk(s) && Timely(s.now, trace) && Timely(EndTime(s.now, trace), calls)
    requires step.at == EndTime(EndTime(s.now, trace), calls)
    ensures var all := trace + calls + [step];
            && Timely(s.now, all) && EndTime(s.now, all) == step.at
            && Run(s, all) == Next(Run(Run(s, trace), calls), step)
  {
    RunConcat(s, trace, calls);
    TimelyConcat(s.now, trace, calls);
    TimelyConcat(s.now, trace + calls, [step]);
    assert (trace + calls + [step])[..|trace + calls|] == trace + calls;
  }

  /** What others commit over the first `n` attempts of a call. */
  function Joined(rivals: seq<seq<Call>>, n: nat): seq<Call> {
    if n == 0 then [] else Joined(rivals, n - 1) + Nth(rivals, n - 1)
  }

  /** The run of a batch: before each step what others commit, then the step at that instant. */
  function Interleaved(from: int, rivals: seq<seq<Call>>, events: seq<Event>, n: nat): seq<Call>
    requires n <= |events|
    decreases n, 0
  {
    if n == 0 then []
    else
      var trace := Until(from, rivals, events, n - 1);
      trace + [Call(EndTime(EndTime(from, Interleaved(from, rivals, events, n - 1)), Nth(rivals, n - 1)), events[n - 1])]
  }

  /** The run up to step `n`, what others commit before it included. */
  function Until(from: int, rivals: seq<seq<Call>>, events: seq<Event>, n: nat): seq<Call>
    requires n < |events|
    decreases n, 1
  {
    Interleaved(from, rivals, events, n) + Nth(rivals, n)
  }

  /** How many of the first `n` steps of a batch changed a row. */
  ghost function Changes(s: State, rivals: seq<seq<Call>>, events: seq<Event>, n: nat): nat
    requires n <= |events|
  {
    if n == 0 then 0
    else
      Changes(s, rivals, events, n - 1)
      + (if Run(s, Interleaved(s.now, rivals, events, n)) != Run(s, Until(s.now, rivals, events, n - 1)) then 1 else 0)
  }
}
