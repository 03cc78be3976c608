/** Types shared by every module: optional and failing values, payment channels, instants. */
module Base {

  datatype Option<+T> = None | Some(value: T)

  /** The service error codes that decide which branch a caller takes. */
  datatype Error =
    | Validation | NotFound | NotPayable | NotPaid | AlreadyRefunded | PartialRefund | RefundPending
    | ChannelLocked | ChannelNotAllowed | QrUnavailable | AmountOutOfRange | CapacityExhausted
    | AccountBanned | SubscriptionInactive | DeviceOffline | DeviceUnauthorized | EventConflict
    | TtlOutOfRange | DuplicateOrder | BillingNotReady | PlanUnavailable | VersionConflict
    | PurchasePending | LimitReached | IdempotencyConflict
    | CallbackUnavailable | CallbackPending | UniqueViolation

  /** The outcome of a transaction body: an error means that nothing it wrote is kept. */
  datatype Result<+T> = Ok(value: T) | Err(error: Error) {
    predicate IsFailure() {
      Err?
    }

    function PropagateFailure<U>(): Result<U>
      requires Err?
    {
      Err(error)
    }

    function Extract(): T
      requires Ok?
    {
      value
    }
  }

  datatype Channel = Alipay | Wxpay | Qqpay

  /** Instants and durations are whole microseconds, the resolution of a stored timestamp. */
  const SECOND := 1_000_000
  const MINUTE := 60 * SECOND
  const HOUR := 60 * MINUTE
  const DAY := 24 * HOUR

  const MAX_AMOUNT_CENTS := 999_999_999

  /** The sum of `f` over the rows of a table. */
  ghost function Sum<T(!new)>(rows: seq<T>, f: T -> int): int {
    if rows == [] then 0 else Sum(rows[..|rows| - 1], f) + f(rows[|rows| - 1])
  }

  lemma SumAppend<T(!new)>(rows: seq<T>, row: T, f: T -> int)
    ensures Sum(rows + [row], f) == Sum(rows, f) + f(row)
  {
    assert (rows + [row])[..|rows|] == rows;
  }

  lemma {:induction false} SumUpdate<T(!new)>(rows: seq<T>, i: nat, row: T, f: T -> int)
    requires i < |rows|
    ensures Sum(rows[i := row], f) == Sum(rows, f) - f(rows[i]) + f(row)
  {
    var n := |rows| - 1;
    if i < n {
      SumUpdate(rows[..n], i, row, f);
      assert rows[i := row][..n] == rows[..n][i := row];
    } else {
      assert rows[i := row][..n] == rows[..n];
    }
  }

  lemma {:induction false} SumBounds<T(!new)>(rows: seq<T>, i: nat, f: T -> int)
    requires i < |rows|
    requires forall row :: f(row) >= 0
    ensures 0 <= f(rows[i]) <= Sum(rows, f)
  {
    var n := |rows| - 1;
    SumNonNegative(rows[..n], f);
    if i < n {
      SumBounds(rows[..n], i, f);
    }
  }

  lemma {:induction false} SumNonNegative<T(!new)>(rows: seq<T>, f: T -> int)
    requires forall row :: f(row) >= 0
    ensures Sum(rows, f) >= 0
  {
    if rows != [] {
      SumNonNegative(rows[..|rows| - 1], f);
    }
  }

  // ---------------------------------------------------------------------------
  // What others do before each step of a longer call
  // ---------------------------------------------------------------------------

  function Head<T>(rivals: seq<seq<T>>): seq<T> {
    if rivals == [] then [] else rivals[0]
  }

  function Tail<T>(rivals: seq<seq<T>>): seq<seq<T>> {
    if rivals == [] then [] else rivals[1..]
  }

  /** What others do before step `n`, and from it on. */
  function Nth<T>(rivals: seq<seq<T>>, n: nat): seq<T> {
    if n < |rivals| then rivals[n] else []
  }

  function Drop<T>(rivals: seq<seq<T>>, n: nat): seq<seq<T>> {
    if n < |rivals| then rivals[n..] else []
  }

  lemma DropOne<T>(rivals: seq<seq<T>>, n: nat)
    ensures Head(Drop(rivals, n)) == Nth(rivals, n) && Tail(Drop(rivals, n)) == Drop(rivals, n + 1)
  {
  }
}
