/** `AllocateAmount`: the nudge that makes a price unique among the live orders of a merchant. */
module Allocation {
  import opened Base

  const MAX_NUDGE := 999

  predicate ValidRequest(original: int, direction: string, limit: int, min: int, max: int) {
    && 1 <= original <= MAX_AMOUNT_CENTS
    && 0 <= limit <= MAX_NUDGE
    && 0 <= min <= max
    && (direction == "up" || direction == "down")
  }

  /** The amount `delta` cents away from the price. */
  function Nudged(original: int, direction: string, delta: int): int {
    if direction == "up" then original + delta else original - delta
  }

  predicate Payable(cents: int, min: int, max: int) {
    1 <= cents <= MAX_AMOUNT_CENTS && min <= cents <= max
  }

  /** The amounts the merchant may ask for: within the nudge limit, in the chosen direction, in range. */
  function Window(original: int, direction: string, limit: int, min: int, max: int): set<int> {
    set delta | 0 <= delta <= limit && Payable(Nudged(original, direction, delta), min, max)
      :: Nudged(original, direction, delta)
  }

  /** "up" adds to the price and "down" takes from it, by no more than the limit. */
  lemma WindowIs(original: int, direction: string, limit: int, min: int, max: int, cents: int)
    requires direction == "up" || direction == "down"
    ensures cents in Window(original, direction, limit, min, max) <==>
              && 1 <= cents <= MAX_AMOUNT_CENTS && min <= cents <= max
              && (if direction == "up" then original <= cents <= original + limit else original - limit <= cents <= original)
  {
    var delta := Distance(original, cents);
    assert cents == Nudged(original, direction, delta) || (direction == "up" <==> cents < original);
  }

  function Distance(a: int, b: int): nat {
    if a < b then b - a else a - b
  }

  /** The first free payable amount at distance `delta` or more. */
  function FirstFree(original: int, direction: string, limit: int, min: int, max: int,
                     occupied: set<int>, delta: int): Option<int>
    decreases limit + 1 - delta
  {
    if delta > limit then None
    else
      var cents := Nudged(original, direction, delta);
      if Payable(cents, min, max) && cents !in occupied then Some(cents)
      else FirstFree(original, direction, limit, min, max, occupied, delta + 1)
  }

  function Allocated(original: int, direction: string, limit: int, min: int, max: int,
                     occupied: set<int>): Result<int>
  {
    if !ValidRequest(original, direction, limit, min, max) then Err(AmountOutOfRange)
    else
      match FirstFree(original, direction, limit, min, max, occupied, 0)
      case Some(cents) => Ok(cents)
      case None => Err(CapacityExhausted)
  }

  /** The search loop. */
  method AllocateAmount(original: int, direction: string, limit: int, min: int, max: int, occupied: set<int>)
    returns (r: Result<int>)
    ensures r == Allocated(original, direction, limit, min, max, occupied)
    ensures r.Ok? ==>
              && r.value in Window(original, direction, limit, min, max) - occupied
              && forall other :: other in Window(original, direction, limit, min, max) - occupied ==>
                                   Distance(original, r.value) <= Distance(original, other)
    ensures r == Err(CapacityExhausted) <==>
            && ValidRequest(original, direction, limit, min, max)
            && Window(original, direction, limit, min, max) <= occupied
  {
    NearestFree(original, direction, limit, min, max, occupied, 0);
    if original < 1 || original > MAX_AMOUNT_CENTS || limit < 0 || limit > MAX_NUDGE || min < 0 || max < min
       || (direction != "up" && direction != "down") {
      return Err(AmountOutOfRange);
    }
    var sign := -1;
    if direction == "up" {
      sign := 1;
    }
    var delta := 0;
    while delta <= limit
      invariant 0 <= delta <= limit + 1
      invariant FirstFree(original, direction, limit, min, max, occupied, 0)
                == FirstFree(original, direction, limit, min, max, occupied, delta)
    {
      var candidate := original + sign * delta;
      assert candidate == Nudged(original, direction, delta);
      if !(candidate < 1 || candidate > MAX_AMOUNT_CENTS || candidate < min || candidate > max) {
        if candidate !in occupied {
          return Ok(candidate);
        }
      }
      delta := delta + 1;
    }
    return Err(CapacityExhausted);
  }

  /** The amount found is the nearest free one; the search fails exactly when the window is full. */
  lemma {:induction false} NearestFree(original: int, direction: string, limit: int, min: int, max: int,
                                       occupied: set<int>, delta: nat)
    ensures var r := FirstFree(original, direction, limit, min, max, occupied, delta);
            match r
            case Some(cents) =>
              && cents in Window(original, direction, limit, min, max) - occupied
              && delta <= Distance(original, cents) <= limit
              && forall d :: delta <= d < Distance(original, cents) ==>
                   Payable(Nudged(original, direction, d), min, max) ==> Nudged(original, direction, d) in occupied
            case None =>
              forall d :: delta <= d <= limit ==>
                   Payable(Nudged(original, direction, d), min, max) ==> Nudged(original, direction, d) in occupied
    decreases limit + 1 - delta
  {
    if delta <= limit {
      var cents := Nudged(original, direction, delta);
      if !Payable(cents, min, max) || cents in occupied {
        NearestFree(original, direction, limit, min, max, occupied, delta + 1);
      }
    }
  }

  /** Whatever was allocated lies in the window and was free. */
  lemma AllocatedIsFree(original: int, direction: string, limit: int, min: int, max: int, occupied: set<int>)
    ensures var r := Allocated(original, direction, limit, min, max, occupied);
            r.Ok? ==>
              && r.value !in occupied && Payable(r.value, min, max)
              && Distance(original, r.value) <= MAX_NUDGE
  {
    NearestFree(original, direction, limit, min, max, occupied, 0);
  }

  /** The amounts taken by asking `n` times for the same price, starting with `occupied` taken. */
  ghost function Taken(original: int, direction: string, limit: int, min: int, max: int,
                       occupied: set<int>, n: nat): (taken: set<int>)
    ensures occupied <= taken
  {
    if n == 0 then occupied
    else
      var before := Taken(original, direction, limit, min, max, occupied, n - 1);
      match Allocated(original, direction, limit, min, max, before)
      case Ok(cents) => before + {cents}
      case Err(_) => before
  }

  /** Pigeonhole: asking again and again fills the window, one amount a time, to exactly its capacity. */
  lemma {:induction false} FillsToCapacity(original: int, direction: string, limit: int, min: int, max: int, n: nat)
    requires ValidRequest(original, direction, limit, min, max)
    ensures var window := Window(original, direction, limit, min, max);
            var taken := Taken(original, direction, limit, min, max, {}, n);
            && taken <= window
            && |taken| == (if n <= |window| then n else |window|)
            && (Allocated(original, direction, limit, min, max, taken).Ok? <==> n < |window|)
            && forall near, far :: near in window && far in taken && Distance(original, near) < Distance(original, far)
                 ==> near in taken
  {
    var window := Window(original, direction, limit, min, max);
    var taken := Taken(original, direction, limit, min, max, {}, n);
    if n > 0 {
      FillsToCapacity(original, direction, limit, min, max, n - 1);
      var before := Taken(original, direction, limit, min, max, {}, n - 1);
      NearestFree(original, direction, limit, min, max, before, 0);
    }
    NearestFree(original, direction, limit, min, max, taken, 0);
    SubsetCount(taken, window);
    assert window - taken == {} <==> taken == window;
  }

  lemma SubsetCount(a: set<int>, b: set<int>)
    requires a <= b
    ensures |a| <= |b|
    ensures |a| == |b| <==> a == b
  {
    assert b == a + (b - a);
    assert |b| == |a| + |b - a|;
  }
}
