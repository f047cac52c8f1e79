/** Failure-compatible result type for the campaign model, and the Python
    list helpers the registry relies on (negative indices, pop, item
    assignment). Each error constructor stands for one exception the
    Python code raises. */
module Results {

  datatype Error =
    | IncorrectDates        // "Incorrect dates were entered."
    | NegativeShowings      // "The number of shows cannot be negative."
    | MinAboveMax           // "The minimum number of shows cannot be higher ..."
    | MaxShowingsReached    // "The max. number of impressions has been reached ..."
    | DateOutsidePeriod     // "The show date is not included in the banner validity period."
    | IndexOutOfRange       // Python IndexError on a list subscript or pop
    | MissingDateKey        // dict.get(...) returned None and .append failed
    | DivisionByZero        // Python ZeroDivisionError

  datatype Option<+T> = None | Some(value: T)

  datatype Result<+T> = Ok(value: T) | Err(error: Error) {
    predicate IsFailure() {
      Err?
    }

    function PropagateFailure<U>(): Result<U>
      requires Err?
    {
      Err(error)
    }

    function Extract(): T
      requires Ok?
    {
      value
    }
  }

  /** The position a Python subscript `xs[i]` denotes in a list of length
      `n`: non-negative indices count from the front, negative ones from
      the back, anything else raises IndexError. */
  function PyIndex(i: int, n: nat): (r: Result<nat>)
    ensures r.Ok? <==> -(n as int) <= i < n
    ensures r.Ok? ==> r.value < n
    ensures r.Ok? && 0 <= i ==> r.value == i
    ensures r.Ok? && i < 0 ==> r.value + (-i) == n
  {
    if 0 <= i < n then Ok(i)
    else if -(n as int) <= i < 0 then Ok(n + i)
    else Err(IndexOutOfRange)
  }

  /** `xs` without its element at position `k` (what `list.pop(k)` leaves). */
  function RemoveAt<T>(xs: seq<T>, k: nat): (r: seq<T>)
    requires k < |xs|
    ensures |r| + 1 == |xs|
    ensures forall j :: 0 <= j < k ==> r[j] == xs[j]
    ensures forall j :: k <= j < |r| ==> r[j] == xs[j + 1]
    ensures multiset(r) + multiset{xs[k]} == multiset(xs)
  {
    assert xs == xs[..k] + [xs[k]] + xs[k + 1..];
    xs[..k] + xs[k + 1..]
  }

  /** Removing a later element keeps the head in front. */
  lemma RemoveAtBehindHead<T>(xs: seq<T>, k: nat)
    requires 0 < k < |xs|
    ensures RemoveAt(xs, k) == [xs[0]] + RemoveAt(xs[1..], k - 1)
  {
  }

  /** `xs` with its element at position `k` replaced by `x` (`xs[k] = x`). */
  function ReplaceAt<T>(xs: seq<T>, k: nat, x: T): (r: seq<T>)
    requires k < |xs|
    ensures |r| == |xs|
    ensures r[k] == x
    ensures forall j :: 0 <= j < |xs| && j != k ==> r[j] == xs[j]
  {
    xs[k := x]
  }
}
