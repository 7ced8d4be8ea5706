/** Option and Result values used across the model in place of Python's None
    and of exceptions that the source catches; Python's slice `xs[:n]` and the
    minimum and maximum of a list. */
module Common {

  /** A value that may be missing (Python's None, JavaScript's null/undefined). */
  datatype Option<+T> = None | Some(value: T) {
    function GetOr(default: T): T {
      match this
      case Some(v) => v
      case None => default
    }
  }

  /** The outcome of an operation that the source wraps in try/except. */
  datatype Result<+T> = Ok(value: T) | Err(message: string)

  /** Python's `a or b` on optional strings: `a` when it is a non-empty string, else `b`. */
  function OrElse(a: Option<string>, b: string): (r: string)
    ensures a.Some? && a.value != [] ==> r == a.value
    ensures a.None? || a.value == [] ==> r == b
  {
    if a.Some? && a.value != [] then a.value else b
  }

  /** Python truthiness of an optional string. */
  predicate Truthy(a: Option<string>) {
    a.Some? && a.value != []
  }

  /** `xs[:n]`. */
  function Take<T>(xs: seq<T>, n: nat): (r: seq<T>)
    ensures |r| == if |xs| <= n then |xs| else n
    ensures forall i :: 0 <= i < |r| ==> r[i] == xs[i]
  {
    if |xs| <= n then xs else xs[..n]
  }

  /** Python truthiness of an optional price: present and not 0. */
  predicate Priced(price: Option<nat>) {
    price.Some? && price.value != 0
  }

  /** The least value, as `min` and `Math.min` give it; None for no values (where `min`
      raises and `Math.min` gives Infinity). */
  function MinOf(prices: seq<int>): (r: Option<int>)
    ensures r.None? <==> prices == []
    ensures r.Some? ==> r.value in prices && forall v :: v in prices ==> r.value <= v
  {
    if prices == [] then None
    else
      var rest := MinOf(prices[1..]);
      assert forall v :: v in prices ==> v == prices[0] || v in prices[1..];
      if rest.None? || prices[0] <= rest.value then Some(prices[0]) else rest
  }

  /** The greatest value; None for no values (where `max` raises and `Math.max` gives
      -Infinity). */
  function MaxOf(prices: seq<int>): (r: Option<int>)
    ensures r.None? <==> prices == []
    ensures r.Some? ==> r.value in prices && forall v :: v in prices ==> v <= r.value
  {
    if prices == [] then None
    else
      var rest := MaxOf(prices[1..]);
      assert forall v :: v in prices ==> v == prices[0] || v in prices[1..];
      if rest.None? || prices[0] >= rest.value then Some(prices[0]) else rest
  }
}
