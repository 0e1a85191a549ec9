/**
 * Query parameters as the rental and store handlers read them: raw strings,
 * coerced with `Number(...)` (an opaque parser here, `None` standing for NaN),
 * and tested for truthiness on the raw string or on the number.
 */
module QueryParams {
  import opened Values

  /** `Number(text)` for a string that is present: `None` when the result is NaN. */
  type NumberParser = string -> Option<int>

  /** `Number(raw)`: a missing parameter gives NaN. */
  function NumberOf(raw: Option<string>, toNumber: NumberParser): (n: Option<int>)
    ensures raw.None? ==> n.None?
    ensures raw.Some? ==> n == toNumber(raw.value)
  {
    if raw.None? then None else toNumber(raw.value)
  }

  /**
   * An id parameter: coerced only when the raw string is non-empty, and
   * `undefined` otherwise. The test is on the string, so "0" is coerced (to 0).
   */
  function IdOf(raw: Option<string>, toNumber: NumberParser): (n: Option<int>)
    ensures !TruthyText(raw) ==> n.None?
    ensures TruthyText(raw) ==> n == toNumber(raw.value)
  {
    if TruthyText(raw) then toNumber(raw.value) else None
  }

  /** A number with a fallback: the parsed number when truthy, the default when missing, 0 or NaN. */
  function NumberOr(n: Option<int>, d: int): (r: int)
    ensures Truthy(n) ==> r == n.value
    ensures !Truthy(n) ==> r == d
    ensures d != 0 ==> r != 0
  {
    if Truthy(n) then n.value else d
  }
}
