/**
 * JavaScript values as the handlers see them: optional fields, settled promises
 * and the truthiness tests (`if (x)`, `x || d`, `a ? b : undefined`) that the
 * services and controllers use to decide whether a field is present.
 */
module Values {

  /** An optional field: `undefined` / `null`, or a value. */
  datatype Option<+T> = None | Some(value: T)

  /** A settled promise: resolved with a value, or rejected (a thrown error). */
  datatype Settled<+T> = Resolved(value: T) | Rejected

  /** A number used as a condition: `undefined` and `0` are falsy (NaN is modelled as `None`). */
  predicate Truthy(n: Option<int>) {
    n.Some? && n.value != 0
  }

  /** A string used as a condition: `undefined` and `""` are falsy. */
  predicate TruthyText(s: Option<string>) {
    s.Some? && s.value != ""
  }

  /** The value of a numeric field when it passes the truthiness test, `None` otherwise. */
  function WhenTruthy(n: Option<int>): (r: Option<int>)
    ensures r.Some? <==> Truthy(n)
    ensures r.Some? ==> r.value == n.value && r.value != 0
  {
    if Truthy(n) then n else None
  }

  /** `Promise.all` over two promises: it resolves only when both do, and then with both values. */
  function All<A, B>(a: Settled<A>, b: Settled<B>): (r: Settled<(A, B)>)
    ensures r.Resolved? <==> a.Resolved? && b.Resolved?
    ensures r.Resolved? ==> r.value.0 == a.value && r.value.1 == b.value
  {
    if a.Resolved? && b.Resolved? then Resolved((a.value, b.value)) else Rejected
  }

  /** Looking a key up in a dictionary-like object: `undefined` when absent. */
  function Lookup<K, V>(m: map<K, V>, k: K): (r: Option<V>)
    ensures r.Some? <==> k in m
    ensures r.Some? ==> r.value == m[k]
  {
    if k in m then Some(m[k]) else None
  }
}
