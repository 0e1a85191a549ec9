/**
 * The sort resolver of the rental and store lists. The controllers turn
 * `sort_field` / `sort_order` into an optional `{ field, order }`, and the
 * services turn that into Prisma's `orderBy` object, which is either empty
 * (the collaborator's own order) or holds the single pair `field: order`.
 * Neither side checks that `field` names a column or that `order` is asc/desc.
 */
module Sorting {
  import opened Values

  datatype Sort = Sort(field: string, order: string)

  /** The order used when a sort field is given without `sort_order`. */
  const DefaultOrder: string := "asc"

  /** A sort exists only when `sort_field` is non-empty; its order is `sort_order`, or ascending when that is missing or empty. */
  function SortOf(sortField: Option<string>, sortOrder: Option<string>): (s: Option<Sort>)
    ensures s.Some? <==> TruthyText(sortField)
    ensures s.Some? ==> s.value.field == sortField.value && s.value.field != ""
    ensures s.Some? ==> s.value.order == (if TruthyText(sortOrder) then sortOrder.value else DefaultOrder)
    ensures s.Some? ==> s.value.order != ""
  {
    if TruthyText(sortField) then
      Some(Sort(sortField.value, if TruthyText(sortOrder) then sortOrder.value else DefaultOrder))
    else
      None
  }

  /**
   * The one name an assignment on a plain object literal does not turn into
   * a key of its own: it reaches the inherited prototype setter, which
   * ignores a string value.
   */
  const ProtoKey: string := "__proto__"

  /** `obj[key] = value` on a plain object with string values. */
  function AssignProperty(obj: map<string, string>, key: string, value: string): (r: map<string, string>)
    ensures key == ProtoKey ==> r == obj
    ensures key != ProtoKey ==> r.Keys == obj.Keys + {key} && r[key] == value
    ensures forall k :: k in obj && k != key ==> k in r && r[k] == obj[k]
  {
    if key == ProtoKey then obj else obj[key := value]
  }

  /** Starts from an empty object and, when a sort is given, sets its field to its order. */
  method BuildOrderBy(sort: Option<Sort>) returns (orderBy: map<string, string>)
    ensures orderBy == OrderByOf(sort)
    ensures |orderBy| <= 1
    ensures sort.None? || sort.value.field == ProtoKey ==> orderBy == map[]
    ensures sort.Some? && sort.value.field != ProtoKey ==>
              orderBy.Keys == {sort.value.field} && orderBy[sort.value.field] == sort.value.order
  {
    orderBy := map[];
    if sort.Some? {
      orderBy := AssignProperty(orderBy, sort.value.field, sort.value.order);
    }
  }

  /**
   * The `orderBy` object that a sort denotes; the specification of
   * `BuildOrderBy`. A sort on `__proto__` leaves it empty, so the list keeps
   * the collaborator's own order.
   */
  function OrderByOf(sort: Option<Sort>): map<string, string> {
    if sort.Some? && sort.value.field != ProtoKey then map[sort.value.field := sort.value.order] else map[]
  }
}
