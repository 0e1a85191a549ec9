/**
 * The rental service: the `where` and `orderBy` objects of the rental list,
 * the page with its envelope, and the `duration` in days that every rental
 * returned by the list or by the detail lookup gains.
 *
 * Timestamps are integer milliseconds since the epoch. The database is a
 * collaborator passed in as `RentalDb`.
 */
module RentalService {
  import opened Values
  import opened Pagination
  import opened Sorting

  /** A rental row with the store and film of its inventory item. */
  datatype Rental = Rental(
    rentalId: int,
    rentalDate: int,
    returnDate: Option<int>,
    customerId: int,
    storeId: int,
    filmId: int)

  datatype DateRange = DateRange(start: int, end: int)

  datatype RentalFilter = RentalFilter(
    dateRange: Option<DateRange>,
    storeId: Option<int>,
    customerId: Option<int>,
    filmId: Option<int>)

  /**
   * The value stored under one key of a rental `where` object: an inclusive
   * date range `{ gte, lte }`, an inventory test `{ store_id?, film_id? }`, or
   * a plain number.
   */
  datatype RentalClause =
    | Between(gte: int, lte: int)
    | Inventory(storeId: Option<int>, filmId: Option<int>)
    | Equals(n: int)

  type RentalWhere = map<string, RentalClause>

  const RentalDateKey: string := "rental_date"
  const InventoryKey: string := "inventory"
  const CustomerKey: string := "customer_id"
  const RentalKeys: set<string> := {RentalDateKey, InventoryKey, CustomerKey}

  // ---------------------------------------------------------------------------
  // Meaning of a where object and of a filter

  predicate ClauseHolds(key: string, c: RentalClause, r: Rental) {
    match c
    case Between(gte, lte) => key == RentalDateKey && gte <= r.rentalDate <= lte
    case Inventory(s, f) =>
      && key == InventoryKey
      && (s.Some? ==> r.storeId == s.value)
      && (f.Some? ==> r.filmId == f.value)
    case Equals(n) => key == CustomerKey && r.customerId == n
  }

  /** A `where` object selects the rentals that satisfy every one of its clauses. */
  predicate Matches(where: RentalWhere, r: Rental) {
    forall k :: k in where ==> ClauseHolds(k, where[k], r)
  }

  /** What a rental filter asks of a rental; a falsy id asks nothing. */
  predicate RentalSatisfies(filter: Option<RentalFilter>, r: Rental) {
    filter.Some? ==>
      var f := filter.value;
      && (f.dateRange.Some? ==> f.dateRange.value.start <= r.rentalDate <= f.dateRange.value.end)
      && (Truthy(f.storeId) ==> r.storeId == f.storeId.value)
      && (Truthy(f.customerId) ==> r.customerId == f.customerId.value)
      && (Truthy(f.filmId) ==> r.filmId == f.filmId.value)
  }

  // ---------------------------------------------------------------------------
  // The where object

  /**
   * The `where` object of a filter, key by key: the date range under
   * `rental_date`, the store and film ids together under `inventory`, the
   * customer id under `customer_id`.
   */
  function RentalWhereOf(filter: Option<RentalFilter>): (w: RentalWhere)
    ensures w.Keys <= RentalKeys
    ensures filter.None? ==> w == map[]
    ensures RentalDateKey in w <==> filter.Some? && filter.value.dateRange.Some?
    ensures RentalDateKey in w ==>
      w[RentalDateKey] == Between(filter.value.dateRange.value.start, filter.value.dateRange.value.end)
    ensures InventoryKey in w <==> filter.Some? && (Truthy(filter.value.storeId) || Truthy(filter.value.filmId))
    ensures InventoryKey in w ==>
      w[InventoryKey] == Inventory(WhenTruthy(filter.value.storeId), WhenTruthy(filter.value.filmId))
    ensures CustomerKey in w <==> filter.Some? && Truthy(filter.value.customerId)
    ensures CustomerKey in w ==> w[CustomerKey] == Equals(filter.value.customerId.value)
  {
    if filter.None? then map[]
    else
      var f := filter.value;
      var dates := if f.dateRange.Some? then map[RentalDateKey := Between(f.dateRange.value.start, f.dateRange.value.end)] else map[];
      var inventory := if Truthy(f.storeId) || Truthy(f.filmId) then map[InventoryKey := Inventory(WhenTruthy(f.storeId), WhenTruthy(f.filmId))] else map[];
      var customer := if Truthy(f.customerId) then map[CustomerKey := Equals(f.customerId.value)] else map[];
      dates + inventory + customer
  }

  /** The object produced by spreading an existing `inventory` value: its ids, or none. */
  function SpreadInventory(c: Option<RentalClause>): (r: RentalClause)
    ensures r.Inventory?
    ensures c.Some? && c.value.Inventory? ==> r == c.value
    ensures !(c.Some? && c.value.Inventory?) ==> r == Inventory(None, None)
  {
    if c.Some? && c.value.Inventory? then c.value else Inventory(None, None)
  }

  /**
   * The where-builder as the service runs it: the date range, then a fresh
   * `inventory` object for the store, then the customer, then the film id
   * merged into whatever `inventory` object is already there.
   */
  method BuildRentalWhere(filter: Option<RentalFilter>) returns (where: RentalWhere)
    ensures where == RentalWhereOf(filter)
  {
    where := map[];
    if filter.Some? {
      var f := filter.value;
      if f.dateRange.Some? {
        where := where[RentalDateKey := Between(f.dateRange.value.start, f.dateRange.value.end)];
      }
      if Truthy(f.storeId) {
        where := where[InventoryKey := Inventory(Some(f.storeId.value), None)];
      }
      if Truthy(f.customerId) {
        where := where[CustomerKey := Equals(f.customerId.value)];
      }
      if Truthy(f.filmId) {
        var spread := SpreadInventory(Lookup(where, InventoryKey));
        where := where[InventoryKey := spread.(filmId := Some(f.filmId.value))];
      }
      assert where.Keys == RentalWhereOf(filter).Keys;
    }
  }

  /** The `where` object means what the filter asks. */
  lemma RentalWhereMeaning(filter: Option<RentalFilter>, r: Rental)
    ensures Matches(RentalWhereOf(filter), r) <==> RentalSatisfies(filter, r)
  {
    var w := RentalWhereOf(filter);
    if filter.Some? {
      var f := filter.value;
      if Matches(w, r) {
        if f.dateRange.Some? { assert ClauseHolds(RentalDateKey, w[RentalDateKey], r); }
        if InventoryKey in w { assert ClauseHolds(InventoryKey, w[InventoryKey], r); }
        if Truthy(f.customerId) { assert ClauseHolds(CustomerKey, w[CustomerKey], r); }
      }
      if RentalSatisfies(filter, r) {
        forall k | k in w ensures ClauseHolds(k, w[k], r) {
          assert k in RentalKeys;
        }
      }
    }
  }

  /**
   * The `film_id` step keeps an existing `store_id`: with both ids truthy the
   * rentals selected are those of that film at that store.
   */
  lemma InventoryKeepsBoth(f: RentalFilter, r: Rental)
    requires Truthy(f.storeId) && Truthy(f.filmId)
    ensures RentalWhereOf(Some(f))[InventoryKey] == Inventory(f.storeId, f.filmId)
    ensures Matches(RentalWhereOf(Some(f)), r) ==> r.storeId == f.storeId.value && r.filmId == f.filmId.value
  {
    RentalWhereMeaning(Some(f), r);
  }

  // ---------------------------------------------------------------------------
  // Duration

  /** Milliseconds in a day: 1000 * 60 * 60 * 24. */
  const MillisPerDay: int := 86_400_000

  /**
   * `null` without a return date; otherwise the time between rental and
   * return in days, rounded up.
   */
  function Duration(rentalDate: int, returnDate: Option<int>): (d: Option<int>)
    ensures d.None? <==> returnDate.None?
    ensures d.Some? ==> IsCeil(d.value, returnDate.value - rentalDate, MillisPerDay)
  {
    if returnDate.None? then None else Some(CeilDiv(returnDate.value - rentalDate, MillisPerDay))
  }

  /** A return exactly `k` days after the rental lasts `k` days. */
  lemma DurationWholeDays(rentalDate: int, k: int)
    ensures Duration(rentalDate, Some(rentalDate + k * MillisPerDay)) == Some(k)
  {
    var d := Duration(rentalDate, Some(rentalDate + k * MillisPerDay)).value;
    assert (k - 1) * MillisPerDay == k * MillisPerDay - MillisPerDay;
    CeilUnique(d, k, k * MillisPerDay, MillisPerDay);
  }

  /** A return after the rental lasts at least one day, and any started day counts as a whole one. */
  lemma DurationRoundsUp(rentalDate: int, returnDate: int)
    requires returnDate > rentalDate
    ensures var d := Duration(rentalDate, Some(returnDate)).value;
      d >= 1 && returnDate <= rentalDate + d * MillisPerDay && rentalDate + (d - 1) * MillisPerDay < returnDate
  {
    var d := Duration(rentalDate, Some(returnDate)).value;
    if d < 1 {
      MulMonotonic(d, 0, MillisPerDay);
    }
  }

  /** A rental as returned to the client: every column kept, `duration` added. */
  datatype EnrichedRental = EnrichedRental(rental: Rental, duration: Option<int>)

  function Enrich(r: Rental): (e: EnrichedRental)
    ensures e.rental == r
    ensures e.duration.None? <==> r.returnDate.None?
    ensures e.duration.Some? ==> IsCeil(e.duration.value, r.returnDate.value - r.rentalDate, MillisPerDay)
  {
    EnrichedRental(r, Duration(r.rentalDate, r.returnDate))
  }

  /** The rows of a page, each enriched; count and order are kept. */
  function EnrichAll(rows: seq<Rental>): (es: seq<EnrichedRental>)
    ensures |es| == |rows|
    ensures forall i :: 0 <= i < |rows| ==> es[i] == Enrich(rows[i])
  {
    seq(|rows|, i requires 0 <= i < |rows| => Enrich(rows[i]))
  }

  // ---------------------------------------------------------------------------
  // List and detail

  datatype RentalDb = RentalDb(
    findMany: FindArgs<RentalWhere> -> Settled<seq<Rental>>,
    count: RentalWhere -> Settled<nat>,
    findUnique: int -> Settled<Option<Rental>>)

  /**
   * The collaborator returns only rows that match the `where` object it is
   * given, and a lookup by id only the rental with that id.
   */
  ghost predicate HonoursWhere(db: RentalDb) {
    && (forall a :: db.findMany(a).Resolved? ==> forall r :: r in db.findMany(a).value ==> Matches(a.where, r))
    && (forall id :: db.findUnique(id).Resolved? && db.findUnique(id).value.Some? ==> db.findUnique(id).value.value.rentalId == id)
  }

  /**
   * One page of rentals: the same `where` object goes to `findMany` and
   * `count`, the sort becomes `orderBy`, every row gains its duration, and a
   * failed query is rethrown.
   */
  method GetRentals(filter: Option<RentalFilter>, sort: Option<Sort>, page: int, limit: int, db: RentalDb)
    returns (r: Settled<Paged<EnrichedRental>>)
    ensures var where := RentalWhereOf(filter);
            var rows := db.findMany(FindArgs(where, OrderByOf(sort), Skip(page, limit), limit));
            var total := db.count(where);
            && (r.Resolved? <==> rows.Resolved? && total.Resolved?)
            && (r.Resolved? ==> r.value == Envelope(EnrichAll(rows.value), total.value, page, limit))
    ensures HonoursWhere(db) && r.Resolved? ==>
      forall e :: e in r.value.data ==> RentalSatisfies(filter, e.rental)
  {
    var where := BuildRentalWhere(filter);
    var orderBy := BuildOrderBy(sort);
    var args := PageArgs(where, orderBy, page, limit);
    var both := All(db.findMany(args), db.count(where));
    if both.Rejected? {
      return Rejected;
    }
    var rentals := both.value.0;
    var enriched := EnrichAll(rentals);
    r := Resolved(Envelope(enriched, both.value.1, page, limit));
    if HonoursWhere(db) {
      forall e | e in enriched ensures RentalSatisfies(filter, e.rental) {
        var i :| 0 <= i < |enriched| && enriched[i] == e;
        RentalWhereMeaning(filter, rentals[i]);
      }
    }
  }

  /**
   * One rental by id: `null` when no row matches, otherwise the row with its
   * duration, computed as in the list; a failed query is rethrown.
   */
  function GetRentalById(id: int, db: RentalDb): (r: Settled<Option<EnrichedRental>>)
    ensures r.Rejected? <==> db.findUnique(id).Rejected?
    ensures r.Resolved? ==> (r.value.None? <==> db.findUnique(id).value.None?)
    ensures r.Resolved? && r.value.Some? ==>
      && r.value.value.rental == db.findUnique(id).value.value
      && r.value.value == Enrich(db.findUnique(id).value.value)
    ensures HonoursWhere(db) && r.Resolved? && r.value.Some? ==> r.value.value.rental.rentalId == id
  {
    match db.findUnique(id)
    case Rejected => Rejected
    case Resolved(None) => Resolved(None)
    case Resolved(Some(row)) => Resolved(Some(Enrich(row)))
  }
}
