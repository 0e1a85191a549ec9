/**
 * The store service: the store list (whose `where` object looks only at the
 * city), the detail lookup that always attaches the store's rentals, and the
 * paged staff and rentals of one store.
 *
 * The database is a collaborator passed in as `StoreDb`.
 */
module StoreService {
  import opened Values
  import opened Pagination
  import opened Sorting
  import RentalService

  /** A store row with the city of its address. */
  datatype Store = Store(storeId: int, city: string)

  datatype Staff = Staff(staffId: int, storeId: int, firstName: string, lastName: string)

  datatype StaffCountFilter = StaffCountFilter(gt: Option<int>, lt: Option<int>, eq: Option<int>)

  datatype StoreFilter = StoreFilter(city: Option<string>, zipCode: Option<string>, staffCount: Option<StaffCountFilter>)

  /** The one clause a store `where` object can hold: a case-insensitive substring test on the city name. */
  datatype StoreClause = CityContains(text: string)

  type StoreWhere = map<string, StoreClause>

  const AddressKey: string := "address"

  // ---------------------------------------------------------------------------
  // Meaning of a where object

  /** ASCII case folding, as used by the case-insensitive `contains` test. */
  function Lower(c: char): char {
    if 'A' <= c <= 'Z' then (c as int + 32) as char else c
  }

  function LowerAll(s: string): (r: string)
    ensures |r| == |s|
    ensures forall i :: 0 <= i < |s| ==> r[i] == Lower(s[i])
  {
    seq(|s|, i requires 0 <= i < |s| => Lower(s[i]))
  }

  /** `needle` occurs in `hay` at position `i`, ignoring case. */
  predicate OccursAt(needle: string, hay: string, i: int) {
    0 <= i && i + |needle| <= |hay| && LowerAll(hay[i..i + |needle|]) == LowerAll(needle)
  }

  predicate ContainsIgnoringCase(hay: string, needle: string) {
    exists i :: 0 <= i <= |hay| && OccursAt(needle, hay, i)
  }

  predicate ClauseHolds(key: string, c: StoreClause, s: Store) {
    key == AddressKey && ContainsIgnoringCase(s.city, c.text)
  }

  predicate Matches(where: StoreWhere, s: Store) {
    forall k :: k in where ==> ClauseHolds(k, where[k], s)
  }

  // ---------------------------------------------------------------------------
  // The where object

  /** The `where` object of a store filter: only a non-empty `city` contributes. */
  function StoreWhereOf(filter: Option<StoreFilter>): (w: StoreWhere)
    ensures w.Keys <= {AddressKey}
    ensures AddressKey in w <==> filter.Some? && TruthyText(filter.value.city)
    ensures AddressKey in w ==> w[AddressKey] == CityContains(filter.value.city.value)
  {
    if filter.Some? && TruthyText(filter.value.city) then map[AddressKey := CityContains(filter.value.city.value)]
    else map[]
  }

  /** The where-builder as the service runs it: only the city is looked at. */
  method BuildStoreWhere(filter: Option<StoreFilter>) returns (where: StoreWhere)
    ensures where == StoreWhereOf(filter)
  {
    where := map[];
    if filter.Some? {
      if TruthyText(filter.value.city) {
        where := where[AddressKey := CityContains(filter.value.city.value)];
      }
    }
  }

  /**
   * The `where` object depends on the city alone: `zip_code` and
   * `staff_count` never change it, and without a city every store matches.
   */
  lemma WhereIgnoresAllButCity(f: StoreFilter, zipCode: Option<string>, staffCount: Option<StaffCountFilter>, s: Store)
    ensures StoreWhereOf(Some(f.(zipCode := zipCode, staffCount := staffCount))) == StoreWhereOf(Some(f))
    ensures !TruthyText(f.city) ==> Matches(StoreWhereOf(Some(f)), s)
    ensures TruthyText(f.city) ==> (Matches(StoreWhereOf(Some(f)), s) <==> ContainsIgnoringCase(s.city, f.city.value))
  {
    if TruthyText(f.city) {
      assert ClauseHolds(AddressKey, CityContains(f.city.value), s) <==> ContainsIgnoringCase(s.city, f.city.value);
    }
  }

  /** A city name contains itself, in any mix of case: the city filter selects the store it names. */
  lemma CityMatchesItself(s: Store, city: string)
    requires LowerAll(city) == LowerAll(s.city)
    ensures Matches(StoreWhereOf(Some(StoreFilter(Some(city), None, None))), s)
  {
    if city != "" {
      assert s.city[0..|city|] == s.city;
      assert OccursAt(city, s.city, 0);
    }
  }

  // ---------------------------------------------------------------------------
  // The collaborator

  /** The queries on the staff of one store: `{ store_id: storeId }`. */
  datatype StaffWhere = StaffOfStore(storeId: int)

  datatype StoreDb = StoreDb(
    findManyStores: FindArgs<StoreWhere> -> Settled<seq<Store>>,
    countStores: StoreWhere -> Settled<nat>,
    findUniqueStore: int -> Settled<Option<Store>>,
    allRentals: RentalService.RentalWhere -> Settled<seq<RentalService.Rental>>,
    findManyStaff: FindArgs<StaffWhere> -> Settled<seq<Staff>>,
    countStaff: StaffWhere -> Settled<nat>,
    findManyRentals: FindArgs<RentalService.RentalWhere> -> Settled<seq<RentalService.Rental>>,
    countRentals: RentalService.RentalWhere -> Settled<nat>)

  /**
   * The collaborator returns only rows that match the `where` object it is
   * given: stores by their city, staff and rentals by their store, and a
   * lookup by id only the store with that id.
   */
  ghost predicate HonoursWhere(db: StoreDb) {
    && (forall a :: db.findManyStores(a).Resolved? ==> forall s :: s in db.findManyStores(a).value ==> Matches(a.where, s))
    && (forall id :: db.findUniqueStore(id).Resolved? && db.findUniqueStore(id).value.Some? ==>
          db.findUniqueStore(id).value.value.storeId == id)
    && (forall w :: db.allRentals(w).Resolved? ==> forall r :: r in db.allRentals(w).value ==> RentalService.Matches(w, r))
    && (forall a :: db.findManyStaff(a).Resolved? ==> forall s :: s in db.findManyStaff(a).value ==> s.storeId == a.where.storeId)
    && (forall a :: db.findManyRentals(a).Resolved? ==>
          forall r :: r in db.findManyRentals(a).value ==> RentalService.Matches(a.where, r))
  }

  // ---------------------------------------------------------------------------
  // The store list

  /**
   * One page of stores: the same `where` object goes to `findMany` and
   * `count`, the sort becomes `orderBy`, and the envelope echoes `page` and `limit`.
   */
  method GetStores(filter: Option<StoreFilter>, sort: Option<Sort>, page: int, limit: int, db: StoreDb)
    returns (r: Settled<Paged<Store>>)
    ensures var where := StoreWhereOf(filter);
            var rows := db.findManyStores(FindArgs(where, OrderByOf(sort), Skip(page, limit), limit));
            var total := db.countStores(where);
            && (r.Resolved? <==> rows.Resolved? && total.Resolved?)
            && (r.Resolved? ==> r.value == Envelope(rows.value, total.value, page, limit))
    ensures HonoursWhere(db) && r.Resolved? && filter.Some? && TruthyText(filter.value.city) ==>
              forall s :: s in r.value.data ==> ContainsIgnoringCase(s.city, filter.value.city.value)
  {
    var where := BuildStoreWhere(filter);
    var orderBy := BuildOrderBy(sort);
    var args := PageArgs(where, orderBy, page, limit);
    var both := All(db.findManyStores(args), db.countStores(where));
    if both.Rejected? {
      return Rejected;
    }
    var stores := both.value.0;
    r := Resolved(Envelope(stores, both.value.1, page, limit));
    if HonoursWhere(db) && filter.Some? && TruthyText(filter.value.city) {
      forall s | s in stores ensures ContainsIgnoringCase(s.city, filter.value.city.value) {
        assert Matches(where, s);
        assert ClauseHolds(AddressKey, where[AddressKey], s);
      }
    }
  }

  // ---------------------------------------------------------------------------
  // One store

  /** The `where` object of the rentals of one store: `{ inventory: { store_id } }`. */
  function StoreRentalsWhere(storeId: int): (w: RentalService.RentalWhere)
    ensures forall r :: RentalService.Matches(w, r) <==> r.storeId == storeId
  {
    var w := map[RentalService.InventoryKey := RentalService.Inventory(Some(storeId), None)];
    assert forall r :: RentalService.Matches(w, r) <==>
      RentalService.ClauseHolds(RentalService.InventoryKey, w[RentalService.InventoryKey], r);
    w
  }

  /**
   * The detail object: the store's columns spread into it (none when no store
   * has that id) and, always, its `rentals`.
   */
  datatype StoreDetails = StoreDetails(store: Option<Store>, rentals: seq<RentalService.Rental>)

  /**
   * The store lookup and then the rentals lookup; the result is always an
   * object carrying `rentals`, even when no store has that id.
   */
  function GetStoreById(storeId: int, db: StoreDb): (r: Settled<StoreDetails>)
    ensures r.Resolved? <==> db.findUniqueStore(storeId).Resolved? && db.allRentals(StoreRentalsWhere(storeId)).Resolved?
    ensures r.Resolved? ==>
      && r.value.store == db.findUniqueStore(storeId).value
      && r.value.rentals == db.allRentals(StoreRentalsWhere(storeId)).value
    ensures HonoursWhere(db) && r.Resolved? ==>
      && (r.value.store.Some? ==> r.value.store.value.storeId == storeId)
      && (forall rental :: rental in r.value.rentals ==> rental.storeId == storeId)
  {
    match db.findUniqueStore(storeId)
    case Rejected => Rejected
    case Resolved(store) =>
      match db.allRentals(StoreRentalsWhere(storeId))
      case Rejected => Rejected
      case Resolved(rentals) => Resolved(StoreDetails(store, rentals))
  }

  /** One page of a store's staff: `findMany` and `count` are scoped to the same store id. */
  function GetStoreStaff(storeId: int, page: int, limit: int, db: StoreDb): (r: Settled<Paged<Staff>>)
    ensures var rows := db.findManyStaff(FindArgs(StaffOfStore(storeId), map[], Skip(page, limit), limit));
            var total := db.countStaff(StaffOfStore(storeId));
            && (r.Resolved? <==> rows.Resolved? && total.Resolved?)
            && (r.Resolved? ==> r.value == Envelope(rows.value, total.value, page, limit))
    ensures HonoursWhere(db) && r.Resolved? ==> forall s :: s in r.value.data ==> s.storeId == storeId
  {
    var scope := StaffOfStore(storeId);
    var both := All(db.findManyStaff(PageArgs(scope, map[], page, limit)), db.countStaff(scope));
    if both.Rejected? then Rejected else Resolved(Envelope(both.value.0, both.value.1, page, limit))
  }

  /**
   * One page of a store's rentals: `findMany` and `count` use the same
   * `where` object, which selects exactly the rentals of that store.
   */
  function GetStoreRentals(storeId: int, page: int, limit: int, db: StoreDb): (r: Settled<Paged<RentalService.Rental>>)
    ensures var rows := db.findManyRentals(FindArgs(StoreRentalsWhere(storeId), map[], Skip(page, limit), limit));
            var total := db.countRentals(StoreRentalsWhere(storeId));
            && (r.Resolved? <==> rows.Resolved? && total.Resolved?)
            && (r.Resolved? ==> r.value == Envelope(rows.value, total.value, page, limit))
    ensures HonoursWhere(db) && r.Resolved? ==> forall rental :: rental in r.value.data ==> rental.storeId == storeId
  {
    var where := StoreRentalsWhere(storeId);
    var both := All(db.findManyRentals(PageArgs(where, map[], page, limit)), db.countRentals(where));
    if both.Rejected? then Rejected else Resolved(Envelope(both.value.0, both.value.1, page, limit))
  }
}
