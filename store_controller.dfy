/**
 * The store handlers: the store list, one store by id, and the paged staff
 * and rentals of one store. The list handler reads `page` and `limit` but
 * calls the service without them, so every store list is the first page of
 * ten; and the store lookup always yields an object, so its "Store not found"
 * answer is never given.
 */
module StoreController {
  import opened Values
  import opened Pagination
  import opened Sorting
  import opened QueryParams
  import opened Responses
  import opened StoreService
  import RentalService

  /** The query strings of the store list, each possibly missing. */
  datatype StoresQuery = StoresQuery(
    city: Option<string>, zipCode: Option<string>,
    staffCountGt: Option<string>, staffCountLt: Option<string>, staffCountEq: Option<string>,
    sortField: Option<string>, sortOrder: Option<string>,
    page: Option<string>, limit: Option<string>)

  /** The query strings of a paged sub-list of one store. */
  datatype PageQuery = PageQuery(page: Option<string>, limit: Option<string>)

  const StoresFailed: string := "An error occurred while fetching stores."
  const StoreNotFound: string := "Store not found"
  const StoreFailed: string := "An error occurred while fetching the store."
  const StaffFailed: string := "An error occurred while fetching store staff."
  const RentalsFailed: string := "An error occurred while fetching store rentals."

  /**
   * The filter of a store-list query: city and zip code as given, and a
   * `staff_count` object that is always present, each bound coerced only when
   * its string is non-empty.
   */
  function StoreFilterOf(q: StoresQuery, toNumber: NumberParser): (f: StoreFilter)
    ensures f.city == q.city && f.zipCode == q.zipCode
    ensures f.staffCount.Some?
    ensures f.staffCount.value.gt == IdOf(q.staffCountGt, toNumber)
    ensures f.staffCount.value.lt == IdOf(q.staffCountLt, toNumber)
    ensures f.staffCount.value.eq == IdOf(q.staffCountEq, toNumber)
  {
    StoreFilter(q.city, q.zipCode,
      Some(StaffCountFilter(IdOf(q.staffCountGt, toNumber), IdOf(q.staffCountLt, toNumber), IdOf(q.staffCountEq, toNumber))))
  }

  /**
   * The `where` object of a store-list query depends on the city alone: the
   * staff-count bounds and the zip code select nothing.
   */
  lemma StoreQueryWhere(q: StoresQuery, toNumber: NumberParser, s: Store)
    ensures StoreWhereOf(Some(StoreFilterOf(q, toNumber))) == StoreWhereOf(Some(StoreFilter(q.city, None, None)))
    ensures Matches(StoreWhereOf(Some(StoreFilterOf(q, toNumber))), s)
            <==> !TruthyText(q.city) || ContainsIgnoringCase(s.city, q.city.value)
  {
    WhereIgnoresAllButCity(StoreFilterOf(q, toNumber), None, None, s);
  }

  /**
   * `GET /api/stores`: 200 with the first ten stores in the requested order,
   * whatever `page` and `limit` say, or 500 when the service throws.
   */
  method GetStoresHandler(q: StoresQuery, toNumber: NumberParser, db: StoreDb) returns (resp: Response<Paged<Store>>)
    ensures resp.status == 200 || resp.status == 500
    ensures resp.status == 500 ==> resp.body == Failure(InternalServerError, StoresFailed)
    ensures var where := StoreWhereOf(Some(StoreFilterOf(q, toNumber)));
            var rows := db.findManyStores(FindArgs(where, OrderByOf(SortOf(q.sortField, q.sortOrder)), 0, DefaultLimit));
            var total := db.countStores(where);
            && (resp.status == 200 <==> rows.Resolved? && total.Resolved?)
            && (resp.status == 200 ==> resp.body == Payload(Envelope(rows.value, total.value, DefaultPage, DefaultLimit)))
    ensures HonoursWhere(db) && resp.status == 200 && TruthyText(q.city) ==>
              resp.body.Payload? && forall s :: s in resp.body.value.data ==> ContainsIgnoringCase(s.city, q.city.value)
  {
    var filter := StoreFilterOf(q, toNumber);
    var sort := SortOf(q.sortField, q.sortOrder);
    var page := NumberOr(NumberOf(q.page, toNumber), DefaultPage);
    var limit := NumberOr(NumberOf(q.limit, toNumber), DefaultLimit);
    var result := GetStores(Some(filter), sort, DefaultPage, DefaultLimit, db);
    resp := ListResponse(result, StoresFailed);
  }

  /** Any resolved service result is an object, which is truthy: the lookup counts as found. */
  function AsFound(outcome: Settled<StoreDetails>): (r: Settled<Option<StoreDetails>>)
    ensures r.Resolved? <==> outcome.Resolved?
    ensures r.Resolved? ==> r.value == Some(outcome.value)
  {
    match outcome
    case Rejected => Rejected
    case Resolved(d) => Resolved(Some(d))
  }

  /**
   * `GET /api/stores/{id}`: 200 with the store details, or 500 when a lookup
   * throws. An id that names no store still gets 200, with the rentals and
   * no store columns; the 404 branch is never taken.
   */
  function GetStoreByIdHandler(id: int, db: StoreDb): (resp: Response<StoreDetails>)
    ensures resp.status != 404
    ensures resp.status == 200 <==> GetStoreById(id, db).Resolved?
    ensures resp.status == 200 ==> resp.body == Payload(GetStoreById(id, db).value)
    ensures db.findUniqueStore(id) == Resolved(None) && db.allRentals(StoreRentalsWhere(id)).Resolved? ==>
              resp.status == 200 && resp.body.value.store.None?
    ensures resp.status == 500 <==> db.findUniqueStore(id).Rejected? || db.allRentals(StoreRentalsWhere(id)).Rejected?
    ensures resp.status == 500 ==> resp.body == Failure(InternalServerError, StoreFailed)
  {
    DetailResponse(AsFound(GetStoreById(id, db)), StoreNotFound, StoreFailed)
  }

  /** `GET /api/stores/{id}/staff`: one page of the store's staff with 200, or 500 when the service throws. */
  function GetStoreStaffHandler(id: int, q: PageQuery, toNumber: NumberParser, db: StoreDb): (resp: Response<Paged<Staff>>)
    ensures var page := NumberOr(NumberOf(q.page, toNumber), DefaultPage);
            var limit := NumberOr(NumberOf(q.limit, toNumber), DefaultLimit);
            && (resp.status == 200 <==> GetStoreStaff(id, page, limit, db).Resolved?)
            && (resp.status == 200 ==>
                  && resp.body == Payload(GetStoreStaff(id, page, limit, db).value)
                  && resp.body.value.pagination.page == page && page != 0
                  && resp.body.value.pagination.limit == limit && limit != 0
                  && resp.body.value.pagination.totalPages.Some?)
    ensures resp.status != 200 ==> resp == Response(500, Failure(InternalServerError, StaffFailed))
  {
    var page := NumberOr(NumberOf(q.page, toNumber), DefaultPage);
    var limit := NumberOr(NumberOf(q.limit, toNumber), DefaultLimit);
    ListResponse(GetStoreStaff(id, page, limit, db), StaffFailed)
  }

  /** `GET /api/stores/{id}/rentals`: one page of the store's rentals with 200, or 500 when the service throws. */
  function GetStoreRentalsHandler(id: int, q: PageQuery, toNumber: NumberParser, db: StoreDb)
    : (resp: Response<Paged<RentalService.Rental>>)
    ensures var page := NumberOr(NumberOf(q.page, toNumber), DefaultPage);
            var limit := NumberOr(NumberOf(q.limit, toNumber), DefaultLimit);
            && (resp.status == 200 <==> GetStoreRentals(id, page, limit, db).Resolved?)
            && (resp.status == 200 ==>
                  && resp.body == Payload(GetStoreRentals(id, page, limit, db).value)
                  && resp.body.value.pagination.page == page && page != 0
                  && resp.body.value.pagination.limit == limit && limit != 0
                  && resp.body.value.pagination.totalPages.Some?)
    ensures resp.status != 200 ==> resp == Response(500, Failure(InternalServerError, RentalsFailed))
  {
    var page := NumberOr(NumberOf(q.page, toNumber), DefaultPage);
    var limit := NumberOr(NumberOf(q.limit, toNumber), DefaultLimit);
    ListResponse(GetStoreRentals(id, page, limit, db), RentalsFailed)
  }
}
