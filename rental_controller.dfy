/**
 * The rental handlers: the rental list, whose query strings become a filter,
 * a sort, a page and a limit; one rental by id; and the rental filter options,
 * which this handler reads from three collaborators itself and formats into
 * display names.
 */
module RentalController {
  import opened Values
  import opened Pagination
  import opened Sorting
  import opened QueryParams
  import opened Responses
  import opened RentalService

  /** The query strings of the rental list, each possibly missing. */
  datatype RentalsQuery = RentalsQuery(
    startDate: Option<string>, endDate: Option<string>,
    storeId: Option<string>, customerId: Option<string>, filmId: Option<string>,
    sortField: Option<string>, sortOrder: Option<string>,
    page: Option<string>, limit: Option<string>)

  /** `new Date(text)` as a timestamp in milliseconds. */
  type DateParser = string -> int

  const RentalsFailed: string := "An error occurred while fetching rentals."
  const RentalNotFound: string := "Rental not found"
  const RentalFailed: string := "An error occurred while fetching the rental."
  const OptionsFailed: string := "An error occurred while fetching filter options."

  /**
   * The filter of a rental-list query: a date range only when both dates are
   * non-empty, and each id coerced only when its string is non-empty.
   */
  function RentalFilterOf(q: RentalsQuery, toNumber: NumberParser, toDate: DateParser): (f: RentalFilter)
    ensures f.dateRange.Some? <==> TruthyText(q.startDate) && TruthyText(q.endDate)
    ensures f.dateRange.Some? ==> f.dateRange.value == DateRange(toDate(q.startDate.value), toDate(q.endDate.value))
    ensures f.storeId == IdOf(q.storeId, toNumber)
    ensures f.customerId == IdOf(q.customerId, toNumber)
    ensures f.filmId == IdOf(q.filmId, toNumber)
  {
    RentalFilter(
      if TruthyText(q.startDate) && TruthyText(q.endDate)
      then Some(DateRange(toDate(q.startDate.value), toDate(q.endDate.value)))
      else None,
      IdOf(q.storeId, toNumber), IdOf(q.customerId, toNumber), IdOf(q.filmId, toNumber))
  }

  /**
   * A rental list is restricted by date only when both dates are given: with
   * one of them missing or empty, the `where` object has no `rental_date` key.
   */
  lemma DateFilterNeedsBothDates(q: RentalsQuery, toNumber: NumberParser, toDate: DateParser)
    ensures RentalDateKey in RentalWhereOf(Some(RentalFilterOf(q, toNumber, toDate)))
            <==> TruthyText(q.startDate) && TruthyText(q.endDate)
  {
  }

  /**
   * A non-empty store id that coerces to 0, such as "0", reaches the service
   * as 0, which is falsy there: the store restriction is dropped and the
   * rentals of every store are listed.
   */
  lemma ZeroStoreIdIsIgnored(q: RentalsQuery, toNumber: NumberParser, toDate: DateParser, r: Rental)
    requires q.storeId.Some? && q.storeId.value != "" && toNumber(q.storeId.value) == Some(0)
    requires q.startDate.None? && q.customerId.None? && q.filmId.None?
    ensures RentalFilterOf(q, toNumber, toDate).storeId == Some(0)
    ensures Matches(RentalWhereOf(Some(RentalFilterOf(q, toNumber, toDate))), r)
  {
    var f := RentalFilterOf(q, toNumber, toDate);
    RentalWhereMeaning(Some(f), r);
  }

  /** The arguments the list handler passes to the service. */
  datatype RentalsCall = RentalsCall(filter: RentalFilter, sort: Option<Sort>, page: int, limit: int)

  /** The service call a rental-list query leads to: page and limit fall back to 1 and 10 when missing, 0 or not numbers. */
  function RentalsCallOf(q: RentalsQuery, toNumber: NumberParser, toDate: DateParser): (c: RentalsCall)
    ensures c.filter == RentalFilterOf(q, toNumber, toDate)
    ensures c.sort == SortOf(q.sortField, q.sortOrder)
    ensures c.page == NumberOr(NumberOf(q.page, toNumber), DefaultPage) && c.page != 0
    ensures c.limit == NumberOr(NumberOf(q.limit, toNumber), DefaultLimit) && c.limit != 0
  {
    RentalsCall(
      RentalFilterOf(q, toNumber, toDate),
      SortOf(q.sortField, q.sortOrder),
      NumberOr(NumberOf(q.page, toNumber), DefaultPage),
      NumberOr(NumberOf(q.limit, toNumber), DefaultLimit))
  }

  /**
   * `GET /api/rentals`: the service's page of rentals with 200, or 500 when it
   * throws. The limit is never 0, so `totalPages` is never `null`.
   */
  method GetRentalsHandler(q: RentalsQuery, toNumber: NumberParser, toDate: DateParser, db: RentalDb)
    returns (resp: Response<Paged<EnrichedRental>>)
    ensures resp.status == 200 || resp.status == 500
    ensures resp.status == 500 ==> resp.body == Failure(InternalServerError, RentalsFailed)
    ensures var c := RentalsCallOf(q, toNumber, toDate);
            var where := RentalWhereOf(Some(c.filter));
            var rows := db.findMany(FindArgs(where, OrderByOf(c.sort), Skip(c.page, c.limit), c.limit));
            var total := db.count(where);
            && (resp.status == 200 <==> rows.Resolved? && total.Resolved?)
            && (resp.status == 200 ==> resp.body == Payload(Envelope(EnrichAll(rows.value), total.value, c.page, c.limit)))
    ensures resp.status == 200 ==>
      var c := RentalsCallOf(q, toNumber, toDate);
      && resp.body.Payload?
      && resp.body.value.pagination.totalPages.Some?
      && (HonoursWhere(db) ==> forall e :: e in resp.body.value.data ==> RentalSatisfies(Some(c.filter), e.rental))
  {
    var call := RentalsCallOf(q, toNumber, toDate);
    var result := GetRentals(Some(call.filter), call.sort, call.page, call.limit, db);
    resp := ListResponse(result, RentalsFailed);
  }

  /** `GET /api/rentals/{id}`: the rental and its duration with 200, 404 when there is none, 500 when the lookup throws. */
  function GetRentalByIdHandler(id: int, db: RentalDb): (resp: Response<EnrichedRental>)
    ensures resp.status == 404 <==> db.findUnique(id) == Resolved(None)
    ensures resp.status == 404 ==> resp.body == NotFound(RentalNotFound)
    ensures resp.status == 500 <==> db.findUnique(id).Rejected?
    ensures resp.status == 500 ==> resp.body == Failure(InternalServerError, RentalFailed)
    ensures resp.status == 200 <==> exists row :: db.findUnique(id) == Resolved(Some(row)) && resp.body == Payload(Enrich(row))
    ensures HonoursWhere(db) && resp.status == 200 ==> resp.body.Payload? && resp.body.value.rental.rentalId == id
  {
    DetailResponse(GetRentalById(id, db), RentalNotFound, RentalFailed)
  }

  // ---------------------------------------------------------------------------
  // Filter options

  /** A store with the street line and the city name of its address. */
  datatype StoreAddress = StoreAddress(storeId: int, address: string, city: string)

  datatype Customer = Customer(customerId: int, firstName: string, lastName: string)

  datatype FilmTitle = FilmTitle(filmId: int, title: string)

  /** A choice offered to the client: an id and a display name. */
  datatype NamedOption = NamedOption(id: int, name: string)

  datatype RentalFilterOptions = RentalFilterOptions(stores: seq<NamedOption>, customers: seq<NamedOption>, films: seq<FilmTitle>)

  /** The three queries the options handler runs side by side. */
  datatype OptionsDb = OptionsDb(stores: Settled<seq<StoreAddress>>, customers: Settled<seq<Customer>>, films: Settled<seq<FilmTitle>>)

  /** `a + sep + b`, from which `a` and `b` can be read back given the length of `a`. */
  function Joined(a: string, sep: string, b: string): (s: string)
    ensures |s| == |a| + |sep| + |b|
    ensures s[..|a|] == a && s[|a|..|a| + |sep|] == sep && s[|a| + |sep|..] == b
  {
    a + sep + b
  }

  /** Each store named "street, city", in the order the stores came. */
  function StoreOptions(stores: seq<StoreAddress>): (r: seq<NamedOption>)
    ensures |r| == |stores|
    ensures forall i :: 0 <= i < |stores| ==>
      r[i].id == stores[i].storeId && r[i].name == Joined(stores[i].address, ", ", stores[i].city)
  {
    seq(|stores|, i requires 0 <= i < |stores| => NamedOption(stores[i].storeId, Joined(stores[i].address, ", ", stores[i].city)))
  }

  /** Each customer named "first last", in the order the customers came. */
  function CustomerOptions(customers: seq<Customer>): (r: seq<NamedOption>)
    ensures |r| == |customers|
    ensures forall i :: 0 <= i < |customers| ==>
      r[i].id == customers[i].customerId && r[i].name == Joined(customers[i].firstName, " ", customers[i].lastName)
  {
    seq(|customers|, i requires 0 <= i < |customers| =>
      NamedOption(customers[i].customerId, Joined(customers[i].firstName, " ", customers[i].lastName)))
  }

  /**
   * The formatted options, or `Rejected` when any of the three queries
   * threw; the films are passed on with their id and title as read.
   */
  function RentalFilterOptionsOf(db: OptionsDb): (r: Settled<RentalFilterOptions>)
    ensures r.Resolved? <==> db.stores.Resolved? && db.customers.Resolved? && db.films.Resolved?
    ensures r.Resolved? ==>
      && r.value.stores == StoreOptions(db.stores.value)
      && r.value.customers == CustomerOptions(db.customers.value)
      && r.value.films == db.films.value
  {
    match All(db.stores, All(db.customers, db.films))
    case Rejected => Rejected
    case Resolved((stores, (customers, films))) =>
      Resolved(RentalFilterOptions(StoreOptions(stores), CustomerOptions(customers), films))
  }

  /** `GET /api/rentals/filter-options`: the options with 200, or 500 when any query throws. */
  function GetFilterOptionsHandler(db: OptionsDb): (resp: Response<RentalFilterOptions>)
    ensures resp.status == 200 <==> db.stores.Resolved? && db.customers.Resolved? && db.films.Resolved?
    ensures resp.status == 200 ==> resp.body == Payload(RentalFilterOptionsOf(db).value)
    ensures resp.status != 200 ==> resp == Response(500, Failure(InternalServerError, OptionsFailed))
  {
    ListResponse(RentalFilterOptionsOf(db), OptionsFailed)
  }
}
