# DVD rental API: filters, pager and handlers in Dafny

This project models the read-only rental API over the Sakila DVD-rental
database: the film, rental and store endpoints. It covers the logic that sits
between an HTTP query and the ORM call:

- **Query → filter** (controllers). Loosely typed query strings become a typed
  filter, a sort, a page and a limit. Every test is JavaScript truthiness, and
  the page and limit fall back with `Number(x) || d`. The film list instead
  uses destructuring defaults, and its `filter` parameter may be a JSON string.
- **Filter → `where` object** (services). Each service builds Prisma's `where`
  object by mutating a dictionary, one truthy field at a time. Each builder is
  an imperative `method`, proved equal to a declarative key-by-key function
  (`FilmWhereOf`, `RentalWhereOf`, `StoreWhereOf`). Each of those functions is
  proved equivalent, row by row, to an independent statement of what the
  filter asks for (`FilmSatisfies`, `RentalSatisfies`, the city test).
- **Sort → `orderBy`**: an empty object, or the single pair `field: order`.
  A sort on `__proto__` leaves the object empty, because assigning that name
  on an object literal reaches the inherited prototype setter, which ignores
  a string.
- **Pager and envelope**: `skip = (page - 1) * limit`, `take = limit`, and
  `{ data, pagination: { total, page, limit, totalPages } }`.
  - `totalPages` is `Math.ceil(total / limit)`, characterised exactly for any
    non-zero limit and proved unique.
  - It is `null` when the limit is 0, as JSON writes `Infinity`/`NaN`.
- **Rental duration**: `null` without a return date, otherwise the number of
  started days between the two timestamps, in milliseconds.
- **Filter options and responses**: display names built by concatenation, the
  release years with falsy ones dropped, and the choice between 200, 400, 404
  and 500.

The database is a collaborator passed in as a record of functions (`FilmDb`,
`RentalDb`, `StoreDb`, `OptionsDb`), and each call settles as `Resolved(v)` or
`Rejected` like a promise. The contracts can therefore say:

- which `where`, `orderBy`, `skip` and `take` each query receives;
- that `count` receives the same `where` object as `findMany`;
- that a 400 answer does not depend on the database at all.

`HonoursWhere(db)` states that a collaborator returns only rows its `where`
object matches, and that a lookup by id returns only the row with that id.
Under it:

- every film or rental a list returns satisfies the request's filter;
- every store a store list returns has a city containing the requested one;
- every staff member or rental of a store's sub-list belongs to that store;
- a detail answer carries the requested id.

Two behaviours of the code are modelled as written:

- The store-list handler computes `page` and `limit` but does not pass them on,
  so every store list is the first page of ten.
- The store lookup always yields an object carrying `rentals`, so the store
  handler's "Store not found" branch is never taken. `GetStoreByIdHandler`
  proves the status is never 404, although the handler's own API
  documentation lists a `404: Store not found` response
  (src/controllers/store.controller.ts:97-98).

Modules: `Values` (options, promises, truthiness), `Pagination`, `Sorting`,
`QueryParams`, `Responses`, and one service module and one controller module
per entity.

## Model

| member | source | states |
|---|---|---|
| Values.All | src/services/film.service.ts:40-60 | `Promise.all` of two lookups resolves exactly when both resolve, with both values in order; one rejection rejects it |
| Pagination.CeilDiv | src/services/film.service.ts:68 | the integer result is the ceiling of `total / limit` for a divisor of either sign |
| Pagination.CeilUnique | src/services/film.service.ts:68 | the ceiling is unique, so `CeilDiv` is exactly `Math.ceil` of the quotient |
| Pagination.Skip | src/services/film.service.ts:38 | `skip` is non-negative for `page >= 1` and `limit >= 0`, and 0 on the first page |
| Pagination.TotalPages | src/services/rental.service.ts:108 | `totalPages` is null exactly when the limit is 0, and otherwise the ceiling of `total / limit` |
| Pagination.TotalPagesBounds | src/services/film.service.ts:62-70 | for `limit >= 1`: `totalPages >= 0`; it is 0 iff `total` is 0; and `(totalPages-1)*limit < total <= totalPages*limit` |
| Pagination.NextPageFollows | src/services/store.service.ts:54 | page `p + 1` starts exactly `limit` rows after page `p` |
| Pagination.RowOnOnePage | src/services/rental.service.ts:43-51 | every row below `total` lies in the window of exactly one page, numbered between 1 and `totalPages` |
| Pagination.PastLastPageIsEmpty | src/services/store.service.ts:54-61 | a page beyond `totalPages` skips every row |
| Pagination.PageArgs | src/services/film.service.ts:38-44 | `findMany` receives the `where` and `orderBy` unchanged, `skip = (page-1)*limit` and `take = limit` |
| Pagination.Envelope | src/services/film.service.ts:62-70 | the rows unchanged; `total`, `page` and `limit` echoed; `totalPages` null iff the limit is 0, never null and 0 iff `total` is 0 for a positive limit |
| QueryParams.NumberOf | src/controllers/rental.controller.ts:71-72 | `Number` of a missing query value is NaN; otherwise it is the coercion of the string |
| QueryParams.IdOf | src/controllers/rental.controller.ts:61-63 | an id is coerced only when its raw string is non-empty, and is `undefined` otherwise |
| QueryParams.NumberOr | src/controllers/rental.controller.ts:71-72 | `Number(x) \|\| d`: a truthy number is kept, while missing, 0 or NaN give the default; never 0 for a non-zero default |
| Responses.ListResponse | src/controllers/film.controller.ts:25-33 | a list answer is 200 with the result exactly when the service resolved, and otherwise 500 with `Internal Server Error` and the handler's message |
| Responses.DetailResponse | src/controllers/film.controller.ts:41-54 | a detail answer is 200 with the record when one was found, 404 with the message when none was, and 500 when the lookup threw |
| Sorting.SortOf | src/controllers/rental.controller.ts:66-69 | a sort exists iff `sort_field` is non-empty; its order is `sort_order`, or `asc` when that is missing or empty |
| Sorting.BuildOrderBy | src/services/rental.service.ts:38-41 | `orderBy` is empty without a sort or with a sort on `__proto__`, and otherwise holds exactly the one pair `field: order` |
| Sorting.AssignProperty | src/services/rental.service.ts:40 | assigning a key on a plain object adds that key with the value and keeps every other key, except that `__proto__` leaves the object unchanged |
| FilmService.LengthClause | src/services/film.service.ts:31-35 | a truthy `eq` yields an exact length whatever `gt`/`lt` are; otherwise the truthy bounds, and only they, form one range; with no truthy part there is no clause |
| FilmService.FilmWhereOf | src/services/film.service.ts:8-36 | each truthy field adds only its own key with its own value; falsy fields and a missing filter add nothing |
| FilmService.BuildFilmWhere | src/services/film.service.ts:8-36 | the mutating builder produces exactly `FilmWhereOf(filter)` |
| FilmService.SetLength | src/services/film.service.ts:31-35 | the read-modify-write of `where.length` leaves the other keys untouched and stores the length clause of the filter |
| FilmService.EmptyFilterMatchesAll | src/services/film.service.ts:8-10 | with no filter, or one whose fields are all falsy, the `where` object is empty and matches every film |
| FilmService.FilmWhereMeaning | src/services/film.service.ts:10-35 | a film matches the built `where` object iff it satisfies every truthy field of the filter |
| FilmService.EqOverridesBounds | src/services/film.service.ts:31-35 | with a truthy `eq`, changing `gt` and `lt` does not change the `where` object |
| FilmService.GetFilms | src/services/film.service.ts:7-71 | `findMany` gets the built `where`, no `orderBy`, `skip` and `take`; `count` gets the same `where`; the envelope of both; returned films satisfy the filter when the collaborator honours `where` |
| FilmService.Years | src/services/film.service.ts:148 | the years list holds exactly the truthy release years of the rows and is no longer than the rows |
| FilmService.YearsAppend | src/services/film.service.ts:148 | filtering the years commutes with concatenation, so query order is kept |
| FilmService.YearsKeepAllTruthy | src/services/film.service.ts:148 | when no year is null or 0, every row is kept, in order |
| FilmService.WithFullNames | src/services/film.service.ts:149-152 | same count and order; each actor keeps its fields, and `full_name` splits back into first name, a space and last name |
| FilmService.GetFilterOptions | src/services/film.service.ts:93-158 | resolves iff all four queries resolve; categories and languages unchanged, years filtered, actors given full names |
| RentalService.RentalWhereOf | src/services/rental.service.ts:13-36 | `rental_date` iff a date range is given; `inventory` iff a truthy store or film id, holding both truthy ids; `customer_id` iff truthy; nothing else |
| RentalService.BuildRentalWhere | src/services/rental.service.ts:13-36 | the mutating builder, including the `inventory` spread, produces exactly `RentalWhereOf(filter)` |
| RentalService.RentalWhereMeaning | src/services/rental.service.ts:15-35 | a rental matches the built `where` object iff it lies in the inclusive date range and has every truthy id of the filter |
| RentalService.InventoryKeepsBoth | src/services/rental.service.ts:22-35 | with truthy store and film ids, the merged `inventory` clause keeps both constraints |
| RentalService.Duration | src/services/rental.service.ts:92-94 | null iff there is no return date; otherwise the ceiling of the difference over 86 400 000 ms |
| RentalService.DurationWholeDays | src/services/rental.service.ts:92-94 | a return exactly `k` days later has duration `k` |
| RentalService.DurationRoundsUp | src/services/rental.service.ts:92-94 | a started day counts in full: duration times a day covers the elapsed time, and one day less does not |
| RentalService.Enrich | src/services/rental.service.ts:96-99 | the row is kept unchanged and only `duration` is added |
| RentalService.EnrichAll | src/services/rental.service.ts:91-100 | same count and order, with each row enriched |
| RentalService.GetRentals | src/services/rental.service.ts:7-115 | `findMany` gets the built `where`, the `orderBy` of the sort, `skip` and `take`; `count` gets the same `where`; the envelope of the enriched rows; rows satisfy the filter when the collaborator honours `where` |
| RentalService.GetRentalById | src/services/rental.service.ts:117-168 | null exactly when `findUnique` yields no row; otherwise that row enriched with the same duration rule as the list, carrying the requested id when the collaborator honours the lookup |
| StoreService.StoreWhereOf | src/services/store.service.ts:20-47 | the `address` key exists iff the city is non-empty, and holds a case-insensitive contains test on it; no other key |
| StoreService.BuildStoreWhere | src/services/store.service.ts:20-47 | the mutating builder produces exactly `StoreWhereOf(filter)` |
| StoreService.WhereIgnoresAllButCity | src/services/store.service.ts:22-47 | `zip_code` and `staff_count` never change the `where` object; without a city every store matches, and with one a store matches iff its city contains it, ignoring case |
| StoreService.CityMatchesItself | src/services/store.service.ts:27-28 | a city filter selects a store whose city equals it in any mix of case |
| StoreService.GetStores | src/services/store.service.ts:14-112 | `findMany` gets the city-only `where`, the `orderBy` of the sort, `skip` and `take`; `count` gets the same `where`; the envelope of both; each store's city contains the requested one when the collaborator honours `where` |
| StoreService.StoreRentalsWhere | src/services/store.service.ts:157-161 | the rental scope of a store matches exactly that store's rentals |
| StoreService.GetStoreById | src/services/store.service.ts:114-185 | resolves iff both lookups resolve, and then always carries `rentals`, whether or not a store has the id; under `HonoursWhere` the store and every rental belong to the requested id |
| StoreService.GetStoreStaff | src/services/store.service.ts:188-214 | `findMany` and `count` are scoped to the same store; the envelope of both; every staff member belongs to that store when the collaborator honours `where` |
| StoreService.GetStoreRentals | src/services/store.service.ts:216-256 | `findMany` and `count` use the same store scope; the envelope of both; every rental belongs to that store when the collaborator honours `where` |
| FilmController.OrIfMissing | src/controllers/film.controller.ts:10 | a destructuring default replaces only a missing value, so an explicit 0 passes through |
| FilmController.FilmsCallOf | src/controllers/film.controller.ts:10-25 | 400 (no call) iff the filter is a string that does not parse; a parsed string is replaced by its value, and an object or a missing filter is passed on unchanged |
| FilmController.TextFilterAsObject | src/controllers/film.controller.ts:13-16 | a filter string parsing to `f` leads to the same call as `f` sent as an object |
| FilmController.GetFilmsHandler | src/controllers/film.controller.ts:8-34 | 400 with `Bad Request`/`Invalid filter format` iff the filter string is not JSON, whatever the database does; otherwise 200 with exactly the envelope of the call's `findMany` and `count` iff both resolve, else 500; rows satisfy the filter under `HonoursWhere` |
| FilmController.GetFilmByIdHandler | src/controllers/film.controller.ts:38-55 | 404 `Film not found` iff `findUnique` yields no film, 200 with the film unchanged (carrying the requested id under `HonoursWhere`), and 500 iff the lookup threw |
| FilmController.GetFilterOptionsHandler | src/controllers/film.controller.ts:58-70 | 200 with the options iff the service resolved, and otherwise 500 with the handler's message |
| RentalController.RentalFilterOf | src/controllers/rental.controller.ts:56-64 | a date range iff both dates are non-empty; each id is coerced only when its string is non-empty |
| RentalController.DateFilterNeedsBothDates | src/controllers/rental.controller.ts:57-60 | the `where` object restricts `rental_date` iff both dates are given |
| RentalController.ZeroStoreIdIsIgnored | src/controllers/rental.controller.ts:61 | a store id of "0" reaches the service as 0 and adds no restriction, so every rental matches |
| RentalController.RentalsCallOf | src/controllers/rental.controller.ts:56-74 | the service receives the query's filter and sort, and page and limit defaulted to 1 and 10, neither ever 0 |
| RentalController.GetRentalsHandler | src/controllers/rental.controller.ts:52-83 | 200 with exactly the envelope of the enriched `findMany` rows and the `count` for the query's filter, sort and defaulted page and limit iff both resolve, else 500; `totalPages` never null; rows satisfy the filter under `HonoursWhere` |
| RentalController.GetRentalByIdHandler | src/controllers/rental.controller.ts:105-122 | 404 `Rental not found` iff `findUnique` yields no row, 200 with the enriched row (carrying the requested id under `HonoursWhere`), and 500 iff the lookup threw |
| RentalController.StoreOptions | src/controllers/rental.controller.ts:171-174 | same count and order; each store named street, `", "` and city, which can be split back |
| RentalController.CustomerOptions | src/controllers/rental.controller.ts:175-178 | same count and order; each customer named first name, a space and last name |
| RentalController.RentalFilterOptionsOf | src/controllers/rental.controller.ts:139-183 | resolves iff all three queries resolve; stores and customers formatted, films kept with id and title |
| RentalController.GetFilterOptionsHandler | src/controllers/rental.controller.ts:136-191 | 200 with the formatted options iff all three queries resolved, and otherwise 500 with the handler's message |
| StoreController.StoreFilterOf | src/controllers/store.controller.ts:52-60 | city and zip code copied; `staff_count` always present, each bound coerced only when its string is non-empty |
| StoreController.StoreQueryWhere | src/controllers/store.controller.ts:52-60 | a store-list query's `where` object depends on the city alone and matches stores whose city contains it |
| StoreController.GetStoresHandler | src/controllers/store.controller.ts:48-79 | the service is asked for page 1 of 10 whatever `page` and `limit` say; 200 with that envelope iff both queries resolve, else 500; each store's city contains the requested one under `HonoursWhere` |
| StoreController.AsFound | src/controllers/store.controller.ts:106 | every resolved service result counts as found |
| StoreController.GetStoreByIdHandler | src/controllers/store.controller.ts:101-118 | never 404: an unknown id gets 200 with no store columns; 500 iff a lookup threw |
| StoreController.GetStoreStaffHandler | src/controllers/store.controller.ts:146-161 | the service gets the id and page and limit defaulted to 1 and 10, neither 0; 200 with its page (`totalPages` never null), or 500 |
| StoreController.GetStoreRentalsHandler | src/controllers/store.controller.ts:189-204 | the service gets the id and page and limit defaulted to 1 and 10, neither 0; 200 with its page (`totalPages` never null), or 500 |

## Left out

- The ORM is not modelled. This covers `findMany`, `findUnique` and `count`, the
  `include`/`select` shapes and the joined relations. Rows carry only the
  columns the modelled logic reads. The collaborator's ordering, slicing by
  `skip`/`take` (including negative values) and error behaviour are opaque
  functions; the only assumption about them is `HonoursWhere`, and only where
  it is stated.
- `Promise.all` runs its lookups concurrently. Here they are evaluated in
  turn, and a rejection of either one rejects the pair.
- Hapi routing, Joi validation and Swagger metadata are framework
  configuration.
- `JSON.parse`, `new Date(text)` and `Number(text)` are library calls. They
  are function parameters (`JsonParser`, `DateParser`, `NumberParser`).
  - Invalid dates (a NaN timestamp) are not modelled.
  - Fractional numbers are not modelled.
- The film filter's fields are modelled as numbers already coerced. A string
  field such as `"0"` is truthy in the source and then coerced to 0. This model
  treats it as 0 from the start, so it adds no clause here.
- `Math.ceil(a / b)` on floating point is modelled as exact integer ceiling
  division. Only the limit-0 case (`Infinity`/`NaN`, written as `null`) is
  kept.
- StoreService.ContainsIgnoringCase folds ASCII letters only. The database's
  case-insensitive `contains` follows its own collation.
- `console.error` logging is left out. So is the distinct error the rental
  service rethrows: the handlers answer every failure with the same 500.
- The actor, category and language services and controllers are not part of
  this model. They are thin wrappers over one ORM call.
- Path ids are `Number(request.params.id)` in the source. They are modelled
  as integers, and a non-numeric id (NaN) is not modelled.
- The film service's `getFilmById` is a single `findUnique` call. It is
  modelled as the collaborator's `findUnique` that the detail handler uses.
- The store filter's `country` clause is commented out in the source and has
  no behaviour to model.
