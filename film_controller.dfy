/**
 * The film handlers: the film list (whose `filter` query parameter may arrive
 * as a JSON string), one film by id, and the film filter options. Each handler
 * answers 200 with the service's result and 500 when anything throws; the
 * list also answers 400 to a filter string that is not JSON, and the detail
 * answers 404 when no film has the id.
 */
module FilmController {
  import opened Values
  import opened Pagination
  import opened Responses
  import opened FilmService

  /** The `filter` query parameter: missing, a string still to be parsed, or an object already. */
  datatype FilterParam = NoFilter | Text(json: string) | Structured(filter: FilmFilter)

  /** The validated query of the film list. */
  datatype FilmsQuery = FilmsQuery(page: Option<int>, limit: Option<int>, filter: FilterParam)

  /**
   * `JSON.parse` of a filter string: `None` when it throws, `Some(None)` when
   * the value parsed carries no filter (such as `null`), `Some(Some(f))` otherwise.
   */
  type JsonParser = string -> Option<Option<FilmFilter>>

  const BadRequest: string := "Bad Request"
  const InvalidFilterFormat: string := "Invalid filter format"
  const FilmsFailed: string := "An error occurred while fetching films"
  const FilmNotFound: string := "Film not found"
  const FilmFailed: string := "An error occurred while fetching the film"
  const OptionsFailed: string := "An error occurred while fetching filter options"

  /** The arguments the list handler passes to the service. */
  datatype FilmsCall = FilmsCall(filter: Option<FilmFilter>, page: int, limit: int)

  /**
   * A destructuring default: only a missing value is replaced, so an explicit
   * 0 is passed on as it is.
   */
  function OrIfMissing(n: Option<int>, d: int): (r: int)
    ensures n.Some? ==> r == n.value
    ensures n.None? ==> r == d
  {
    if n.Some? then n.value else d
  }

  /**
   * The service call a film-list query leads to, or `None` when its filter
   * string is not JSON. A parsed filter string and the same filter sent as an
   * object lead to the same call.
   */
  function FilmsCallOf(q: FilmsQuery, parse: JsonParser): (c: Option<FilmsCall>)
    ensures c.None? <==> q.filter.Text? && parse(q.filter.json).None?
    ensures c.Some? ==> c.value.page == OrIfMissing(q.page, DefaultPage) && c.value.limit == OrIfMissing(q.limit, DefaultLimit)
    ensures q.filter.NoFilter? ==> c.Some? && c.value.filter.None?
    ensures q.filter.Structured? ==> c.Some? && c.value.filter == Some(q.filter.filter)
    ensures c.Some? && q.filter.Text? ==> c.value.filter == parse(q.filter.json).value
  {
    var page := OrIfMissing(q.page, DefaultPage);
    var limit := OrIfMissing(q.limit, DefaultLimit);
    match q.filter
    case NoFilter => Some(FilmsCall(None, page, limit))
    case Structured(f) => Some(FilmsCall(Some(f), page, limit))
    case Text(json) =>
      match parse(json)
      case None => None
      case Some(parsed) => Some(FilmsCall(parsed, page, limit))
  }

  /** A filter string that parses to `f` is handled exactly as `f` sent as an object. */
  lemma TextFilterAsObject(q: FilmsQuery, parse: JsonParser, f: FilmFilter)
    requires q.filter.Text? && parse(q.filter.json) == Some(Some(f))
    ensures FilmsCallOf(q, parse) == FilmsCallOf(q.(filter := Structured(f)), parse)
  {
  }

  /**
   * `GET /api/films`: 400 for a filter string that is not JSON (the service
   * is not reached, so the answer does not depend on the database), else the
   * service's page of films with 200, or 500 when the service throws.
   */
  method GetFilmsHandler(q: FilmsQuery, parse: JsonParser, db: FilmDb) returns (resp: Response<Paged<Film>>)
    ensures resp.status == 200 || resp.status == 400 || resp.status == 500
    ensures resp.status == 400 <==> FilmsCallOf(q, parse).None?
    ensures resp.status == 400 ==> resp.body == Failure(BadRequest, InvalidFilterFormat)
    ensures resp.status == 500 ==> resp.body == Failure(InternalServerError, FilmsFailed)
    ensures FilmsCallOf(q, parse).Some? ==>
      var c := FilmsCallOf(q, parse).value;
      var where := FilmWhereOf(c.filter);
      var rows := db.findMany(FindArgs(where, map[], Skip(c.page, c.limit), c.limit));
      var total := db.count(where);
      && (resp.status == 200 <==> rows.Resolved? && total.Resolved?)
      && (resp.status == 200 ==> resp.body == Payload(Envelope(rows.value, total.value, c.page, c.limit)))
    ensures resp.status == 200 ==>
      var c := FilmsCallOf(q, parse).value;
      && resp.body.Payload?
      && (HonoursWhere(db) ==> forall film :: film in resp.body.value.data ==> FilmSatisfies(c.filter, film))
  {
    var call := FilmsCallOf(q, parse);
    if call.None? {
      return Response(400, Failure(BadRequest, InvalidFilterFormat));
    }
    var result := GetFilms(call.value.filter, call.value.page, call.value.limit, db);
    resp := ListResponse(result, FilmsFailed);
  }

  /** `GET /api/films/{id}`: the film with 200, 404 when there is none, 500 when the lookup throws. */
  function GetFilmByIdHandler(id: int, db: FilmDb): (resp: Response<Film>)
    ensures resp.status == 404 <==> db.findUnique(id) == Resolved(None)
    ensures resp.status == 404 ==> resp.body == NotFound(FilmNotFound)
    ensures resp.status == 500 <==> db.findUnique(id).Rejected?
    ensures resp.status == 500 ==> resp.body == Failure(InternalServerError, FilmFailed)
    ensures resp.status == 200 <==> exists film :: db.findUnique(id) == Resolved(Some(film)) && resp.body == Payload(film)
    ensures HonoursWhere(db) && resp.status == 200 ==> resp.body.Payload? && resp.body.value.filmId == id
  {
    DetailResponse(db.findUnique(id), FilmNotFound, FilmFailed)
  }

  /** `GET /api/films/filter-options`: the options with 200, or 500 when any query throws. */
  function GetFilterOptionsHandler(db: FilmDb): (resp: Response<FilterOptions>)
    ensures resp.status == 200 <==> GetFilterOptions(db).Resolved?
    ensures resp.status == 200 ==> resp.body == Payload(GetFilterOptions(db).value)
    ensures resp.status != 200 ==> resp == Response(500, Failure(InternalServerError, OptionsFailed))
  {
    ListResponse(GetFilterOptions(db), OptionsFailed)
  }
}
