/**
 * The film service: the `where` object built from a film filter, the page of
 * films with its envelope, and the post-processing of the filter options
 * (release years and actor full names).
 *
 * The database is a collaborator passed in as `FilmDb`: its `findMany`,
 * `count` and lookups are opaque functions whose settled results the service
 * reshapes.
 */
module FilmService {
  import opened Values
  import opened Pagination

  /** A film row with the relations the filters look at (its categories and actors by id). */
  datatype Film = Film(
    filmId: int,
    title: string,
    releaseYear: Option<int>,
    languageId: int,
    length: Option<int>,
    categoryIds: seq<int>,
    actorIds: seq<int>)

  datatype LengthFilter = LengthFilter(gt: Option<int>, lt: Option<int>, eq: Option<int>)

  /** The film filter after parsing; every field is optional. */
  datatype FilmFilter = FilmFilter(
    category: Option<int>,
    language: Option<int>,
    releaseYear: Option<int>,
    length: Option<LengthFilter>,
    actor: Option<int>)

  /**
   * The value stored under one key of a film `where` object:
   * a plain number, a relation test `{ some: { column: id } }`, or a
   * range `{ gt?, lt? }`.
   */
  datatype FilmClause =
    | Equals(n: int)
    | SomeWith(column: string, id: int)
    | Bounds(gt: Option<int>, lt: Option<int>)

  /** A film `where` object: the clauses, all of which must hold. */
  type FilmWhere = map<string, FilmClause>

  const CategoryKey: string := "film_category"
  const LanguageKey: string := "language_id"
  const ReleaseYearKey: string := "release_year"
  const ActorKey: string := "film_actor"
  const LengthKey: string := "length"
  const FilmKeys: set<string> := {CategoryKey, LanguageKey, ReleaseYearKey, ActorKey, LengthKey}

  // ---------------------------------------------------------------------------
  // Meaning of a where object and of a filter

  /** When a film satisfies one clause of a `where` object. */
  predicate ClauseHolds(key: string, c: FilmClause, film: Film) {
    match c
    case Equals(n) =>
      || (key == LanguageKey && film.languageId == n)
      || (key == ReleaseYearKey && film.releaseYear == Some(n))
      || (key == LengthKey && film.length == Some(n))
    case SomeWith(column, id) =>
      || (key == CategoryKey && column == "category_id" && id in film.categoryIds)
      || (key == ActorKey && column == "actor_id" && id in film.actorIds)
    case Bounds(gt, lt) =>
      && key == LengthKey
      && (gt.Some? ==> film.length.Some? && film.length.value > gt.value)
      && (lt.Some? ==> film.length.Some? && film.length.value < lt.value)
  }

  /** A `where` object selects the films that satisfy every one of its clauses. */
  predicate Matches(where: FilmWhere, film: Film) {
    forall k :: k in where ==> ClauseHolds(k, where[k], film)
  }

  /** What a length filter asks of a film: an exact length wins over the bounds. */
  predicate LengthSatisfies(l: LengthFilter, length: Option<int>) {
    if Truthy(l.eq) then length == Some(l.eq.value)
    else
      && (Truthy(l.gt) ==> length.Some? && length.value > l.gt.value)
      && (Truthy(l.lt) ==> length.Some? && length.value < l.lt.value)
  }

  /** What a film filter asks of a film, field by field; a falsy field asks nothing. */
  predicate FilmSatisfies(filter: Option<FilmFilter>, film: Film) {
    filter.Some? ==>
      var f := filter.value;
      && (Truthy(f.category) ==> f.category.value in film.categoryIds)
      && (Truthy(f.language) ==> film.languageId == f.language.value)
      && (Truthy(f.releaseYear) ==> film.releaseYear == Some(f.releaseYear.value))
      && (Truthy(f.actor) ==> f.actor.value in film.actorIds)
      && (f.length.Some? ==> LengthSatisfies(f.length.value, film.length))
  }

  // ---------------------------------------------------------------------------
  // The where object, key by key

  /** The `length` clause of a filter: `eq` replaces whatever `gt` and `lt` gave. */
  function LengthClause(l: Option<LengthFilter>): (c: Option<FilmClause>)
    ensures l.Some? && Truthy(l.value.eq) ==> c == Some(Equals(l.value.eq.value))
    ensures c.Some? && c.value.Bounds? ==> c.value.gt.Some? || c.value.lt.Some?
    ensures l.Some? && !Truthy(l.value.eq) && c.Some? ==> c.value == Bounds(WhenTruthy(l.value.gt), WhenTruthy(l.value.lt))
    ensures c.None? <==> l.None? || (!Truthy(l.value.eq) && !Truthy(l.value.gt) && !Truthy(l.value.lt))
  {
    if l.None? then None
    else if Truthy(l.value.eq) then Some(Equals(l.value.eq.value))
    else if Truthy(l.value.gt) || Truthy(l.value.lt) then Some(Bounds(WhenTruthy(l.value.gt), WhenTruthy(l.value.lt)))
    else None
  }

  /** The clause a filter puts under one key, if any. */
  function ClauseFor(f: FilmFilter, key: string): Option<FilmClause> {
    if key == CategoryKey then
      (if Truthy(f.category) then Some(SomeWith("category_id", f.category.value)) else None)
    else if key == LanguageKey then
      (if Truthy(f.language) then Some(Equals(f.language.value)) else None)
    else if key == ReleaseYearKey then
      (if Truthy(f.releaseYear) then Some(Equals(f.releaseYear.value)) else None)
    else if key == ActorKey then
      (if Truthy(f.actor) then Some(SomeWith("actor_id", f.actor.value)) else None)
    else if key == LengthKey then
      LengthClause(f.length)
    else
      None
  }

  /**
   * The `where` object of a filter, defined key by key: each truthy field
   * contributes its own key and nothing else.
   */
  function FilmWhereOf(filter: Option<FilmFilter>): (w: FilmWhere)
    ensures w.Keys <= FilmKeys
    ensures filter.None? ==> w == map[]
    ensures CategoryKey in w <==> filter.Some? && Truthy(filter.value.category)
    ensures CategoryKey in w ==> w[CategoryKey] == SomeWith("category_id", filter.value.category.value)
    ensures LanguageKey in w <==> filter.Some? && Truthy(filter.value.language)
    ensures LanguageKey in w ==> w[LanguageKey] == Equals(filter.value.language.value)
    ensures ReleaseYearKey in w <==> filter.Some? && Truthy(filter.value.releaseYear)
    ensures ReleaseYearKey in w ==> w[ReleaseYearKey] == Equals(filter.value.releaseYear.value)
    ensures ActorKey in w <==> filter.Some? && Truthy(filter.value.actor)
    ensures ActorKey in w ==> w[ActorKey] == SomeWith("actor_id", filter.value.actor.value)
    ensures LengthKey in w <==> filter.Some? && LengthClause(filter.value.length).Some?
    ensures LengthKey in w ==> w[LengthKey] == LengthClause(filter.value.length).value
  {
    if filter.None? then map[] else Partial(filter.value, FilmKeys)
  }

  /** The object produced by spreading an existing `length` value: its bounds, or none. */
  function SpreadBounds(c: Option<FilmClause>): (r: FilmClause)
    ensures r.Bounds?
    ensures c.Some? && c.value.Bounds? ==> r == c.value
    ensures !(c.Some? && c.value.Bounds?) ==> r == Bounds(None, None)
  {
    if c.Some? && c.value.Bounds? then c.value else Bounds(None, None)
  }

  /** The clauses a filter puts under the keys in `keys`. */
  function Partial(f: FilmFilter, keys: set<string>): map<string, FilmClause> {
    map k | k in keys && ClauseFor(f, k).Some? :: ClauseFor(f, k).value
  }

  /** Handling one more key adds that key's clause, if any, and changes nothing else. */
  lemma PartialStep(f: FilmFilter, keys: set<string>, k: string)
    requires k !in keys
    ensures Partial(f, keys + {k}) ==
      if ClauseFor(f, k).Some? then Partial(f, keys)[k := ClauseFor(f, k).value] else Partial(f, keys)
  {
  }

  /**
   * The where-builder as the service runs it: start from an empty object and
   * let each truthy field set its key, then set the `length` key.
   */
  method BuildFilmWhere(filter: Option<FilmFilter>) returns (where: FilmWhere)
    ensures where == FilmWhereOf(filter)
  {
    where := map[];
    if filter.Some? {
      var f := filter.value;
      assert where == Partial(f, {});
      PartialStep(f, {}, CategoryKey);
      if Truthy(f.category) {
        where := where[CategoryKey := SomeWith("category_id", f.category.value)];
      }
      assert where == Partial(f, {CategoryKey});
      PartialStep(f, {CategoryKey}, LanguageKey);
      if Truthy(f.language) {
        where := where[LanguageKey := Equals(f.language.value)];
      }
      assert where == Partial(f, {CategoryKey, LanguageKey});
      PartialStep(f, {CategoryKey, LanguageKey}, ReleaseYearKey);
      if Truthy(f.releaseYear) {
        where := where[ReleaseYearKey := Equals(f.releaseYear.value)];
      }
      assert where == Partial(f, {CategoryKey, LanguageKey, ReleaseYearKey});
      PartialStep(f, {CategoryKey, LanguageKey, ReleaseYearKey}, ActorKey);
      if Truthy(f.actor) {
        where := where[ActorKey := SomeWith("actor_id", f.actor.value)];
      }
      assert where == Partial(f, {CategoryKey, LanguageKey, ReleaseYearKey, ActorKey});
      assert {CategoryKey, LanguageKey, ReleaseYearKey, ActorKey} + {LengthKey} == FilmKeys;
      PartialStep(f, {CategoryKey, LanguageKey, ReleaseYearKey, ActorKey}, LengthKey);
      if f.length.Some? {
        where := SetLength(where, f.length.value);
      }
      assert where == Partial(f, FilmKeys);
    }
  }

  /**
   * The `length` steps: `gt` and `lt` each spread the current `length` object
   * and set their own bound; `eq` then overwrites it with a plain number.
   */
  method SetLength(where0: FilmWhere, l: LengthFilter) returns (where: FilmWhere)
    requires LengthKey !in where0
    ensures LengthClause(Some(l)).Some? ==> where == where0[LengthKey := LengthClause(Some(l)).value]
    ensures LengthClause(Some(l)).None? ==> where == where0
  {
    where := where0;
    if Truthy(l.gt) {
      var spread := SpreadBounds(Lookup(where, LengthKey));
      where := where[LengthKey := spread.(gt := Some(l.gt.value))];
    }
    if Truthy(l.lt) {
      var spread := SpreadBounds(Lookup(where, LengthKey));
      where := where[LengthKey := spread.(lt := Some(l.lt.value))];
    }
    if Truthy(l.eq) {
      where := where[LengthKey := Equals(l.eq.value)];
    }
  }

  // ---------------------------------------------------------------------------
  // Properties of the where object

  /** A filter that asks nothing: absent, or with every field absent or falsy. */
  predicate AsksNothing(filter: Option<FilmFilter>) {
    filter.Some? ==>
      var f := filter.value;
      && !Truthy(f.category) && !Truthy(f.language) && !Truthy(f.releaseYear) && !Truthy(f.actor)
      && (f.length.Some? ==> !Truthy(f.length.value.gt) && !Truthy(f.length.value.lt) && !Truthy(f.length.value.eq))
  }

  /** A filter that asks nothing gives the empty `where` object, which every film matches. */
  lemma EmptyFilterMatchesAll(filter: Option<FilmFilter>, film: Film)
    requires AsksNothing(filter)
    ensures FilmWhereOf(filter) == map[]
    ensures Matches(FilmWhereOf(filter), film)
  {
    if filter.Some? {
      forall k | k in FilmKeys ensures ClauseFor(filter.value, k).None? { }
    }
  }

  /**
   * The `where` object means what the filter asks: a film matches it exactly
   * when it satisfies every truthy field of the filter.
   */
  lemma FilmWhereMeaning(filter: Option<FilmFilter>, film: Film)
    ensures Matches(FilmWhereOf(filter), film) <==> FilmSatisfies(filter, film)
  {
    var w := FilmWhereOf(filter);
    if filter.Some? {
      var f := filter.value;
      if Matches(w, film) {
        if Truthy(f.category) { assert ClauseHolds(CategoryKey, w[CategoryKey], film); }
        if Truthy(f.language) { assert ClauseHolds(LanguageKey, w[LanguageKey], film); }
        if Truthy(f.releaseYear) { assert ClauseHolds(ReleaseYearKey, w[ReleaseYearKey], film); }
        if Truthy(f.actor) { assert ClauseHolds(ActorKey, w[ActorKey], film); }
        if LengthKey in w { assert ClauseHolds(LengthKey, w[LengthKey], film); }
      }
      if FilmSatisfies(filter, film) {
        forall k | k in w ensures ClauseHolds(k, w[k], film) {
          assert k in FilmKeys;
        }
      }
    }
  }

  /**
   * With a truthy `eq`, the `length` clause is that exact value, and changing
   * `gt` or `lt` leaves the whole `where` object unchanged.
   */
  lemma EqOverridesBounds(f: FilmFilter, gt: Option<int>, lt: Option<int>)
    requires f.length.Some? && Truthy(f.length.value.eq)
    ensures FilmWhereOf(Some(f))[LengthKey] == Equals(f.length.value.eq.value)
    ensures FilmWhereOf(Some(f.(length := Some(f.length.value.(gt := gt, lt := lt))))) == FilmWhereOf(Some(f))
  {
    var g := f.(length := Some(f.length.value.(gt := gt, lt := lt)));
    assert forall k :: ClauseFor(g, k) == ClauseFor(f, k);
  }

  // ---------------------------------------------------------------------------
  // The page of films

  datatype Category = Category(categoryId: int, name: string)
  datatype Language = Language(languageId: int, name: string)
  datatype Actor = Actor(actorId: int, firstName: string, lastName: string)

  /** The film queries of the collaborator, as opaque functions and results. */
  datatype FilmDb = FilmDb(
    findMany: FindArgs<FilmWhere> -> Settled<seq<Film>>,
    count: FilmWhere -> Settled<nat>,
    findUnique: int -> Settled<Option<Film>>,
    categories: Settled<seq<Category>>,
    languages: Settled<seq<Language>>,
    releaseYears: Settled<seq<Option<int>>>,
    actors: Settled<seq<Actor>>)

  /**
   * The collaborator returns only rows that match the `where` object it is
   * given, and a lookup by id only the film with that id.
   */
  ghost predicate HonoursWhere(db: FilmDb) {
    && (forall a :: db.findMany(a).Resolved? ==> forall film :: film in db.findMany(a).value ==> Matches(a.where, film))
    && (forall id :: db.findUnique(id).Resolved? && db.findUnique(id).value.Some? ==> db.findUnique(id).value.value.filmId == id)
  }

  /**
   * One page of films: the same `where` object goes to `findMany` and `count`,
   * no `orderBy` is passed, and the envelope echoes `page` and `limit`. When the
   * collaborator honours the `where` object, every returned film satisfies the filter.
   */
  method GetFilms(filter: Option<FilmFilter>, page: int, limit: int, db: FilmDb) returns (r: Settled<Paged<Film>>)
    ensures var where := FilmWhereOf(filter);
            var rows := db.findMany(FindArgs(where, map[], Skip(page, limit), limit));
            var total := db.count(where);
            && (r.Resolved? <==> rows.Resolved? && total.Resolved?)
            && (r.Resolved? ==> r.value == Envelope(rows.value, total.value, page, limit))
    ensures HonoursWhere(db) && r.Resolved? ==> forall film :: film in r.value.data ==> FilmSatisfies(filter, film)
  {
    var where := BuildFilmWhere(filter);
    var args := PageArgs(where, map[], page, limit);
    var both := All(db.findMany(args), db.count(where));
    if both.Rejected? {
      return Rejected;
    }
    var films := both.value.0;
    r := Resolved(Envelope(films, both.value.1, page, limit));
    if HonoursWhere(db) {
      forall film | film in films ensures FilmSatisfies(filter, film) {
        FilmWhereMeaning(filter, film);
      }
    }
  }

  // ---------------------------------------------------------------------------
  // Filter options

  datatype ActorOption = ActorOption(actorId: int, firstName: string, lastName: string, fullName: string)

  datatype FilterOptions = FilterOptions(
    categories: seq<Category>,
    languages: seq<Language>,
    years: seq<int>,
    actors: seq<ActorOption>)

  /** The release years of the distinct-years query, keeping the truthy ones in order. */
  function Years(rows: seq<Option<int>>): (ys: seq<int>)
    ensures |ys| <= |rows|
    ensures forall y :: y in ys <==> y != 0 && Some(y) in rows
  {
    if rows == [] then []
    else (if Truthy(rows[0]) then [rows[0].value] else []) + Years(rows[1..])
  }

  /** Dropping null and 0 keeps the order of the query: the years of a concatenation concatenate. */
  lemma {:induction false} YearsAppend(a: seq<Option<int>>, b: seq<Option<int>>)
    ensures Years(a + b) == Years(a) + Years(b)
  {
    if a == [] {
      assert a + b == b;
    } else {
      assert (a + b)[0] == a[0];
      assert (a + b)[1..] == a[1..] + b;
      YearsAppend(a[1..], b);
    }
  }

  /** When no row is null or 0, nothing is dropped: the years are the rows' values, one for one. */
  lemma {:induction false} YearsKeepAllTruthy(rows: seq<Option<int>>)
    requires forall i :: 0 <= i < |rows| ==> Truthy(rows[i])
    ensures |Years(rows)| == |rows|
    ensures forall i :: 0 <= i < |rows| ==> Some(Years(rows)[i]) == rows[i]
  {
    if rows != [] {
      YearsKeepAllTruthy(rows[1..]);
    }
  }

  /** Every actor gains `full_name`, first and last name joined by one space; count and order kept. */
  function WithFullNames(actors: seq<Actor>): (r: seq<ActorOption>)
    ensures |r| == |actors|
    ensures forall i :: 0 <= i < |r| ==>
      && r[i].actorId == actors[i].actorId
      && r[i].firstName == actors[i].firstName
      && r[i].lastName == actors[i].lastName
      && |r[i].fullName| == |actors[i].firstName| + 1 + |actors[i].lastName|
      && r[i].fullName[..|actors[i].firstName|] == actors[i].firstName
      && r[i].fullName[|actors[i].firstName|] == ' '
      && r[i].fullName[|actors[i].firstName| + 1..] == actors[i].lastName
  {
    seq(|actors|, i requires 0 <= i < |actors| =>
      ActorOption(actors[i].actorId, actors[i].firstName, actors[i].lastName,
                  actors[i].firstName + " " + actors[i].lastName))
  }

  /**
   * The filter options: the four lookups must all succeed; categories and
   * languages pass through, years drop null and 0, actors gain a full name.
   */
  function GetFilterOptions(db: FilmDb): (r: Settled<FilterOptions>)
    ensures r.Resolved? <==>
      db.categories.Resolved? && db.languages.Resolved? && db.releaseYears.Resolved? && db.actors.Resolved?
    ensures r.Resolved? ==>
      && r.value.categories == db.categories.value
      && r.value.languages == db.languages.value
      && r.value.years == Years(db.releaseYears.value)
      && (forall y :: y in r.value.years <==> y != 0 && Some(y) in db.releaseYears.value)
      && r.value.actors == WithFullNames(db.actors.value)
  {
    if db.categories.Resolved? && db.languages.Resolved? && db.releaseYears.Resolved? && db.actors.Resolved? then
      Resolved(FilterOptions(db.categories.value, db.languages.value,
                             Years(db.releaseYears.value), WithFullNames(db.actors.value)))
    else
      Rejected
  }
}
