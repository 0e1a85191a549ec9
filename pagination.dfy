/**
 * The pager and the result envelope shared by every list endpoint:
 * `skip = (page - 1) * limit`, `take = limit`, and
 * `{ data, pagination: { total, page, limit, totalPages: Math.ceil(total / limit) } }`.
 *
 * Nothing validates `page` or `limit`: the film list passes an explicit 0 through
 * and `Number(x) || 10` keeps a negative value, so the arithmetic is stated for
 * every integer. `Math.ceil(total / 0)` is Infinity or NaN, which JSON writes as
 * `null`; `TotalPages` returns `None` for it.
 */
module Pagination {
  import opened Values

  /** Defaults used when a handler or a service is given no page or limit. */
  const DefaultPage: int := 1
  const DefaultLimit: int := 10

  /** `q` is the ceiling of the rational number `a / b`. */
  ghost predicate IsCeil(q: int, a: int, b: int) {
    (b > 0 && (q - 1) * b < a <= q * b) || (b < 0 && q * b <= a < (q - 1) * b)
  }

  /** `Math.ceil(a / b)` on integers, for a divisor of either sign. */
  function CeilDiv(a: int, b: int): (q: int)
    requires b != 0
    ensures IsCeil(q, a, b)
  {
    var d := if b > 0 then b else -b;
    var n := if b > 0 then a else -a;
    var q := (n + d - 1) / d;
    assert n + d - 1 == q * d + (n + d - 1) % d;
    assert (q - 1) * d == q * d - d;
    assert b < 0 ==> q * b == -(q * d) && (q - 1) * b == -((q - 1) * d);
    q
  }

  lemma MulMonotonic(x: int, y: int, b: int)
    requires x <= y && b > 0
    ensures x * b <= y * b
  {
    assert y * b - x * b == (y - x) * b;
  }

  /** The ceiling is unique: `CeilDiv` is exactly `Math.ceil` on every input it accepts. */
  lemma CeilUnique(q1: int, q2: int, a: int, b: int)
    requires IsCeil(q1, a, b) && IsCeil(q2, a, b)
    ensures q1 == q2
  {
    var d := if b > 0 then b else -b;
    assert b < 0 ==> q1 * d == -(q1 * b) && (q1 - 1) * d == -((q1 - 1) * b);
    assert b < 0 ==> q2 * d == -(q2 * b) && (q2 - 1) * d == -((q2 - 1) * b);
    if q1 < q2 {
      MulMonotonic(q1, q2 - 1, d);
    } else if q2 < q1 {
      MulMonotonic(q2, q1 - 1, d);
    }
  }

  /** Number of rows before the requested page: `(page - 1) * limit`. */
  function Skip(page: int, limit: int): (skip: int)
    ensures page >= 1 && limit >= 0 ==> skip >= 0
    ensures page == 1 ==> skip == 0
  {
    (page - 1) * limit
  }

  /**
   * `Math.ceil(total / limit)` as it reaches the client: `None` (JSON `null`) when
   * `limit` is 0, otherwise the ceiling of the quotient.
   */
  function TotalPages(total: nat, limit: int): (r: Option<int>)
    ensures r.None? <==> limit == 0
    ensures r.Some? ==> IsCeil(r.value, total, limit)
  {
    if limit == 0 then None else Some(CeilDiv(total, limit))
  }

  /** For a positive limit, `totalPages` is the least number of `limit`-row pages that hold `total` rows. */
  lemma TotalPagesBounds(total: nat, limit: int)
    requires limit >= 1
    ensures TotalPages(total, limit).Some?
    ensures var tp := TotalPages(total, limit).value;
      && tp >= 0
      && (tp == 0 <==> total == 0)
      && (total > 0 ==> (tp - 1) * limit < total <= tp * limit)
  {
    var tp := TotalPages(total, limit).value;
    if tp < 0 {
      MulMonotonic(tp, -1, limit);
      assert false;
    }
    if total == 0 {
      CeilUnique(tp, 0, total, limit);
    }
    if tp == 0 {
      assert total <= 0 * limit;
    }
  }

  /** Consecutive pages are adjacent windows: page `p + 1` starts where page `p` ends. */
  lemma NextPageFollows(page: int, limit: int)
    ensures Skip(page + 1, limit) == Skip(page, limit) + limit
  {
    assert page * limit == (page - 1) * limit + limit;
  }

  /** Row `i` lies in the window of page `i / limit + 1`. */
  lemma PageOfRow(i: int, limit: int)
    requires limit >= 1 && 0 <= i
    ensures Skip(i / limit + 1, limit) <= i < Skip(i / limit + 1, limit) + limit
  {
    var q := i / limit;
    assert i == q * limit + i % limit;
    assert Skip(q + 1, limit) == q * limit;
  }

  /** The windows of two different pages never share a row. */
  lemma WindowsDisjoint(p1: int, p2: int, i: int, limit: int)
    requires limit >= 1
    requires Skip(p1, limit) <= i < Skip(p1, limit) + limit
    requires Skip(p2, limit) <= i < Skip(p2, limit) + limit
    ensures p1 == p2
  {
    NextPageFollows(p1 - 1, limit);
    NextPageFollows(p2 - 1, limit);
    if p1 < p2 {
      MulMonotonic(p1 - 1, p2 - 2, limit);
    } else if p2 < p1 {
      MulMonotonic(p2 - 1, p1 - 2, limit);
    }
  }

  /**
   * Every row index below `total` lies in the window of exactly one page, and
   * that page is between 1 and `totalPages`.
   */
  lemma RowOnOnePage(i: int, total: nat, limit: int)
    requires limit >= 1 && 0 <= i < total
    ensures var p := i / limit + 1;
      && 1 <= p <= TotalPages(total, limit).value
      && Skip(p, limit) <= i < Skip(p, limit) + limit
    ensures forall p :: Skip(p, limit) <= i < Skip(p, limit) + limit ==> p == i / limit + 1
  {
    var p := i / limit + 1;
    PageOfRow(i, limit);
    TotalPagesBounds(total, limit);
    var tp := TotalPages(total, limit).value;
    if tp < p {
      MulMonotonic(tp, p - 1, limit);
      assert false;
    }
    forall p' | Skip(p', limit) <= i < Skip(p', limit) + limit
      ensures p' == p
    {
      WindowsDisjoint(p', p, i, limit);
    }
  }

  /** A page past `totalPages` starts at or after the last row, so it holds no rows. */
  lemma PastLastPageIsEmpty(page: int, total: nat, limit: int)
    requires limit >= 1
    requires page > TotalPages(total, limit).value
    ensures Skip(page, limit) >= total
  {
    TotalPagesBounds(total, limit);
    var tp := TotalPages(total, limit).value;
    MulMonotonic(tp, page - 1, limit);
  }

  /** The `pagination` object of a list response. */
  datatype PageInfo = PageInfo(total: nat, page: int, limit: int, totalPages: Option<int>)

  /** A list response: `{ data, pagination }`. */
  datatype Paged<T> = Paged(data: seq<T>, pagination: PageInfo)

  /** The arguments a list endpoint passes to the collaborator's `findMany`. */
  datatype FindArgs<W> = FindArgs(where: W, orderBy: map<string, string>, skip: int, take: int)

  /** The `findMany` arguments of one page: `skip = (page - 1) * limit`, `take = limit`. */
  function PageArgs<W>(where: W, orderBy: map<string, string>, page: int, limit: int): (a: FindArgs<W>)
    ensures a.where == where && a.orderBy == orderBy && a.take == limit
    ensures a.skip == Skip(page, limit)
    ensures page >= 1 && limit >= 0 ==> a.skip >= 0
  {
    FindArgs(where, orderBy, Skip(page, limit), limit)
  }

  /**
   * The envelope: the rows unchanged, `total`, `page` and `limit` echoed, and
   * the page count of `total` rows at `limit` rows per page.
   */
  function Envelope<T>(rows: seq<T>, total: nat, page: int, limit: int): (r: Paged<T>)
    ensures r.data == rows
    ensures r.pagination.total == total && r.pagination.page == page && r.pagination.limit == limit
    ensures r.pagination.totalPages.None? <==> limit == 0
    ensures limit >= 1 ==>
              r.pagination.totalPages.Some? && (total == 0 <==> r.pagination.totalPages.value == 0)
    ensures r.pagination.totalPages.Some? ==> IsCeil(r.pagination.totalPages.value, total, limit)
  {
    TotalPagesBounds(total, if limit >= 1 then limit else 1);
    Paged(rows, PageInfo(total, page, limit, TotalPages(total, limit)))
  }
}
