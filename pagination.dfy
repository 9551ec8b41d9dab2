/**
 * Paginated retrieval (`SpotifyHandler.get_resource`): one request learns the
 * collection's `total`, then `round(total / 50) or 1` pages are requested with
 * `offset = page * 50, limit = 50` and their `items` are joined in page order.
 * A page whose request raised is skipped.
 */
module Pagination {
  import opened Wrappers
  import opened Chunking

  /** The page size the fetcher asks for. */
  const PageSize := 50

  /**
   * Python's `round(t / 50)`: the nearest integer, ties to the even one. The
   * integer formula is exact, since `(50 * q + 25) / 50` is exactly `q + 0.5`
   * as a double.
   */
  function RoundDiv(t: nat): (r: nat)
    ensures -PageSize <= 2 * (t - r * PageSize) <= PageSize
    ensures 2 * (t - r * PageSize) == PageSize ==> r % 2 == 0
    ensures 2 * (t - r * PageSize) == -PageSize ==> r % 2 == 0
  {
    var q, m := t / PageSize, t % PageSize;
    if 2 * m < PageSize then q
    else if 2 * m > PageSize then q + 1
    else if q % 2 == 0 then q
    else q + 1
  }

  /** The contract of `RoundDiv` pins down a single value: it is round-half-to-even. */
  lemma RoundDivUnique(t: nat, r: int)
    requires -PageSize <= 2 * (t - r * PageSize) <= PageSize
    requires 2 * (t - r * PageSize) == PageSize ==> r % 2 == 0
    requires 2 * (t - r * PageSize) == -PageSize ==> r % 2 == 0
    ensures r == RoundDiv(t)
  {
  }

  /** The number of page requests: `round(total / 50) or 1`. */
  function PageCount(total: nat): (n: nat)
    ensures n >= 1
    ensures n == if RoundDiv(total) == 0 then 1 else RoundDiv(total)
  {
    var r := RoundDiv(total);
    if r == 0 then 1 else r
  }

  /** `total = 120` and `total = 125` both give two pages; `total = 75` gives two, `total = 10` one. */
  lemma PageCountExamples()
    ensures PageCount(120) == 2 && PageCount(125) == 2 && PageCount(175) == 4
    ensures PageCount(75) == 2 && PageCount(10) == 1 && PageCount(0) == 1
  {
  }

  /**
   * The pages requested fall short of `total` exactly when `total / 50` rounds
   * down past a non-zero remainder: remainder below 25, or exactly 25 beside an
   * even quotient, and `total` above 25.
   */
  lemma PagesFallShort(total: nat)
    ensures PageCount(total) * PageSize < total <==>
      total > 25 && total % PageSize != 0 &&
      (total % PageSize < 25 || (total % PageSize == 25 && (total / PageSize) % 2 == 0))
  {
  }

  /** Whatever `total` is, the pages requested miss at most 25 items. */
  lemma ShortfallAtMost25(total: nat)
    ensures total - PageCount(total) * PageSize <= 25
  {
  }

  /** One page request: the query parameters `offset` and `limit`. */
  datatype PageQuery = PageQuery(offset: nat, limit: nat)

  /** The first `k` page requests, page `i` asking for `offset = i * 50, limit = 50`. */
  function Queries(k: nat): seq<PageQuery>
  {
    seq(k, (i: nat) => PageQuery(i * PageSize, PageSize))
  }

  /** The requests `get_resource` issues after learning `total`. */
  function PageQueries(total: nat): seq<PageQuery>
  {
    Queries(PageCount(total))
  }

  /**
   * The gathered items: the `items` of every page that answered, in page
   * order; `fetch(q)` is `None` when the request for `q` raised.
   */
  function Gathered<T>(fetch: PageQuery -> Option<seq<T>>, qs: seq<PageQuery>): seq<T>
  {
    if qs == [] then []
    else Gathered(fetch, qs[..|qs| - 1]) + fetch(qs[|qs| - 1]).GetOr([])
  }

  /**
   * `get_resource`: `total` is what the first request reported, `fetch` answers
   * each page request. Returns the gathered items and the page requests issued.
   */
  method GetResource<T>(total: nat, fetch: PageQuery -> Option<seq<T>>)
    returns (items: seq<T>, queries: seq<PageQuery>)
    ensures |queries| == PageCount(total)
    ensures forall k :: 0 <= k < |queries| ==> queries[k] == PageQuery(k * PageSize, PageSize)
    ensures queries == PageQueries(total)
    ensures items == Gathered(fetch, queries)
  {
    items, queries := [], [];
    for page := 0 to PageCount(total)
      invariant queries == Queries(page)
      invariant items == Gathered(fetch, queries)
    {
      var q := PageQuery(page * PageSize, PageSize);
      assert (queries + [q])[..|queries|] == queries;
      queries := queries + [q];
      match fetch(q)
      case Some(batch) =>
        items := items + batch;
      case None =>
        // the failure is logged and the page is skipped
    }
  }

  /**
   * A server that never fails and answers each request with the slice of its
   * collection at `offset .. offset + limit`.
   */
  ghost predicate ServesSlices<T>(fetch: PageQuery -> Option<seq<T>>, coll: seq<T>)
  {
    forall q :: fetch(q) == Some(coll[Min(q.offset, |coll|)..Min(q.offset + q.limit, |coll|)])
  }

  /** Against such a server the first `k` pages return the first `50 * k` items. */
  lemma {:induction false} GatheredPrefix<T>(fetch: PageQuery -> Option<seq<T>>, coll: seq<T>, k: nat)
    requires ServesSlices(fetch, coll)
    ensures Gathered(fetch, Queries(k)) == coll[..Min(k * PageSize, |coll|)]
  {
    if k > 0 {
      var qs := Queries(k);
      assert qs[..k - 1] == Queries(k - 1);
      GatheredPrefix(fetch, coll, k - 1);
      PrefixThenChunk(coll, k - 1, PageSize);
    }
  }

  /**
   * Fetching a collection of `total` items from such a server yields its first
   * `50 * PageCount(total)` items in order, so all of it exactly when the
   * pages do not fall short (see `PagesFallShort`): with 120 items only 100
   * come back.
   */
  lemma FetchFromFaithfulServer<T>(fetch: PageQuery -> Option<seq<T>>, coll: seq<T>)
    requires ServesSlices(fetch, coll)
    ensures Gathered(fetch, PageQueries(|coll|)) == coll[..Min(PageCount(|coll|) * PageSize, |coll|)]
    ensures Gathered(fetch, PageQueries(|coll|)) == coll <==> PageCount(|coll|) * PageSize >= |coll|
  {
    GatheredPrefix(fetch, coll, PageCount(|coll|));
  }
}
