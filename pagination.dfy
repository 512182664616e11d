/**
 * The offset pagination both `triggerFullSync` and `findAllVariantsBySku`
 * run against the database: query `take` rows from offset `skip`, append
 * them, and stop once as many rows were collected as the query reports in
 * total. The query's result set is a fixed snapshot here.
 */
module Pagination {

  /** `const take = 1000`. */
  const PageSize: nat := 1000

  function Min(a: int, b: int): int {
    if a <= b then a else b
  }

  /** `.skip(skip).take(PageSize)` over the full result set `rows`. */
  function Page<T>(rows: seq<T>, skip: nat): seq<T> {
    if skip >= |rows| then [] else rows[skip..Min(skip + PageSize, |rows|)]
  }

  /** The number of pages the loop asks for: at least one, even for no rows. */
  function PageCount(n: nat): nat {
    if n == 0 then 1 else (n + PageSize - 1) / PageSize
  }

  /**
   * The `while (hasMore)` loop: returns every row of the result set, in
   * order, after exactly `PageCount(|rows|)` queries.
   */
  method CollectPages<T>(rows: seq<T>) returns (collected: seq<T>, queries: nat)
    ensures collected == rows
    ensures queries == PageCount(|rows|)
  {
    collected := [];
    queries := 0;
    var skip: nat := 0;
    var hasMore := true;
    while hasMore
      invariant skip == queries * PageSize
      invariant hasMore ==> skip == 0 || skip < |rows|
      invariant hasMore ==> skip <= |rows| && collected == rows[..skip]
      invariant !hasMore ==> collected == rows && queries == PageCount(|rows|)
      decreases if hasMore then |rows| - skip + 1 else 0
    {
      var page, count := Page(rows, skip), |rows|;
      collected := collected + page;
      queries := queries + 1;
      if |collected| >= count {
        hasMore := false;
        assert |rows| > 0 ==> skip < |rows| <= skip + PageSize;
        assert |rows| > 0 ==> (|rows| + PageSize - 1) / PageSize == skip / PageSize + 1;
      }
      skip := skip + PageSize;
    }
  }
}
