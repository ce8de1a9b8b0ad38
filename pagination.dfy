/** The `_meta` block of the pagination envelope that `paginate()` returns in
    the abstract Mongo repository and both SQL files. `paginate` is always
    called without an argument, so the page size is 10, and the repository
    computes the page count itself. */
module Pagination {
  import opened Php

  /** `paginate($perPage = 10)` */
  const DefaultPerPage: nat := 10

  /** `$response['_meta']` */
  datatype Meta = Meta(totalCount: nat, pageCount: nat, currentPage: Val, perPage: nat)

  /** `floor($count / $pagination->limit) + 1` */
  function PageCount(totalCount: nat, perPage: nat): (n: nat)
    requires perPage > 0
    ensures n >= 1
    ensures (n - 1) * perPage <= totalCount < n * perPage
  {
    totalCount / perPage + 1
  }

  /** `!empty($_GET['page']) ? $_GET['page'] : 1`: the page string as the
      request gives it, such as "00", or the integer 1. */
  function CurrentPage(page: Option<string>): (p: Val)
    ensures Given(page) ==> p == Str(page.value)
    ensures !Given(page) ==> p == Int(1)
  {
    if Given(page) then Str(page.value) else Int(1)
  }

  /** The metadata of a result of `totalCount` records, as written. */
  function PaginateMeta(totalCount: nat, page: Option<string>): (m: Meta)
    ensures m.totalCount == totalCount && m.perPage == DefaultPerPage
    ensures m.pageCount == PageCount(totalCount, DefaultPerPage)
    ensures m.currentPage == CurrentPage(page)
  {
    Meta(totalCount, PageCount(totalCount, DefaultPerPage), CurrentPage(page), DefaultPerPage)
  }

  /** The page count as written announces a last page that starts exactly at
      the end of the records, so holds none, precisely when the total is a
      multiple of the page size. */
  lemma PageCountEmptyLastPage(totalCount: nat, perPage: nat)
    requires perPage > 0
    ensures (PageCount(totalCount, perPage) - 1) * perPage == totalCount <==> totalCount % perPage == 0
  {
    var q := totalCount / perPage;
    assert totalCount == q * perPage + totalCount % perPage;
  }

  /** Two concrete cases: 20 records in pages of 10 are announced as 3 pages,
      the third one empty; 25 records as 3 pages, all of them used. */
  lemma PageCountExamples()
    ensures PageCount(20, 10) == 3 && CeilPageCount(20, 10) == 2
    ensures PageCount(25, 10) == 3 && CeilPageCount(25, 10) == 3
    ensures PageCount(0, 10) == 1 && CeilPageCount(0, 10) == 0
  {
  }

  /** The intended page count: the number of pages the records fill, the last
      one possibly partial, and no page at all for no records. */
  function CeilPageCount(totalCount: nat, perPage: nat): (n: nat)
    requires perPage > 0
    ensures totalCount == 0 ==> n == 0
    ensures totalCount > 0 ==> (n - 1) * perPage < totalCount <= n * perPage
  {
    (totalCount + perPage - 1) / perPage
  }

  /** The two counts agree except on exact multiples, where the count as
      written is one too many. */
  lemma PageCountVersusCeil(totalCount: nat, perPage: nat)
    requires perPage > 0
    ensures totalCount % perPage != 0 ==> PageCount(totalCount, perPage) == CeilPageCount(totalCount, perPage)
    ensures totalCount % perPage == 0 ==> PageCount(totalCount, perPage) == CeilPageCount(totalCount, perPage) + 1
  {
    var n, c := PageCount(totalCount, perPage), CeilPageCount(totalCount, perPage);
    PageCountEmptyLastPage(totalCount, perPage);
    if totalCount == 0 {
    } else if totalCount % perPage != 0 {
      assert (n - 1) * perPage < totalCount;
      UniqueCount(totalCount, perPage, n, c);
    } else {
      assert (n - 1) * perPage == totalCount;
      UniqueCount(totalCount, perPage, n - 1, c);
    }
  }

  /** At most one page count brackets a positive total. */
  lemma UniqueCount(totalCount: nat, perPage: nat, a: int, b: int)
    requires perPage > 0 && totalCount > 0
    requires (a - 1) * perPage < totalCount <= a * perPage
    requires (b - 1) * perPage < totalCount <= b * perPage
    ensures a == b
  {
  }

  /** The metadata with the intended page count. */
  function IntendedPaginateMeta(totalCount: nat, page: Option<string>): (m: Meta)
    ensures m.totalCount == totalCount && m.perPage == DefaultPerPage
    ensures m.pageCount * DefaultPerPage >= totalCount
    ensures m.pageCount > 0 ==> (m.pageCount - 1) * DefaultPerPage < totalCount
    ensures m.currentPage == CurrentPage(page)
  {
    Meta(totalCount, CeilPageCount(totalCount, DefaultPerPage), CurrentPage(page), DefaultPerPage)
  }
}
