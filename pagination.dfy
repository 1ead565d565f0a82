/**
 * Page arithmetic shared by the customer, order and campaign lists: the
 * clamped Previous/Next steps, the page-number buttons and the
 * "Showing X to Y of Z results" line. Pages are numbered from 1 and the
 * server returns at most `PageSize` records per page.
 */
module Pagination {
  import opened Base

  const PageSize: nat := 10

  /** `Math.max(1, page - 1)`: one page back, never below page 1. */
  function ClampedPrev(page: int): (p: int)
    ensures p >= 1
    ensures page > 1 ==> p == page - 1
    ensures page <= 1 ==> p == 1
  {
    Max(1, page - 1)
  }

  /** `Math.min(totalPages, page + 1)`: one page on, never beyond the last page. */
  function ClampedNext(page: int, totalPages: int): (p: int)
    ensures p <= totalPages
    ensures page < totalPages ==> p == page + 1
    ensures page >= totalPages ==> p == totalPages
  {
    Min(totalPages, page + 1)
  }

  predicate InRange(page: int, totalPages: int) { 1 <= page <= totalPages }

  lemma ClampedStepsStayInRange(page: int, totalPages: int)
    requires InRange(page, totalPages)
    ensures InRange(ClampedPrev(page), totalPages)
    ensures InRange(ClampedNext(page, totalPages), totalPages)
  {
  }

  /** `Array.from({length: n}, (_, i) => i + 1)`: a negative length counts as 0. */
  function PageButtons(n: int): (labels: seq<int>)
    ensures |labels| == Max(0, n)
    ensures forall i :: 0 <= i < |labels| ==> labels[i] == i + 1
  {
    seq(Max(0, n), i => i + 1)
  }

  /** Every page button leads to a page in range. */
  lemma {:induction false} PageButtonsInRange(n: int, totalPages: int)
    requires n <= totalPages
    ensures forall i :: 0 <= i < |PageButtons(n)| ==> InRange(PageButtons(n)[i], totalPages)
  {
  }

  /** First row number shown: 0 for an empty list, else the page's first row. */
  function ShowingStart(page: int, len: nat): (s: int)
    ensures s == 0 <==> len == 0
    ensures len > 0 ==> s == (page - 1) * PageSize + 1
  {
    if len > 0 then (page - 1) * PageSize + 1 else 0
  }

  /** Last row number shown, as written: `Math.min(page * 10, len)`. */
  function ShowingEnd(page: int, len: nat): (e: int)
    ensures e <= len && e <= page * PageSize
    ensures e == len || e == page * PageSize
  {
    Min(page * PageSize, len)
  }

  /**
   * `len` is the length of the records of the current page only, so from
   * page 2 on the end bound falls below the start bound.
   */
  lemma {:induction false} ShowingEndBeforeStart(page: int, len: nat)
    requires page >= 2 && 0 < len <= PageSize
    ensures ShowingEnd(page, len) < ShowingStart(page, len)
  {
    assert (page - 1) * PageSize >= PageSize;
  }

  lemma ShowingEndExample()
    ensures ShowingStart(2, 3) == 11 && ShowingEnd(2, 3) == 3
  {
  }

  /** The last row number of the current page, counted over all pages. */
  function IntendedShowingEnd(page: int, len: nat): (e: int)
    ensures len == 0 ==> e == 0
  {
    if len == 0 then 0 else (page - 1) * PageSize + len
  }

  /** With the intended bound the range covers exactly the rows of the page. */
  lemma {:induction false} IntendedShowingRange(page: int, len: nat)
    requires page >= 1 && 0 < len <= PageSize
    ensures ShowingStart(page, len) <= IntendedShowingEnd(page, len)
    ensures IntendedShowingEnd(page, len) - ShowingStart(page, len) + 1 == len
    ensures IntendedShowingEnd(page, len) <= page * PageSize
    ensures page == 1 ==> IntendedShowingEnd(page, len) == ShowingEnd(page, len)
  {
    assert (page - 1) * PageSize + PageSize == page * PageSize;
  }
}
