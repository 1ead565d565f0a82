/**
 * The customers page: its page number and page count and the customer
 * records it shows. Unlike the orders page it shows a button for every page
 * and renders the pagination bar even when the list is empty.
 */
module Customers {
  import opened Base
  import opened Js
  import opened Pagination

  /** The state of the customers page. */
  class CustomersView {
    var customers: seq<Value>
    var page: int
    var totalPages: int
    var search: string
    /**
     * Set once a fetch fails and never cleared: the table and the pager
     * give way to the error, while the search input stays.
     */
    var failed: bool

    constructor ()
      ensures customers == [] && page == 1 && totalPages == 1 && search == "" && !failed
    {
      customers, page, totalPages, search, failed := [], 1, 1, "", false;
    }

    /**
     * The end of `fetchCustomers`: `response.data` and
     * `response.pagination.pages`, or None when the request failed, which
     * sets the error and keeps the list. A later success stores its page
     * but does not clear the error.
     */
    method ReceivePage(response: Option<(seq<Value>, int)>)
      modifies this`customers, this`totalPages, this`failed
      ensures response.Some? ==> customers == response.value.0 && totalPages == response.value.1
                                 && failed == old(failed)
      ensures response.None? ==> customers == old(customers) && totalPages == old(totalPages) && failed
    {
      match response
      case Some((data, pages)) => customers, totalPages := data, pages;
      case None => failed := true;
    }

    /** `handleSearchChange`: a new search starts again at page 1, also after a failure. */
    method SearchChange(text: string)
      modifies this`search, this`page
      ensures search == text && page == 1
    {
      search := text;
      page := 1;
    }

    /** The Previous button: gone after a failure, disabled on page 1, otherwise `Math.max(1, page - 1)`. */
    method ClickPrev()
      modifies this`page
      ensures page == (if failed then old(page) else ClampedPrev(old(page)))
      ensures InRange(old(page), totalPages) ==> InRange(page, totalPages)
    {
      if !failed && page != 1 {
        page := ClampedPrev(page);
      }
    }

    /** The Next button: gone after a failure, disabled on the last page, otherwise `Math.min(totalPages, page + 1)`. */
    method ClickNext()
      modifies this`page
      ensures page == (if failed || old(page) == totalPages then old(page) else ClampedNext(old(page), totalPages))
      ensures InRange(old(page), totalPages) ==> InRange(page, totalPages)
    {
      if !failed && page != totalPages {
        page := ClampedNext(page, totalPages);
      }
    }

    /** One button per page, labelled 1 to `totalPages`; button `i` shows `i + 1`. None after a failure. */
    method ClickPageButton(i: nat)
      requires i < |PageButtons(totalPages)|
      modifies this`page
      ensures failed ==> page == old(page)
      ensures !failed ==> page == PageButtons(totalPages)[i] && InRange(page, totalPages)
    {
      if !failed {
        page := i + 1;
      }
    }
  }

  /**
   * When the server reports 0 pages the Next button is not disabled on
   * page 1 (1 differs from 0), and a click moves to page 0.
   */
  method NextWithNoPages() returns (page: int)
    ensures page == 0
  {
    var view := new CustomersView();
    view.ReceivePage(Some(([], 0)));
    view.ClickNext();
    page := view.page;
  }

  /**
   * After a failed fetch, a new search fetches again and may succeed, but
   * the error stays and the pager never comes back.
   */
  method SearchAfterFailure(text: string, data: seq<Value>, pages: int) returns (failed: bool, page: int)
    ensures failed && page == 1
  {
    var view := new CustomersView();
    view.ReceivePage(None);
    view.SearchChange(text);
    view.ReceivePage(Some((data, pages)));
    view.ClickNext();
    failed, page := view.failed, view.page;
  }
}
