/**
 * The campaigns list page: its page number and page count, the campaign
 * records it shows with their status badge and row actions, and the
 * list updates after a send or a delete.
 */
module Campaigns {
  import opened Base
  import opened Text
  import opened Js
  import opened Pagination
  import opened Records

  const SentClass := "bg-green-100 text-green-800"
  const ScheduledClass := "bg-yellow-100 text-yellow-800"
  const FailedClass := "bg-red-100 text-red-800"
  const DefaultClass := "bg-gray-100 text-gray-800"

  /** The colour classes of a row's status badge. */
  function StatusClass(status: string): (c: string)
    ensures c == SentClass <==> status == "sent"
    ensures c == ScheduledClass <==> status == "scheduled"
    ensures c == FailedClass <==> status == "failed"
    ensures c == DefaultClass <==> status !in {"sent", "scheduled", "failed"}
  {
    if status == "sent" then SentClass
    else if status == "scheduled" then ScheduledClass
    else if status == "failed" then FailedClass
    else DefaultClass
  }

  /** The badge text is the status capitalised: the four statuses read as these words. */
  lemma StatusLabels()
    ensures Capitalize("draft") == "Draft" && Capitalize("sent") == "Sent"
    ensures Capitalize("scheduled") == "Scheduled" && Capitalize("failed") == "Failed"
  {
  }

  datatype RowAction = ViewAction | SendAction | DeleteAction

  /** The controls of a row: the view link and delete for every campaign, send for drafts only. */
  function RowActions(status: string): (r: set<RowAction>)
    ensures SendAction in r <==> status == "draft"
    ensures ViewAction in r && DeleteAction in r
  {
    {ViewAction, DeleteAction} + (if status == "draft" then {SendAction} else {})
  }

  /** The state of the campaigns page. */
  class CampaignsView {
    var campaigns: seq<Value>
    var page: int
    var totalPages: int
    var search: string
    /** Set once a fetch fails; from then on the page shows only the error, and nothing clears it. */
    var failed: bool

    constructor ()
      ensures campaigns == [] && page == 1 && totalPages == 1 && search == "" && !failed
    {
      campaigns, page, totalPages, search, failed := [], 1, 1, "", false;
    }

    /**
     * The end of `fetchCampaigns`: `response.data` and
     * `response.pagination.pages`, or None when the request failed, which
     * sets the error and keeps the list.
     */
    method ReceivePage(response: Option<(seq<Value>, int)>)
      modifies this`campaigns, this`totalPages, this`failed
      ensures response.Some? ==> campaigns == response.value.0 && totalPages == response.value.1
                                 && failed == old(failed)
      ensures response.None? ==> campaigns == old(campaigns) && totalPages == old(totalPages) && failed
    {
      match response
      case Some((data, pages)) => campaigns, totalPages := data, pages;
      case None => failed := true;
    }

    /** `handleSearchChange`: a new search starts again at page 1; the input is gone once the page failed. */
    method SearchChange(text: string)
      modifies this`search, this`page
      ensures failed ==> search == old(search) && page == old(page)
      ensures !failed ==> search == text && page == 1
    {
      if !failed {
        search := text;
        page := 1;
      }
    }

    /** The Previous button: shown with a non-empty list on a page that has not failed, disabled on page 1, otherwise exactly one page back. */
    method ClickPrev()
      modifies this`page
      ensures page == (if failed || campaigns == [] || old(page) == 1 then old(page) else old(page) - 1)
      ensures InRange(old(page), totalPages) ==> InRange(page, totalPages)
    {
      if !failed && campaigns != [] && page != 1 {
        page := page - 1;
      }
    }

    /** The Next button: shown with a non-empty list on a page that has not failed, disabled on the last page, otherwise exactly one page on. */
    method ClickNext()
      modifies this`page
      ensures page == (if failed || campaigns == [] || old(page) == totalPages then old(page) else old(page) + 1)
      ensures InRange(old(page), totalPages) ==> InRange(page, totalPages)
    {
      if !failed && campaigns != [] && page != totalPages {
        page := page + 1;
      }
    }

    /**
     * `handleSendCampaign(id)`: after confirmation and a successful send,
     * the record with that `_id` is replaced by the server's `updated` one.
     * A failed page renders no rows, so no button to press.
     */
    method SendCampaign(id: Value, confirmed: bool, updated: Option<Value>)
      modifies this`campaigns
      ensures |campaigns| == old(|campaigns|)
      ensures campaigns == (if !failed && confirmed && updated.Some? then ReplaceById(old(campaigns), id, updated.value)
                            else old(campaigns))
    {
      if !failed && confirmed && updated.Some? {
        campaigns := ReplaceById(campaigns, id, updated.value);
      }
    }

    /** `handleDeleteCampaign(id)`: after confirmation and a successful delete, that `_id` leaves the list. */
    method DeleteCampaign(id: Value, confirmed: bool, deleted: bool)
      modifies this`campaigns
      ensures campaigns == (if !failed && confirmed && deleted then RemoveById(old(campaigns), id) else old(campaigns))
    {
      if !failed && confirmed && deleted {
        campaigns := RemoveById(campaigns, id);
      }
    }
  }

  /** From the last page of three the Next button is disabled: page 4 is never requested. */
  method NextOnLastPage() returns (page: int)
    ensures page == 3
  {
    var view := new CampaignsView();
    view.ReceivePage(Some(([Obj(map["_id" := Str("c1")])], 3)));
    view.ClickNext();
    view.ClickNext();
    view.ClickNext();
    page := view.page;
  }
}
