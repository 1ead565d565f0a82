/**
 * The orders page: its page number and page count, the list of order
 * records it shows, and the order form's items text, which is submitted as
 * a list of trimmed pieces and filled from an order's items on "edit".
 */
module Orders {
  import opened Base
  import opened Text
  import opened Js
  import opened Pagination
  import opened Records

  /** At most five page buttons are shown. */
  const MaxPageButtons: nat := 5

  function ButtonCount(totalPages: int): (n: int)
    ensures n <= MaxPageButtons && n <= totalPages
    ensures n == MaxPageButtons || n == totalPages
  {
    Min(MaxPageButtons, totalPages)
  }

  /** `items.split(',').map(item => item.trim())`. */
  function SplitItems(text: string): (items: seq<string>)
    ensures |items| == multiset(text)[','] + 1
    ensures forall i :: 0 <= i < |items| ==> Trimmed(items[i]) && ',' !in items[i]
    ensures |items| == |Split(text, ',')|
    ensures forall i :: 0 <= i < |items| ==> items[i] == Trim(Split(text, ',')[i])
  {
    var pieces := Split(text, ',');
    seq(|pieces|, i requires 0 <= i < |pieces| => Trim(pieces[i]))
  }

  /** `order.items.join(', ')`, the items text the edit form starts with. */
  function JoinItems(items: seq<string>): string {
    Join(items, ", ")
  }

  function Padded(items: seq<string>): (r: seq<string>)
    ensures |r| == |items|
    ensures forall i :: 0 <= i < |items| ==> r[i] == " " + items[i]
  {
    seq(|items|, i requires 0 <= i < |items| => " " + items[i])
  }

  /** The join of two or more items: the first, the separator, then the join of the rest. */
  lemma JoinItemsCons(items: seq<string>)
    requires |items| >= 2
    ensures JoinItems(items) == items[0] + ", " + JoinItems(items[1..])
  {
  }

  /** Regrouping the ", " separator as a comma after the first piece and a blank before the rest. */
  lemma RegroupSeparator(pre: string, first: string, rest: string)
    ensures pre + (first + ", " + rest) == (pre + first) + [','] + (" " + rest)
  {
    assert ", " == [','] + " ";
  }

  lemma {:induction false} SplitJoinedItems(items: seq<string>, pre: string)
    requires |items| >= 1
    requires ',' !in pre
    requires forall i :: 0 <= i < |items| ==> ',' !in items[i]
    ensures Split(pre + JoinItems(items), ',') == [pre + items[0]] + Padded(items[1..])
  {
    if |items| == 1 {
      SplitNoSeparator(pre + items[0], ',');
    } else {
      var tail := items[1..];
      var rest := JoinItems(tail);
      JoinItemsCons(items);
      RegroupSeparator(pre, items[0], rest);
      SplitAfterPiece(pre + items[0], " " + rest, ',');
      SplitJoinedItems(tail, " ");
      PaddedCons(tail);
      calc {
        Split(pre + JoinItems(items), ',');
        Split((pre + items[0]) + [','] + (" " + rest), ',');
        [pre + items[0]] + Split(" " + rest, ',');
        [pre + items[0]] + ([" " + tail[0]] + Padded(tail[1..]));
        [pre + items[0]] + Padded(tail);
      }
    }
  }

  lemma PaddedCons(items: seq<string>)
    requires |items| >= 1
    ensures Padded(items) == [" " + items[0]] + Padded(items[1..])
  {
    var r := [" " + items[0]] + Padded(items[1..]);
    assert |r| == |items|;
    assert forall i :: 1 <= i < |items| ==> r[i] == Padded(items[1..])[i - 1];
  }

  /** The pieces of a joined item list: the first item, then each later one after a blank. */
  lemma JoinedPieces(items: seq<string>)
    requires |items| >= 1
    requires forall j :: 0 <= j < |items| ==> ',' !in items[j]
    ensures Split(JoinItems(items), ',') == [items[0]] + Padded(items[1..])
  {
    SplitJoinedItems(items, "");
    assert "" + JoinItems(items) == JoinItems(items);
    assert "" + items[0] == items[0];
  }

  /** Each piece of a joined item list trims back to its item. */
  lemma JoinedPieceTrims(items: seq<string>, i: nat)
    requires |items| >= 1 && i < |items|
    requires forall j :: 0 <= j < |items| ==> Trimmed(items[j]) && ',' !in items[j]
    ensures |Split(JoinItems(items), ',')| == |items| && Trim(Split(JoinItems(items), ',')[i]) == items[i]
  {
    JoinedPieces(items);
    var pieces := Split(JoinItems(items), ',');
    if i == 0 {
      assert pieces[0] == items[0];
      TrimOfTrimmed(items[0]);
    } else {
      assert pieces[i] == Padded(items[1..])[i - 1];
      assert items[1..][i - 1] == items[i];
      TrimAfterBlank(items[i]);
    }
  }

  /**
   * Editing an order and submitting it unchanged gives back its items,
   * provided there is at least one item and every item is trimmed and
   * free of commas.
   */
  lemma {:induction false} EditSubmitRoundTrip(items: seq<string>)
    requires |items| >= 1
    requires forall i :: 0 <= i < |items| ==> Trimmed(items[i]) && ',' !in items[i]
    ensures SplitItems(JoinItems(items)) == items
  {
    JoinedPieceTrims(items, 0);
    var back := SplitItems(JoinItems(items));
    forall i | 0 <= i < |items|
      ensures back[i] == items[i]
    {
      JoinedPieceTrims(items, i);
    }
  }

  /** An order without items does not survive the round trip: it comes back with one empty item. */
  lemma EmptyItemsRoundTrip()
    ensures SplitItems(JoinItems([])) == [""]
  {
  }

  /** The state of the orders page. */
  class OrdersView {
    var orders: seq<Value>
    var page: int
    var totalPages: int
    var search: string
    var isEditing: bool
    /** The `_id` of the order being edited. */
    var currentId: Value
    var modalOpen: bool
    /** The items field of the order form. */
    var itemsText: string
    /** Set once a fetch fails; from then on the page shows only the error, and nothing clears it. */
    var failed: bool

    constructor ()
      ensures orders == [] && page == 1 && totalPages == 1 && search == ""
      ensures !isEditing && currentId == Null && !modalOpen && itemsText == "" && !failed
    {
      orders, page, totalPages, search := [], 1, 1, "";
      isEditing, currentId, modalOpen, itemsText := false, Null, false, "";
      failed := false;
    }

    /**
     * The end of `fetchOrders`: `response.data` and
     * `response.pagination.pages`, or None when the request failed, which
     * sets the error and keeps the list.
     */
    method ReceivePage(response: Option<(seq<Value>, int)>)
      modifies this`orders, this`totalPages, this`failed
      ensures response.Some? ==> orders == response.value.0 && totalPages == response.value.1
                                 && failed == old(failed)
      ensures response.None? ==> orders == old(orders) && totalPages == old(totalPages) && failed
    {
      match response
      case Some((data, pages)) => orders, totalPages := data, pages;
      case None => failed := true;
    }

    /** `handleSearchChange`: a new search starts again at page 1; the input is gone once the page failed. */
    method SearchChange(text: string)
      modifies this`search, this`page
      ensures failed ==> search == old(search) && page == old(page)
      ensures !failed ==> search == text && page == 1
    {
      if !failed {
        search := text;
        page := 1;
      }
    }

    /**
     * The Previous button: rendered only with a non-empty list on a page
     * that has not failed, disabled on page 1, otherwise
     * `Math.max(1, page - 1)`.
     */
    method ClickPrev()
      modifies this`page
      ensures page == (if failed || orders == [] then old(page) else ClampedPrev(old(page)))
      ensures InRange(old(page), totalPages) ==> InRange(page, totalPages)
    {
      if !failed && orders != [] && page != 1 {
        page := ClampedPrev(page);
      }
    }

    /**
     * The Next button: rendered only with a non-empty list on a page that
     * has not failed, disabled on the last page, otherwise
     * `Math.min(totalPages, page + 1)`.
     */
    method ClickNext()
      modifies this`page
      ensures page == (if failed || orders == [] || old(page) == totalPages then old(page)
                       else ClampedNext(old(page), totalPages))
      ensures InRange(old(page), totalPages) ==> InRange(page, totalPages)
    {
      if !failed && orders != [] && page != totalPages {
        page := ClampedNext(page, totalPages);
      }
    }

    /**
     * The page buttons labelled 1 to `min(5, totalPages)`, shown only with
     * a non-empty list on a page that has not failed; button `i` shows
     * `i + 1`.
     */
    method ClickPageButton(i: nat)
      requires i < |PageButtons(ButtonCount(totalPages))|
      modifies this`page
      ensures failed || orders == [] ==> page == old(page)
      ensures !failed && orders != [] ==> page == PageButtons(ButtonCount(totalPages))[i] && InRange(page, totalPages)
    {
      if !failed && orders != [] {
        page := i + 1;
      }
    }

    /**
     * `handleAddOrder`: an empty form in create mode. The handler does not
     * look at the error, and no control on the page calls it.
     */
    method AddOrder()
      modifies this`isEditing, this`itemsText, this`modalOpen
      ensures !isEditing && itemsText == "" && modalOpen
    {
      isEditing := false;
      itemsText := "";
      modalOpen := true;
    }

    /**
     * `handleEditOrder` for the order with `_id` `id` and items `items`.
     * The handler does not look at the error, and no control on the page
     * calls it.
     */
    method EditOrder(id: Value, items: seq<string>)
      modifies this`isEditing, this`currentId, this`itemsText, this`modalOpen
      ensures isEditing && currentId == id && itemsText == JoinItems(items) && modalOpen
    {
      isEditing := true;
      currentId := id;
      itemsText := JoinItems(items);
      modalOpen := true;
    }

    /** The order form is on screen: the modal is open and the page has not failed. */
    predicate FormShown()
      reads this
    {
      modalOpen && !failed
    }

    /** `handleInputChange` on the items field, which exists only while the form is shown. */
    method ItemsChange(text: string)
      modifies this`itemsText
      ensures itemsText == (if FormShown() then text else old(itemsText))
    {
      if FormShown() {
        itemsText := text;
      }
    }

    /** The form's Cancel button: closes the form and keeps what was typed. */
    method CloseForm()
      modifies this`modalOpen
      ensures old(FormShown()) ==> !modalOpen
      ensures !old(FormShown()) ==> modalOpen == old(modalOpen)
    {
      if FormShown() {
        modalOpen := false;
      }
    }

    /**
     * `handleDeleteOrder(id)`: only after the user confirms and the server
     * deletes, every order with that `_id` leaves the list. The handler does
     * not look at the error, and no control on the page calls it.
     */
    method DeleteOrder(id: Value, confirmed: bool, deleted: bool)
      modifies this`orders
      ensures orders == (if confirmed && deleted then RemoveById(old(orders), id) else old(orders))
    {
      if confirmed && deleted {
        orders := RemoveById(orders, id);
      }
    }

    /**
     * `handleSubmit`: sends the items as trimmed pieces (returned here);
     * `saved` is the record the server answers with, None when the request
     * failed. An update replaces the edited order, a creation prepends.
     * The submit button belongs to the form: while the form is not shown
     * nothing is sent and nothing changes.
     */
    method Submit(saved: Option<Value>) returns (sentItems: Option<seq<string>>)
      modifies this`orders, this`modalOpen
      ensures !old(FormShown()) ==> sentItems == None && orders == old(orders) && modalOpen == old(modalOpen)
      ensures old(FormShown()) ==> sentItems == Some(SplitItems(itemsText))
      ensures old(FormShown()) && saved.Some? && isEditing ==>
        orders == ReplaceById(old(orders), currentId, saved.value)
      ensures old(FormShown()) && saved.Some? && !isEditing ==> orders == [saved.value] + old(orders)
      ensures old(FormShown()) && saved.Some? ==> !modalOpen
      ensures saved.None? ==> orders == old(orders) && modalOpen == old(modalOpen)
    {
      if !FormShown() {
        return None;
      }
      sentItems := Some(SplitItems(itemsText));
      if saved.Some? {
        if isEditing {
          orders := ReplaceById(orders, currentId, saved.value);
        } else {
          orders := [saved.value] + orders;
        }
        modalOpen := false;
      }
    }
  }

  /**
   * The handlers have no error check: after a failed fetch `handleAddOrder`
   * still opens the modal. The modal belongs to the page that only renders
   * without an error, so the form is not shown, typing changes nothing and
   * no submit sends anything.
   */
  method FailedPageIgnoresActions(data: seq<Value>, saved: Option<Value>)
    returns (modalOpen: bool, sent: Option<seq<string>>, orders: seq<Value>)
    ensures modalOpen && sent == None && orders == data
  {
    var view := new OrdersView();
    view.ReceivePage(Some((data, 1)));
    view.ReceivePage(None);
    view.AddOrder();
    modalOpen := view.modalOpen;
    view.ItemsChange("a, b");
    sent := view.Submit(saved);
    orders := view.orders;
  }

  /** What the user can do on the orders page, with the data each step needs. */
  datatype Action =
    | Load(response: (seq<Value>, int))
    | Fail
    | Search(query: string)
    | Prev
    | Next
    | PageButton(button: nat)
    | Items(text: string)
    | Close

  /**
   * The page renders no control that runs `handleAddOrder` or
   * `handleEditOrder`, so the form never opens: after any sequence of
   * loads, failed loads, searches, pager clicks, typing into the items
   * field and Cancel, no submit sends anything.
   */
  method NoFormWithoutOpening(actions: seq<Action>, saved: Option<Value>)
    returns (sent: Option<seq<string>>)
    ensures sent == None
  {
    var view := new OrdersView();
    var i := 0;
    while i < |actions|
      invariant 0 <= i <= |actions|
      invariant !view.modalOpen
    {
      match actions[i] {
        case Load(response) => view.ReceivePage(Some(response));
        case Fail => view.ReceivePage(None);
        case Search(query) => view.SearchChange(query);
        case Prev => view.ClickPrev();
        case Next => view.ClickNext();
        case PageButton(k) =>
          if k < |PageButtons(ButtonCount(view.totalPages))| {
            view.ClickPageButton(k);
          }
        case Items(text) => view.ItemsChange(text);
        case Close => view.CloseForm();
      }
      i := i + 1;
    }
    sent := view.Submit(saved);
  }
}
