/**
 * The status filter of the invoice list
 * (src/components/invoices/InvoiceFilterButton.tsx): ticking a status adds
 * it to the `status` query parameter, unticking removes it, and clearing
 * goes back to the unfiltered list.
 */
module InvoiceFilterButton {
  import opened Strings
  import opened Wrappers
  import opened Database

  /** The three invoice statuses, and `overdue` beside them. */
  const FilterOptions: seq<string> := ["generated", "sent", "paid", "overdue"]

  /** Every invoice status can be filtered on, and `overdue` is the one option that is not a status. */
  lemma FilterOptionsCoverStatuses()
    ensures forall s: InvoiceStatus :: InvoiceStatusName(s) in FilterOptions
    ensures forall i :: 0 <= i < |FilterOptions| ==> (ParseInvoiceStatus(FilterOptions[i]).None? <==> FilterOptions[i] == "overdue")
  {
    forall s: InvoiceStatus ensures InvoiceStatusName(s) in FilterOptions {
      match s
      case Generated => assert FilterOptions[0] == InvoiceStatusName(s);
      case Sent => assert FilterOptions[1] == InvoiceStatusName(s);
      case Paid => assert FilterOptions[2] == InvoiceStatusName(s);
    }
    assert ParseInvoiceStatus(FilterOptions[0]) == Some(Generated);
    assert ParseInvoiceStatus(FilterOptions[1]) == Some(Sent);
    assert ParseInvoiceStatus(FilterOptions[2]) == Some(Paid);
  }

  /** `statuses.filter((s) => s !== status)` */
  function RemoveAll(statuses: seq<string>, status: string): (r: seq<string>)
    ensures status !in r
    ensures forall x :: x != status ==> (x in r <==> x in statuses)
    ensures |r| <= |statuses|
    ensures status !in statuses ==> r == statuses
  {
    if statuses == [] then []
    else if statuses[0] == status then RemoveAll(statuses[1..], status)
    else [statuses[0]] + RemoveAll(statuses[1..], status)
  }

  /**
   * Filtering a list is filtering its two halves: the statuses kept stay in
   * their order, which is the order of the next `?status=` value.
   */
  lemma {:induction false} RemoveAllAppend(a: seq<string>, b: seq<string>, status: string)
    ensures RemoveAll(a + b, status) == RemoveAll(a, status) + RemoveAll(b, status)
  {
    if a != [] {
      assert (a + b)[0] == a[0];
      assert (a + b)[1..] == a[1..] + b;
      RemoveAllAppend(a[1..], b, status);
    } else {
      assert a + b == b;
    }
  }

  /** A single status is dropped when it is the one removed, and kept otherwise. */
  lemma RemoveAllSingle(x: string, status: string)
    ensures RemoveAll([x], status) == if x == status then [] else [x]
  {
    assert [x][1..] == [];
  }

  /** Removing the only value a list holds empties it. */
  lemma RemoveOnlyValue(statuses: seq<string>, status: string)
    requires forall x :: x in statuses ==> x == status
    ensures RemoveAll(statuses, status) == []
  {
    if statuses != [] {
      assert statuses[0] in statuses;
      assert forall x :: x in statuses[1..] ==> x in statuses;
      RemoveOnlyValue(statuses[1..], status);
    }
  }

  /** `toggleStatus`'s new list: every occurrence removed when present, appended at the end when absent. */
  function ToggleStatus(active: seq<string>, status: string): (r: seq<string>)
    ensures status in r <==> status !in active
    ensures forall x :: x != status ==> (x in r <==> x in active)
    ensures status !in active ==> r == active + [status]
  {
    if status in active then RemoveAll(active, status) else active + [status]
  }

  /** Toggling the same status twice gives back the same set of statuses. */
  lemma ToggleTwice(active: seq<string>, status: string)
    ensures forall x :: x in ToggleStatus(ToggleStatus(active, status), status) <==> x in active
  {
  }

  /** Where a list of statuses navigates: `?status=a,b,…`, or the bare list page when empty. */
  function FilterUrl(statuses: seq<string>): (url: string)
    ensures |statuses| == 0 <==> url == "/invoices"
    ensures |statuses| > 0 ==> url == "?status=" + Join(statuses, ",")
  {
    if |statuses| > 0 then
      var url := "?status=" + Join(statuses, ",");
      assert url[0] == '?';
      url
    else "/invoices"
  }

  /** The statuses the page reads back from `?status=`: split on commas. */
  function StatusesOfQuery(query: string): seq<string> {
    Split(query, ',')
  }

  /** The filter URL carries the list: splitting its query gives the statuses back, in order. */
  lemma FilterUrlRoundTrip(statuses: seq<string>)
    requires |statuses| > 0
    requires forall k :: 0 <= k < |statuses| ==> Lacks(statuses[k], ',')
    ensures var url := FilterUrl(statuses);
      StartsWith(url, "?status=") && StatusesOfQuery(url[8..]) == statuses
  {
    var url := FilterUrl(statuses);
    assert url[..8] == "?status=";
    assert url[8..] == Join(statuses, [',']);
    SplitJoin(statuses, ',');
  }

  /** Filters are active iff some status is selected. */
  predicate HasActiveFilters(active: seq<string>) {
    |active| > 0
  }

  /** `toggleStatus`: navigates to the new list's URL; the menu stays as it is. */
  method ToggleStatusAndNavigate(active: seq<string>, status: string) returns (url: string)
    ensures url == FilterUrl(ToggleStatus(active, status))
    ensures url == "/invoices" <==> active != [] && forall x :: x in active ==> x == status
  {
    var next := ToggleStatus(active, status);
    if |next| > 0 {
      url := "?status=" + Join(next, ",");
    } else {
      url := "/invoices";
    }
    if active != [] && forall x :: x in active ==> x == status {
      RemoveOnlyValue(active, status);
    }
  }

  /** The dropdown's open flag. */
  class FilterMenu {
    var isOpen: bool

    constructor()
      ensures !isOpen
    {
      isOpen := false;
    }

    method ToggleOpen()
      modifies this
      ensures isOpen == !old(isOpen)
    {
      isOpen := !isOpen;
    }

    /** `clearFilters`: back to the unfiltered list, and the menu closes. */
    method ClearFilters() returns (url: string)
      modifies this
      ensures url == FilterUrl([]) && !isOpen
    {
      url := "/invoices";
      isOpen := false;
    }
  }
}
