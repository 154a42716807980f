/**
 * The bell in the top bar (src/components/layout/NotificationBell.tsx): the
 * five latest paid invoices and the five latest interventions are merged,
 * sorted newest first and cut to five; a dot shows when one of those is
 * from the last seven days. Dates are millisecond timestamps.
 */
module NotificationBell {
  import opened Wrappers
  import opened Strings

  const RecentThresholdDays: int := 7
  const DayMillis: int := 86400000

  /** The fields the paid-invoice query selects. */
  datatype PaidInvoice = PaidInvoice(id: string, invoiceNumber: string, clientName: string, date: int)

  /** The fields the intervention query selects. */
  datatype NewIntervention = NewIntervention(id: string, title: string, createdAt: int)

  datatype Kind = InvoicePaid | InterventionCreated

  datatype Notification = Notification(id: string, kind: Kind, title: string, description: string, date: int)

  function InvoiceNotification(inv: PaidInvoice): (n: Notification)
    ensures n.kind == InvoicePaid && n.date == inv.date && n.description == inv.clientName
    ensures StartsWith(n.id, "inv-")
  {
    var id := "inv-" + inv.id;
    assert id[..4] == "inv-";
    Notification(id, InvoicePaid, "Facture " + inv.invoiceNumber + " payée", inv.clientName, inv.date)
  }

  function InterventionNotification(iv: NewIntervention): (n: Notification)
    ensures n.kind == InterventionCreated && n.date == iv.createdAt && n.description == iv.title
    ensures StartsWith(n.id, "int-")
  {
    var id := "int-" + iv.id;
    assert id[..4] == "int-";
    Notification(id, InterventionCreated, "Nouvelle intervention", iv.title, iv.createdAt)
  }

  function InvoiceNotifications(invs: seq<PaidInvoice>): (r: seq<Notification>)
    ensures |r| == |invs|
    ensures forall i :: 0 <= i < |invs| ==> r[i] == InvoiceNotification(invs[i])
  {
    seq(|invs|, i requires 0 <= i < |invs| => InvoiceNotification(invs[i]))
  }

  function InterventionNotifications(ivs: seq<NewIntervention>): (r: seq<Notification>)
    ensures |r| == |ivs|
    ensures forall i :: 0 <= i < |ivs| ==> r[i] == InterventionNotification(ivs[i])
  {
    seq(|ivs|, i requires 0 <= i < |ivs| => InterventionNotification(ivs[i]))
  }

  /** Everything the two queries bring, invoices first; a failed query (no data) brings nothing. */
  function Collected(invoices: Option<seq<PaidInvoice>>, interventions: Option<seq<NewIntervention>>): seq<Notification> {
    InvoiceNotifications(invoices.GetOr([])) + InterventionNotifications(interventions.GetOr([]))
  }

  predicate NewestFirst(s: seq<Notification>) {
    forall i, j :: 0 <= i < j < |s| ==> s[i].date >= s[j].date
  }

  /** Puts `x` after every entry at least as new, so that equal dates keep their order. */
  function Insert(x: Notification, sorted: seq<Notification>): (r: seq<Notification>)
    ensures |r| == |sorted| + 1
  {
    if sorted == [] then [x]
    else if sorted[0].date >= x.date then [sorted[0]] + Insert(x, sorted[1..])
    else [x] + sorted
  }

  /** Every entry of `Insert(x, sorted)` is `x` or comes from `sorted`, and nothing is lost. */
  lemma {:induction false} InsertContents(x: Notification, sorted: seq<Notification>)
    ensures multiset(Insert(x, sorted)) == multiset(sorted) + multiset{x}
    ensures forall i :: 0 <= i < |Insert(x, sorted)| ==> Insert(x, sorted)[i] == x || Insert(x, sorted)[i] in sorted
  {
    if sorted != [] && sorted[0].date >= x.date {
      InsertContents(x, sorted[1..]);
      assert sorted == [sorted[0]] + sorted[1..];
    }
  }

  /** Inserting into a newest-first list keeps it newest first. */
  lemma {:induction false} InsertSorted(x: Notification, sorted: seq<Notification>)
    requires NewestFirst(sorted)
    ensures NewestFirst(Insert(x, sorted))
  {
    if sorted != [] && sorted[0].date >= x.date {
      var rest := Insert(x, sorted[1..]);
      InsertSorted(x, sorted[1..]);
      InsertContents(x, sorted[1..]);
      forall j | 0 <= j < |rest| ensures rest[j].date <= sorted[0].date {
        if rest[j] != x {
          var m :| 0 <= m < |sorted[1..]| && sorted[1..][m] == rest[j];
          assert sorted[m + 1] == rest[j];
        }
      }
    }
  }

  /** `items.sort((a, b) => date(b) - date(a))`: a stable sort, newest first. */
  function SortNewestFirst(s: seq<Notification>): (r: seq<Notification>)
    ensures |r| == |s|
  {
    if s == [] then [] else Insert(s[|s| - 1], SortNewestFirst(s[..|s| - 1]))
  }

  /** The sort orders newest first. */
  lemma {:induction false} SortSorted(s: seq<Notification>)
    ensures NewestFirst(SortNewestFirst(s))
  {
    if s != [] {
      SortSorted(s[..|s| - 1]);
      InsertSorted(s[|s| - 1], SortNewestFirst(s[..|s| - 1]));
    }
  }

  /** The sort keeps every entry, as many times as it occurs. */
  lemma {:induction false} SortPermutation(s: seq<Notification>)
    ensures multiset(SortNewestFirst(s)) == multiset(s)
  {
    if s != [] {
      var init := s[..|s| - 1];
      SortPermutation(init);
      InsertContents(s[|s| - 1], SortNewestFirst(init));
      assert s == init + [s[|s| - 1]];
    }
  }

  lemma SortedPermutation(s: seq<Notification>)
    ensures NewestFirst(SortNewestFirst(s))
    ensures multiset(SortNewestFirst(s)) == multiset(s)
  {
    SortSorted(s);
    SortPermutation(s);
  }

  /** `top5.some((n) => new Date(n.date) > threshold)` */
  predicate AnyAfter(s: seq<Notification>, threshold: int) {
    exists i :: 0 <= i < |s| && s[i].date > threshold
  }

  /** Today minus seven days, ignoring the daylight-saving shift of `setDate`. */
  function Threshold(now: int): int {
    now - RecentThresholdDays * DayMillis
  }

  /** The two push loops: the invoices' notifications, then the interventions'. */
  method CollectNotifications(invoices: Option<seq<PaidInvoice>>, interventions: Option<seq<NewIntervention>>)
    returns (items: seq<Notification>)
    ensures items == Collected(invoices, interventions)
  {
    items := [];
    var invs := invoices.GetOr([]);
    var i := 0;
    while i < |invs|
      invariant 0 <= i <= |invs|
      invariant items == InvoiceNotifications(invs[..i])
    {
      items := items + [InvoiceNotification(invs[i])];
      i := i + 1;
    }
    var ivs := interventions.GetOr([]);
    var j := 0;
    while j < |ivs|
      invariant 0 <= j <= |ivs|
      invariant items == InvoiceNotifications(invs) + InterventionNotifications(ivs[..j])
    {
      items := items + [InterventionNotification(ivs[j])];
      j := j + 1;
    }
    assert ivs[..j] == ivs;
  }

  /** `items.slice(0, 5)` after the sort. */
  function LatestFive(all: seq<Notification>): seq<Notification> {
    var sorted := SortNewestFirst(all);
    sorted[..if |sorted| < 5 then |sorted| else 5]
  }

  /**
   * The five shown: as many as there are up to five, newest first, all
   * taken from what the queries brought, and none older than an entry left
   * out.
   */
  lemma LatestFiveAreNewest(all: seq<Notification>)
    ensures var top := LatestFive(all);
      |top| == (if |all| < 5 then |all| else 5)
      && NewestFirst(top)
      && multiset(top) <= multiset(all)
      && (forall y, i :: y in multiset(all) - multiset(top) && 0 <= i < |top| ==> y.date <= top[i].date)
  {
    var sorted := SortNewestFirst(all);
    SortedPermutation(all);
    TopKeepsNewest(sorted, if |sorted| < 5 then |sorted| else 5);
  }

  class Bell {
    var notifications: seq<Notification>
    var hasRecent: bool
    var loaded: bool
    var isOpen: bool

    constructor()
      ensures notifications == [] && !hasRecent && !loaded && !isOpen
    {
      notifications, hasRecent, loaded, isOpen := [], false, false, false;
    }

    /**
     * `fetchNotifications`: at most five notifications, newest first, all
     * taken from what the queries brought and none older than one left
     * out; the dot is on iff one of them is recent.
     */
    method FetchNotifications(invoices: Option<seq<PaidInvoice>>, interventions: Option<seq<NewIntervention>>, now: int)
      modifies this
      ensures loaded && isOpen == old(isOpen)
      ensures notifications == LatestFive(Collected(invoices, interventions))
      ensures hasRecent <==> AnyAfter(notifications, Threshold(now))
    {
      var items := CollectNotifications(invoices, interventions);
      items := SortNewestFirst(items);
      var top5 := items[..if |items| < 5 then |items| else 5];
      notifications := top5;
      hasRecent := AnyAfter(top5, Threshold(now));
      loaded := true;
    }

    method ToggleOpen()
      modifies this
      ensures isOpen == !old(isOpen)
      ensures notifications == old(notifications) && hasRecent == old(hasRecent) && loaded == old(loaded)
    {
      isOpen := !isOpen;
    }
  }

  /** The first `k` entries of a newest-first list are newer than, or as new as, everything after them. */
  lemma TopKeepsNewest(sorted: seq<Notification>, k: nat)
    requires NewestFirst(sorted) && k <= |sorted|
    ensures NewestFirst(sorted[..k])
    ensures multiset(sorted[..k]) <= multiset(sorted)
    ensures forall y, i :: y in multiset(sorted) - multiset(sorted[..k]) && 0 <= i < k ==> y.date <= sorted[i].date
  {
    assert sorted == sorted[..k] + sorted[k..];
    assert multiset(sorted) == multiset(sorted[..k]) + multiset(sorted[k..]);
    forall y, i | y in multiset(sorted) - multiset(sorted[..k]) && 0 <= i < k
      ensures y.date <= sorted[i].date
    {
      assert y in multiset(sorted[k..]);
      var j :| 0 <= j < |sorted[k..]| && sorted[k..][j] == y;
      assert sorted[k + j] == y;
    }
  }

  /**
   * The dot shows exactly when anything the queries brought is recent: the
   * newest entry is always among the five shown.
   */
  lemma DotIffAnythingRecent(all: seq<Notification>, threshold: int)
    ensures AnyAfter(LatestFive(all), threshold) <==> AnyAfter(all, threshold)
  {
    var sorted := SortNewestFirst(all);
    var k := if |sorted| < 5 then |sorted| else 5;
    SortedPermutation(all);
    if AnyAfter(all, threshold) {
      var i :| 0 <= i < |all| && all[i].date > threshold;
      assert all[i] in multiset(sorted);
      var j :| 0 <= j < |sorted| && sorted[j] == all[i];
      assert sorted[..k][0] == sorted[0];
    }
    if AnyAfter(sorted[..k], threshold) {
      var i :| 0 <= i < k && sorted[..k][i].date > threshold;
      assert sorted[i] in multiset(all);
      var j :| 0 <= j < |all| && all[j] == sorted[i];
    }
  }
}
