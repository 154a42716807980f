/**
 * The top bar (src/components/layout/Header.tsx): the page title chosen
 * from the path, the role badge and the avatar's initials.
 */
module Header {
  import opened Wrappers
  import opened Strings
  import opened Database
  import Constants

  datatype TitleEntry = TitleEntry(path: string, title: string)

  /** The title table, in its declaration order (the order `Object.entries` walks it in). */
  const PageTitles: seq<TitleEntry> := [
    TitleEntry("/inbox", "Boîte de réception"),
    TitleEntry("/calendar", "Calendrier"),
    TitleEntry("/interventions", "Interventions"),
    TitleEntry("/reports", "Rapports"),
    TitleEntry("/reports/validate", "Validation des rapports"),
    TitleEntry("/invoices", "Factures"),
    TitleEntry("/quotes", "Devis"),
    TitleEntry("/products", "Catalogue produits"),
    TitleEntry("/admin/users", "Gestion des utilisateurs"),
    TitleEntry("/admin/regies", "Gestion des régies"),
    TitleEntry("/admin/settings", "Paramètres"),
    TitleEntry("/technician/today", "Mes interventions du jour"),
    TitleEntry("/technician/week", "Ma semaine")
  ]

  const DefaultTitle: string := "Tableau de bord"

  /** `pathname` is a page below `e`'s path. */
  predicate IsChildOf(pathname: string, e: TitleEntry) {
    StartsWith(pathname, e.path + "/")
  }

  /** The index of the entry whose path is `pathname`, if any (the first one). */
  function ExactIndex(es: seq<TitleEntry>, pathname: string): (r: Option<nat>)
    ensures r.Some? ==> r.value < |es| && es[r.value].path == pathname
    ensures r.None? <==> forall j :: 0 <= j < |es| ==> es[j].path != pathname
  {
    if es == [] then None
    else if es[0].path == pathname then Some(0)
    else
      var t := ExactIndex(es[1..], pathname);
      assert forall j :: 1 <= j < |es| ==> es[j] == es[1..][j - 1];
      if t.None? then None else Some(t.value + 1)
  }

  /** The index of the first entry `pathname` lies below, if any. */
  function FirstParentIndex(es: seq<TitleEntry>, pathname: string): (r: Option<nat>)
    ensures r.Some? ==> r.value < |es| && IsChildOf(pathname, es[r.value])
    ensures r.Some? ==> forall j :: 0 <= j < r.value ==> !IsChildOf(pathname, es[j])
    ensures r.None? <==> forall j :: 0 <= j < |es| ==> !IsChildOf(pathname, es[j])
  {
    if es == [] then None
    else if IsChildOf(pathname, es[0]) then Some(0)
    else
      var t := FirstParentIndex(es[1..], pathname);
      assert forall j :: 1 <= j < |es| ==> es[j] == es[1..][j - 1];
      if t.None? then None else Some(t.value + 1)
  }

  /**
   * The title a table gives the page at `pathname`: the entry for that very
   * path, else the first entry (in table order) the page lies below, else
   * the default.
   */
  function TitleIn(es: seq<TitleEntry>, pathname: string): (r: string)
    ensures (exists i :: 0 <= i < |es| && es[i].path == pathname) ==>
      exists i :: 0 <= i < |es| && es[i].path == pathname && r == es[i].title
    ensures (forall i :: 0 <= i < |es| ==> es[i].path != pathname) ==>
      ((exists i :: 0 <= i < |es| && IsChildOf(pathname, es[i])) ==>
        exists i :: 0 <= i < |es| && IsChildOf(pathname, es[i]) && r == es[i].title
          && forall j :: 0 <= j < i ==> !IsChildOf(pathname, es[j]))
    ensures (forall i :: 0 <= i < |es| ==> es[i].path != pathname && !IsChildOf(pathname, es[i])) ==> r == DefaultTitle
  {
    var e := ExactIndex(es, pathname);
    if e.Some? then es[e.value].title
    else
      var c := FirstParentIndex(es, pathname);
      if c.Some? then es[c.value].title else DefaultTitle
  }

  /** The header's title for the page at `pathname`. */
  function TitleFor(pathname: string): string {
    TitleIn(PageTitles, pathname)
  }

  /** In a table where no page is titled like the default, the default means that no entry matched. */
  lemma DefaultMeansNoMatchIn(es: seq<TitleEntry>, pathname: string)
    requires forall i :: 0 <= i < |es| ==> es[i].title != DefaultTitle
    ensures TitleIn(es, pathname) == DefaultTitle <==>
      forall i :: 0 <= i < |es| ==> es[i].path != pathname && !IsChildOf(pathname, es[i])
  {
  }

  /** No page of the title table is titled like the default, so the default means that no entry matched. */
  lemma DefaultMeansNoMatch(pathname: string)
    ensures TitleFor(pathname) == DefaultTitle <==>
      forall i :: 0 <= i < |PageTitles| ==> PageTitles[i].path != pathname && !IsChildOf(pathname, PageTitles[i])
  {
    forall i | 0 <= i < |PageTitles| ensures PageTitles[i].title != DefaultTitle {
      assert |PageTitles[i].title| != |DefaultTitle|;
    }
    DefaultMeansNoMatchIn(PageTitles, pathname);
  }

  /** `getPageTitle`: a table lookup, then a walk over the entries that stops at the first parent. */
  method PageTitle(pathname: string) returns (title: string)
    ensures title == TitleFor(pathname)
  {
    title := FindTitle(PageTitles, pathname);
  }

  /** The lookup and the walk of `getPageTitle` over a title table. */
  method FindTitle(es: seq<TitleEntry>, pathname: string) returns (title: string)
    ensures title == TitleIn(es, pathname)
  {
    var exact := ExactIndex(es, pathname);
    if exact.Some? {
      return es[exact.value].title;
    }
    var i := 0;
    while i < |es|
      invariant 0 <= i <= |es|
      invariant forall j :: 0 <= j < i ==> !IsChildOf(pathname, es[j])
    {
      if StartsWith(pathname, es[i].path + "/") {
        FirstParentIsFirst(es, pathname, i);
        return es[i].title;
      }
      i := i + 1;
    }
    return DefaultTitle;
  }

  /** An entry the page lies below, with no earlier one, is the one `FirstParentIndex` finds. */
  lemma FirstParentIsFirst(es: seq<TitleEntry>, pathname: string, i: nat)
    requires i < |es| && IsChildOf(pathname, es[i])
    requires forall j :: 0 <= j < i ==> !IsChildOf(pathname, es[j])
    ensures FirstParentIndex(es, pathname) == Some(i)
  {
  }

  /**
   * A page below the validation list is titled after the report list: the
   * walk meets `/reports` before `/reports/validate`.
   */
  lemma ValidationChildTitle(rest: string)
    ensures TitleFor("/reports/validate/" + rest) == "Rapports"
  {
    var p := "/reports/validate/" + rest;
    forall i | 0 <= i < |PageTitles| ensures PageTitles[i].path != p {
      assert |PageTitles[i].path| <= 17 < |p|;
    }
    assert p[1] == 'r';
    assert p[..9] == "/reports/";
    FirstParentIsFirst(PageTitles, p, 3);
  }

  /** The avatar: `charAt(0)` of the first and of the last name, each empty for an empty name. */
  function Initials(firstName: string, lastName: string): (r: string)
    ensures |r| == (if firstName == "" then 0 else 1) + (if lastName == "" then 0 else 1)
    ensures firstName != "" ==> r[0] == firstName[0]
    ensures lastName != "" ==> r[|r| - 1] == lastName[0]
  {
    Take(firstName, 1) + Take(lastName, 1)
  }

  /** The badge shows the role's label from the role table; distinct roles get distinct badges. */
  lemma RoleBadgesDistinct(a: UserRole, b: UserRole)
    requires a != b
    ensures Constants.RoleLabel(a).text != Constants.RoleLabel(b).text
  {
    match a
    case Admin =>
    case Secretary =>
    case Technician =>
  }
}
