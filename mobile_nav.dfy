/**
 * The bottom bar on phones (src/components/layout/MobileNav.tsx): three
 * items for a technician, four for the office, with the sidebar's
 * active-link rule.
 */
module MobileNav {
  import opened Database
  import opened Constants
  import Sidebar

  datatype NavItem = NavItem(href: string, text: string)

  const TechnicianNav: seq<NavItem> := [
    NavItem("/technician/today", "Aujourd'hui"),
    NavItem("/technician/week", "Semaine"),
    NavItem("/interventions", "Historique")
  ]

  const AdminNav: seq<NavItem> := [
    NavItem("/inbox", "Inbox"),
    NavItem("/calendar", "Calendrier"),
    NavItem("/reports/validate", "Rapports"),
    NavItem("/invoices", "Factures")
  ]

  /** The items for `role`: the technician's bar for a technician, the office bar for admin and secretary. */
  function NavItems(role: UserRole): (r: seq<NavItem>)
    ensures role == Technician ==> r == TechnicianNav
    ensures role != Technician ==> r == AdminNav
  {
    if role == Technician then TechnicianNav else AdminNav
  }

  /** Which items are highlighted on `pathname`, by the sidebar's rule. */
  function ActiveItems(pathname: string, role: UserRole): (r: seq<bool>)
    ensures |r| == |NavItems(role)|
    ensures forall i :: 0 <= i < |r| ==> (r[i] <==> Sidebar.IsActive(pathname, NavItems(role)[i].href))
  {
    seq(|NavItems(role)|, i requires 0 <= i < |NavItems(role)| => Sidebar.IsActive(pathname, NavItems(role)[i].href))
  }

  /** Every item of the phone bar is also a link of the sidebar for the same role. */
  lemma NavItemsInSidebar(role: UserRole, i: nat)
    requires i < |NavItems(role)|
    ensures HasHref(Sidebar.Links(role), NavItems(role)[i].href)
  {
    var links := Sidebar.Links(role);
    if role == Technician {
      assert links[i].href == NavItems(role)[i].href;
    } else {
      var j := if i == 0 then 0 else if i == 1 then 1 else if i == 2 then 3 else 4;
      assert links[j].href == NavItems(role)[i].href;
    }
  }
}
