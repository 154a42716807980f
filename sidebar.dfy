/**
 * The side navigation (src/components/layout/Sidebar.tsx): the route list
 * for the user's role, the admin-only section, the active-link rule and the
 * icon lookup.
 */
module Sidebar {
  import opened Strings
  import opened Database
  import opened Constants
  import Middleware

  datatype Icon =
    | InboxIcon | CalendarIcon | WrenchIcon | ClipboardCheckIcon | FileTextIcon | FilePlusIcon
    | PackageIcon | UsersIcon | BuildingIcon | SettingsIcon | CalendarCheckIcon | HistoryIcon

  /** The icon names the sidebar knows. */
  const IconMap: map<string, Icon> := map[
    "inbox" := InboxIcon, "calendar" := CalendarIcon, "wrench" := WrenchIcon,
    "clipboard-check" := ClipboardCheckIcon, "file-text" := FileTextIcon,
    "file-plus" := FilePlusIcon, "package" := PackageIcon, "users" := UsersIcon,
    "building" := BuildingIcon, "settings" := SettingsIcon,
    "calendar-check" := CalendarCheckIcon, "history" := HistoryIcon]

  /** `iconMap[name] || fallback` */
  function IconFor(name: string, fallback: Icon): (r: Icon)
    ensures name in IconMap ==> r == IconMap[name]
    ensures name !in IconMap ==> r == fallback
  {
    if name in IconMap then IconMap[name] else fallback
  }

  /** The main section: the technician's routes for a technician, the office routes for everyone else. */
  function MainRoutes(role: UserRole): (r: seq<Route>)
    ensures role == Technician ==> r == TechnicianRoutes
    ensures role != Technician ==> r == AdminRoutes
  {
    if role == Technician then TechnicianRoutes else AdminRoutes
  }

  /** The administration section: only for an admin, hidden (empty) otherwise. */
  function AdminSection(role: UserRole): (r: seq<Route>)
    ensures |r| > 0 <==> role == Admin
    ensures role == Admin ==> r == AdminOnlyRoutes
  {
    if role == Admin then AdminOnlyRoutes else []
  }

  function SectionHeading(role: UserRole): (h: string)
    ensures h == "Mon espace" <==> role == Technician
    ensures h == "Gestion" <==> role != Technician
  {
    if role == Technician then "Mon espace" else "Gestion"
  }

  /** Every link the sidebar shows to `role`, in order. */
  function Links(role: UserRole): seq<Route> {
    MainRoutes(role) + AdminSection(role)
  }

  /** A link is active on its own page and on every page below it. */
  predicate IsActive(pathname: string, href: string) {
    pathname == href || StartsWith(pathname, href + "/")
  }

  /**
   * The active rule is a path-segment prefix test: the link's path is a
   * prefix of the page's path that ends where a segment ends.
   */
  lemma ActiveIsSegmentPrefix(pathname: string, href: string)
    ensures IsActive(pathname, href) <==>
      StartsWith(pathname, href) && (|pathname| == |href| || pathname[|href|] == '/')
  {
    if StartsWith(pathname, href) && |pathname| > |href| && pathname[|href|] == '/' {
      assert pathname[..|href| + 1] == href + "/";
    }
    if StartsWith(pathname, href + "/") {
      assert pathname[..|href|] == (href + "/")[..|href|];
    }
  }

  /** Every icon the route tables name is in the map, so the fallbacks are never drawn. */
  lemma RouteIconsKnown()
    ensures forall i :: 0 <= i < |AdminRoutes| ==> AdminRoutes[i].icon in IconMap
    ensures forall i :: 0 <= i < |AdminOnlyRoutes| ==> AdminOnlyRoutes[i].icon in IconMap
    ensures forall i :: 0 <= i < |TechnicianRoutes| ==> TechnicianRoutes[i].icon in IconMap
  {
  }

  /**
   * The administration pages appear for an admin only, and a technician sees
   * exactly the technician's routes.
   */
  lemma AdminLinksOnlyForAdmin(role: UserRole)
    ensures role == Admin <==> HasHref(Links(role), "/admin/users")
    ensures role == Technician ==> Links(role) == TechnicianRoutes
  {
    var l := Links(role);
    if role == Admin {
      assert l[7].href == "/admin/users";
    } else {
      forall i | 0 <= i < |l| ensures l[i].href != "/admin/users" {
        assert l[i].href[1] != 'a';
      }
    }
  }

  /** A route table whose `i`-th link starts with the `ks[i]`-th protected prefix is protected throughout. */
  lemma TableProtected(t: seq<Route>, ks: seq<nat>)
    requires |ks| == |t|
    requires forall i :: 0 <= i < |t| ==>
      ks[i] < |Middleware.ProtectedPrefixes| && StartsWith(t[i].href, Middleware.ProtectedPrefixes[ks[i]])
    ensures forall i :: 0 <= i < |t| ==> Middleware.IsProtectedRoute(t[i].href)
  {
    forall i | 0 <= i < |t| ensures Middleware.IsProtectedRoute(t[i].href) {
      assert StartsWith(t[i].href, Middleware.ProtectedPrefixes[ks[i]]);
    }
  }

  lemma TechnicianRoutesProtected()
    ensures forall i :: 0 <= i < |TechnicianRoutes| ==> Middleware.IsProtectedRoute(TechnicianRoutes[i].href)
  {
    TableProtected(TechnicianRoutes, [8, 8, 3]);
  }

  lemma AdminRoutesProtected()
    ensures forall i :: 0 <= i < |AdminRoutes| ==> Middleware.IsProtectedRoute(AdminRoutes[i].href)
  {
    TableProtected(AdminRoutes, [1, 2, 3, 4, 5, 6, 7]);
  }

  lemma AdminOnlyRoutesProtected()
    ensures forall i :: 0 <= i < |AdminOnlyRoutes| ==> Middleware.IsProtectedRoute(AdminOnlyRoutes[i].href)
  {
    TableProtected(AdminOnlyRoutes, [0, 0, 0]);
  }

  /** Every link of the sidebar leads to a page the session middleware protects. */
  lemma LinksAreProtected(role: UserRole, i: nat)
    requires i < |Links(role)|
    ensures Middleware.IsProtectedRoute(Links(role)[i].href)
  {
    if role == Technician {
      TechnicianRoutesProtected();
    } else {
      AdminRoutesProtected();
      if role == Admin {
        AdminOnlyRoutesProtected();
        if i >= |AdminRoutes| {
          assert Links(role)[i] == AdminOnlyRoutes[i - |AdminRoutes|];
        }
      }
    }
  }
}
