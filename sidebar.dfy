/** The sidebar's navigation (components/layout/sidebar.tsx): which item is highlighted. */
module SidebarModel {
  import opened Text

  datatype NavItem = NavItem(href: string, caption: string)

  const DashboardHref: string := "/dashboard"

  /** `navItems`, in display order (the icons are left out). */
  const NavItems: seq<NavItem> := [
    NavItem("/dashboard", "Dashboard"),
    NavItem("/dashboard/invoices", "Invoices"),
    NavItem("/dashboard/clients", "Clients"),
    NavItem("/dashboard/settings", "Settings")
  ]

  /** `isActive`: an exact match, or, for any item but the dashboard, a plain string prefix. */
  predicate IsActive(pathname: string, href: string)
    ensures pathname == href ==> IsActive(pathname, href)
    ensures IsActive(pathname, href) ==> |href| <= |pathname| && pathname[..|href|] == href
  {
    pathname == href || (href != DashboardHref && StartsWith(pathname, href))
  }

  lemma ExactMatchIsActive(href: string)
    ensures IsActive(href, href)
  {
  }

  /** The dashboard item lights up only on "/dashboard" itself. */
  lemma DashboardOnlyOnExactMatch(pathname: string)
    ensures IsActive(pathname, DashboardHref) <==> pathname == DashboardHref
  {
  }

  /** The prefix test has no '/' boundary: "/dashboard/clientsX" lights up Clients. */
  lemma PrefixWithoutBoundary()
    ensures IsActive("/dashboard/clientsX", "/dashboard/clients")
  {
    assert "/dashboard/clientsX"[..|"/dashboard/clients"|] == "/dashboard/clients";
  }

  /** On the new-invoice page, Invoices is active and Dashboard is not. */
  lemma NewInvoicePageHighlightsInvoices()
    ensures IsActive("/dashboard/invoices/new", NavItems[1].href)
    ensures !IsActive("/dashboard/invoices/new", NavItems[0].href)
  {
    assert "/dashboard/invoices/new"[..|"/dashboard/invoices"|] == "/dashboard/invoices";
  }

  lemma CharOfPrefix(s: string, prefix: string, k: nat)
    requires StartsWith(s, prefix) && k < |prefix|
    ensures s[k] == prefix[k]
  {
    assert s[..|prefix|][k] == s[k];
  }

  /** For the four configured items, no path highlights two of them. */
  lemma AtMostOneActive(pathname: string)
    ensures forall i, j :: 0 <= i < j < |NavItems| ==>
      !(IsActive(pathname, NavItems[i].href) && IsActive(pathname, NavItems[j].href))
  {
    var d, inv, cl, st := NavItems[0].href, NavItems[1].href, NavItems[2].href, NavItems[3].href;
    assert d == DashboardHref && |d| == 10;
    assert inv[11] == 'i' && cl[11] == 'c' && st[11] == 's';
    if IsActive(pathname, inv) {
      CharOfPrefix(pathname, inv, 11);
    }
    if IsActive(pathname, cl) {
      CharOfPrefix(pathname, cl, 11);
    }
    if IsActive(pathname, st) {
      CharOfPrefix(pathname, st, 11);
    }
  }
}
