/**
 * The page layout: the desktop sidebar's visibility, persisted under one
 * key of the browser's key-value storage; the dashboard links shown in the
 * sidebar and in the mobile menu; and which bottom-navigation item is
 * highlighted for the current path.
 *
 * Storage is a `map<string, string>`; whether a read or a write throws is a
 * parameter.
 */
module Layout {
  import opened Text

  const SidebarVisibleKey: string := "habitatlink-sidebar-visible"

  /** `String(b)` for a boolean. */
  function BoolText(b: bool): (s: string)
    ensures s == "false" <==> !b
  {
    if b then "true" else "false"
  }

  /**
   * The lazy initialiser: visible unless the stored value is exactly
   * "false"; a missing key or a read that throws also gives visible.
   */
  function InitialVisibility(store: map<string, string>, readThrows: bool): (visible: bool)
    ensures !visible <==> !readThrows && SidebarVisibleKey in store && store[SidebarVisibleKey] == "false"
  {
    if readThrows then true
    else if SidebarVisibleKey in store then store[SidebarVisibleKey] != "false"
    else true
  }

  /** The sidebar's visibility together with the storage it is persisted to. */
  datatype SidebarView = SidebarView(visible: bool, store: map<string, string>)

  /** `toggleSidebar`: flip, then try to store `String(next)`; a failed write is swallowed. */
  function Toggle(v: SidebarView, writeThrows: bool): (w: SidebarView)
    ensures w.visible == !v.visible
    ensures writeThrows ==> w.store == v.store
    ensures !writeThrows ==> SidebarVisibleKey in w.store && w.store[SidebarVisibleKey] == BoolText(w.visible)
    ensures forall k :: k != SidebarVisibleKey ==> (k in w.store <==> k in v.store)
    ensures forall k :: k != SidebarVisibleKey && k in v.store ==> w.store[k] == v.store[k]
  {
    var next := !v.visible;
    if writeThrows then SidebarView(next, v.store)
    else SidebarView(next, v.store[SidebarVisibleKey := BoolText(next)])
  }

  /** After a toggle whose write succeeded, a fresh page load reads back the same visibility. */
  lemma ToggleThenReload(v: SidebarView)
    ensures InitialVisibility(Toggle(v, false).store, false) == Toggle(v, false).visible
  {
  }

  /**
   * Toggling twice restores the visibility; the stored value ends as
   * `String(visible)`, so the store is restored exactly when it already
   * held that value (a missing key or any other text is replaced).
   */
  lemma {:induction false} ToggleTwice(v: SidebarView)
    ensures Toggle(Toggle(v, false), false).visible == v.visible
    ensures Toggle(Toggle(v, false), false).store == v.store[SidebarVisibleKey := BoolText(v.visible)]
    ensures Toggle(Toggle(v, false), false).store == v.store <==>
      SidebarVisibleKey in v.store && v.store[SidebarVisibleKey] == BoolText(v.visible)
  {
    var w := Toggle(Toggle(v, false), false);
    if w.store == v.store {
      assert SidebarVisibleKey in v.store;
    }
  }

  /** In a page that loaded from this store and toggled at will, the store always agrees with the sidebar, so a reload shows what was shown. */
  predicate Persisted(v: SidebarView) {
    InitialVisibility(v.store, false) == v.visible
  }

  lemma PersistedPreserved(v: SidebarView)
    requires Persisted(v)
    ensures Persisted(Toggle(v, false))
    ensures Persisted(SidebarView(InitialVisibility(v.store, false), v.store))
  {
  }

  /** The layout's sidebar state, initialised from storage and toggled by the panel button. */
  class Sidebar {
    var visible: bool
    var store: map<string, string>

    function View(): SidebarView
      reads this
    {
      SidebarView(visible, store)
    }

    constructor(store: map<string, string>, readThrows: bool)
      ensures View() == SidebarView(InitialVisibility(store, readThrows), store)
    {
      visible := InitialVisibility(store, readThrows);
      this.store := store;
    }

    method ToggleSidebar(writeThrows: bool)
      modifies this
      ensures View() == Toggle(old(View()), writeThrows)
    {
      var next := !visible;
      if !writeThrows {
        store := store[SidebarVisibleKey := BoolText(next)];
      }
      visible := next;
    }
  }

  // ── Navigation ────────────────────────────────────────────────

  datatype NavItem = NavItem(name: string, path: string)

  const AdminDashboardPath: string := "/dashboard/admin"
  const CitizenDashboardPath: string := "/dashboard/citizen"

  const CitizenDash: NavItem := NavItem("Citizen Dash", CitizenDashboardPath)
  const ProviderPortal: NavItem := NavItem("Provider Portal", "/dashboard/provider")
  const AdminAnalytics: NavItem := NavItem("Admin Analytics", AdminDashboardPath)

  const DashboardItems: seq<NavItem> := [CitizenDash, ProviderPortal, AdminAnalytics]

  const BottomNavItems: seq<NavItem> := [
    NavItem("Home", "/"),
    NavItem("Housing", "/housing"),
    NavItem("Programs", "/programs"),
    NavItem("Dashboard", CitizenDashboardPath)
  ]

  /** `items.filter(item => item.path !== '/dashboard/admin' || isAdmin)` */
  function SidebarDashboardItems(items: seq<NavItem>, isAdmin: bool): (r: seq<NavItem>)
    ensures forall it :: it in r <==> it in items && (it.path != AdminDashboardPath || isAdmin)
    ensures |r| <= |items|
    ensures isAdmin ==> r == items
  {
    if items == [] then []
    else
      var rest := SidebarDashboardItems(items[1..], isAdmin);
      assert items == [items[0]] + items[1..];
      if items[0].path != AdminDashboardPath || isAdmin then [items[0]] + rest else rest
  }

  /**
   * The sidebar lists all three dashboards for an admin, and the citizen and
   * provider links, in that order, for everyone else; the mobile menu lists
   * all three whatever the role.
   */
  lemma DashboardLinksByRole()
    ensures SidebarDashboardItems(DashboardItems, true) == DashboardItems
    ensures SidebarDashboardItems(DashboardItems, false) == [CitizenDash, ProviderPortal]
    ensures AdminAnalytics in DashboardItems && AdminAnalytics !in SidebarDashboardItems(DashboardItems, false)
  {
    assert DashboardItems[1..] == [ProviderPortal, AdminAnalytics];
    assert DashboardItems[1..][1..] == [AdminAnalytics];
    assert SidebarDashboardItems([AdminAnalytics], false) == [];
    assert ProviderPortal.path[11] != AdminDashboardPath[11] && CitizenDash.path[11] != AdminDashboardPath[11];
    assert SidebarDashboardItems([ProviderPortal, AdminAnalytics], false) == [ProviderPortal];
  }

  /** A bottom-nav item is highlighted on its own path; "Dashboard" on every path beginning "/dashboard". */
  predicate BottomNavActive(item: NavItem, pathname: string) {
    pathname == item.path || (item.path == CitizenDashboardPath && StartsWith(pathname, "/dashboard"))
  }

  /** On any path at most one bottom-nav item is highlighted; on a dashboard path it is "Dashboard". */
  lemma AtMostOneBottomNavActive(pathname: string)
    ensures forall i, j :: 0 <= i < j < |BottomNavItems| ==>
      !(BottomNavActive(BottomNavItems[i], pathname) && BottomNavActive(BottomNavItems[j], pathname))
    ensures StartsWith(pathname, "/dashboard") ==> BottomNavActive(BottomNavItems[3], pathname)
  {
    if StartsWith(pathname, "/dashboard") {
      assert pathname[1] == 'd';
    }
  }

  /**
   * The prefix test is on characters, not on path segments: "/dashboard"
   * itself, the admin page and also "/dashboards" highlight "Dashboard".
   */
  lemma DashboardPrefixExamples()
    ensures BottomNavActive(BottomNavItems[3], "/dashboard")
    ensures BottomNavActive(BottomNavItems[3], AdminDashboardPath)
    ensures BottomNavActive(BottomNavItems[3], "/dashboards")
    ensures !BottomNavActive(BottomNavItems[3], "/housing")
  {
  }
}
