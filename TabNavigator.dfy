/**
 * The bottom tab bar: the registered tabs and the icon chosen for a tab
 * from its route name and whether it is focused.
 */
module TabNavigator {
  import opened Types
  import opened Navigation

  /**
   * The icon name for a tab. The help icon is shown exactly for route names
   * that are not a tab, focused or not.
   */
  function TabIcon(routeName: string, focused: bool): (r: string)
    ensures r == "help-outline" <==> ParseTab(routeName).None?
  {
    if routeName == "Dashboard" then (if focused then "grid" else "grid-outline")
    else if routeName == "Sites" then (if focused then "location" else "location-outline")
    else if routeName == "Tickets" then (if focused then "ticket" else "ticket-outline")
    else if routeName == "Statistics" then (if focused then "stats-chart" else "stats-chart-outline")
    else if routeName == "Profile" then (if focused then "person" else "person-outline")
    else "help-outline"
  }

  /** The tabs in the order they are registered with the navigator. */
  const RegisteredTabs: seq<Tab> := [Dashboard, Sites, Tickets, Statistics, Profile]

  /** Each of the five tabs is registered, exactly once. */
  lemma RegisteredTabsOnce()
    ensures |RegisteredTabs| == 5
    ensures forall t: Tab :: t in RegisteredTabs
    ensures forall i, j :: 0 <= i < j < |RegisteredTabs| ==> RegisteredTabs[i] != RegisteredTabs[j]
  {
    forall t: Tab ensures t in RegisteredTabs {
      match t
      case Dashboard => assert RegisteredTabs[0] == t;
      case Sites => assert RegisteredTabs[1] == t;
      case Tickets => assert RegisteredTabs[2] == t;
      case Statistics => assert RegisteredTabs[3] == t;
      case Profile => assert RegisteredTabs[4] == t;
    }
  }

  /** An unfocused tab shows the outline variant of its focused icon. */
  lemma OutlineWhenUnfocused(tab: Tab)
    ensures TabIcon(TabName(tab), false) == TabIcon(TabName(tab), true) + "-outline"
  {
  }

  /** No two (tab, focus) combinations share an icon. */
  lemma TabIconsInjective(a: Tab, focusedA: bool, b: Tab, focusedB: bool)
    requires TabIcon(TabName(a), focusedA) == TabIcon(TabName(b), focusedB)
    ensures a == b && focusedA == focusedB
  {
  }
}
