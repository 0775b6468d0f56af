/** The navigation bar: which links a backend and the founder flag show,
    and what switching backends does. */
module Navbar {
  import opened Js
  import opened Storage
  import Lists

  datatype NavItem = NavItem(path: string, title: string, backend: string)

  const DashboardItem: NavItem := NavItem("/dashboard", "Dashboard", Both)
  const WalletItem: NavItem := NavItem("/wallet", "Wallet", AutoTask)
  const StrategiesItem: NavItem := NavItem("/strategies", "Strategies", AutoTask)
  const ChatItem: NavItem := NavItem("/chat", "Chat", Both)
  const SettingsItem: NavItem := NavItem("/settings", "Settings", Both)
  const ClTechItem: NavItem := NavItem("/cl-tech", "CL Tech", ClTech)

  /** `navItems`: the five fixed items, then the CL Tech item pushed for a
      founder on the CL Tech backend. */
  function NavItems(backend: string, isFounder: bool): seq<NavItem> {
    [DashboardItem, WalletItem, StrategiesItem, ChatItem, SettingsItem]
      + (if backend == ClTech && isFounder then [ClTechItem] else [])
  }

  /** The construction as written: the literal array, then a conditional
      `push` onto it. */
  method BuildNavItems(backend: string, isFounder: bool) returns (items: seq<NavItem>)
    ensures items == NavItems(backend, isFounder)
    ensures |items| == (if backend == ClTech && isFounder then 6 else 5)
    ensures items[..5] == [DashboardItem, WalletItem, StrategiesItem, ChatItem, SettingsItem]
  {
    items := [DashboardItem, WalletItem, StrategiesItem, ChatItem, SettingsItem];
    if backend == ClTech && isFounder {
      items := items + [ClTechItem];
    }
  }

  predicate ShownOn(backend: string, item: NavItem) {
    item.backend == Both || item.backend == backend
  }

  /** The items the bar lists: none on the entry page, else the items of
      `navItems` tagged for both backends or for the current one, in order. */
  function FilteredNavItems(pathname: string, backend: string, isFounder: bool): (r: Option<seq<NavItem>>)
    ensures r.None? <==> pathname == "/"
    ensures r.Some? ==> Lists.SubsequenceOf(r.value, NavItems(backend, isFounder))
  {
    if pathname == "/" then None
    else
      Lists.FilterSubsequence((item: NavItem) => ShownOn(backend, item), NavItems(backend, isFounder));
      Some(Lists.Filter((item: NavItem) => ShownOn(backend, item), NavItems(backend, isFounder)))
  }

  /** Dashboard, Chat and Settings are always shown; Wallet and Strategies
      exactly on AutoTask; CL Tech exactly for a founder on CL Tech. */
  lemma ItemsShown(pathname: string, backend: string, isFounder: bool)
    requires pathname != "/"
    ensures var items := FilteredNavItems(pathname, backend, isFounder).value;
      && DashboardItem in items && ChatItem in items && SettingsItem in items
      && (WalletItem in items <==> backend == AutoTask)
      && (StrategiesItem in items <==> backend == AutoTask)
      && (ClTechItem in items <==> backend == ClTech && isFounder)
  {
    var all := NavItems(backend, isFounder);
    Lists.FilterMembers((item: NavItem) => ShownOn(backend, item), all);
    assert all[0] == DashboardItem && all[1] == WalletItem && all[2] == StrategiesItem;
    assert all[3] == ChatItem && all[4] == SettingsItem;
    assert ClTechItem in all <==> backend == ClTech && isFounder;
  }

  /** The calls `handleBackendSwitch` makes, in order. */
  datatype Effect = SwitchBackend(backend: string) | Navigate(path: string)

  /** `handleBackendSwitch(backend)`: `switchBackend(backend)` and then, if
      that call returned, navigation to the dashboard. `switchThrows` says
      whether the call threw; the session provider supplies no
      `switchBackend`, so as wired it does. */
  function BackendSwitchEffects(backend: string, switchThrows: bool): (effects: seq<Effect>)
    ensures |effects| == if switchThrows then 1 else 2
    ensures effects[0] == SwitchBackend(backend)
    ensures Navigate("/dashboard") in effects <==> !switchThrows
    ensures !switchThrows ==> effects[|effects| - 1] == Navigate("/dashboard")
  {
    if switchThrows then [SwitchBackend(backend)] else [SwitchBackend(backend), Navigate("/dashboard")]
  }
}
