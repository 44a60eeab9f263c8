/**
 * The navigation contract: the named destinations of the root stack and of
 * the bottom tabs, each with the parameters it carries.
 *
 * A destination is a datatype with one constructor per screen, so a
 * required identifier can never be missing. The untyped form the navigator
 * receives, a screen name and a parameter object, is modelled as a name and a
 * string map; `RouteFromPayload` accepts exactly the pairs the parameter
 * list type admits.
 */
module Navigation {
  import opened Types

  datatype RootRoute =
    | Login
    | MainTabs
    | SiteDetails(siteId: string)
    | AssetDetails(assetId: string)
    | TicketDetails(ticketId: string)
    | CreateTicket(prefillSiteId: Option<string>)
    | UploadMaintenance(maintenanceAssetId: string)

  datatype Tab = Dashboard | Sites | Tickets | Statistics | Profile

  /** What a screen may ask the navigator for: a stack screen or a tab. */
  datatype Destination = Stack(route: RootRoute) | TabScreen(tab: Tab)

  function TabName(tab: Tab): string {
    match tab
    case Dashboard => "Dashboard"
    case Sites => "Sites"
    case Tickets => "Tickets"
    case Statistics => "Statistics"
    case Profile => "Profile"
  }

  function ParseTab(raw: string): (r: Option<Tab>)
    ensures r.Some? ==> TabName(r.value) == raw
    ensures r.None? <==> forall t: Tab :: TabName(t) != raw
  {
    if raw == "Dashboard" then Some(Dashboard)
    else if raw == "Sites" then Some(Sites)
    else if raw == "Tickets" then Some(Tickets)
    else if raw == "Statistics" then Some(Statistics)
    else if raw == "Profile" then Some(Profile)
    else None
  }

  function RouteName(route: RootRoute): string {
    match route
    case Login => "Login"
    case MainTabs => "MainTabs"
    case SiteDetails(_) => "SiteDetails"
    case AssetDetails(_) => "AssetDetails"
    case TicketDetails(_) => "TicketDetails"
    case CreateTicket(_) => "CreateTicket"
    case UploadMaintenance(_) => "UploadMaintenance"
  }

  /** The parameter object handed to the navigator; no parameters is the empty map. */
  function Payload(route: RootRoute): map<string, string> {
    match route
    case Login => map[]
    case MainTabs => map[]
    case SiteDetails(id) => map["siteId" := id]
    case AssetDetails(id) => map["assetId" := id]
    case TicketDetails(id) => map["ticketId" := id]
    case CreateTicket(prefill) =>
      (match prefill
       case None => map[]
       case Some(id) => map["siteId" := id])
    case UploadMaintenance(id) => map["assetId" := id]
  }

  /** A payload holding exactly the one key `key`. */
  predicate HasOnly(params: map<string, string>, key: string) {
    params.Keys == {key}
  }

  /**
   * The (name, parameters) pairs the root stack's parameter list admits.
   * A parameterised screen whose identifier is missing, an unknown name, or
   * an unexpected key is rejected.
   */
  function RouteFromPayload(name: string, params: map<string, string>): (r: Option<RootRoute>)
    ensures r.Some? ==> RouteName(r.value) == name && Payload(r.value) == params
    ensures params == map[] ==> (r.Some? <==> name in {"Login", "MainTabs", "CreateTicket"})
  {
    if name == "Login" then (if params == map[] then Some(Login) else None)
    else if name == "MainTabs" then (if params == map[] then Some(MainTabs) else None)
    else if name == "SiteDetails" then
      (if HasOnly(params, "siteId") then Some(SiteDetails(params["siteId"])) else None)
    else if name == "AssetDetails" then
      (if HasOnly(params, "assetId") then Some(AssetDetails(params["assetId"])) else None)
    else if name == "TicketDetails" then
      (if HasOnly(params, "ticketId") then Some(TicketDetails(params["ticketId"])) else None)
    else if name == "CreateTicket" then
      (if params == map[] then Some(CreateTicket(None))
       else if HasOnly(params, "siteId") then Some(CreateTicket(Some(params["siteId"])))
       else None)
    else if name == "UploadMaintenance" then
      (if HasOnly(params, "assetId") then Some(UploadMaintenance(params["assetId"])) else None)
    else None
  }

  /** Every destination's own name and payload are accepted and give it back. */
  lemma PayloadRoundTrip(route: RootRoute)
    ensures RouteFromPayload(RouteName(route), Payload(route)) == Some(route)
  {
    match route
    case SiteDetails(id) => assert HasOnly(Payload(route), "siteId");
    case AssetDetails(id) => assert HasOnly(Payload(route), "assetId");
    case TicketDetails(id) => assert HasOnly(Payload(route), "ticketId");
    case UploadMaintenance(id) => assert HasOnly(Payload(route), "assetId");
    case CreateTicket(prefill) =>
      if prefill.Some? {
        assert HasOnly(Payload(route), "siteId");
      }
    case _ =>
  }
}
