/**
 * The dashboard: the online sites, the critical tickets, whether the
 * critical-alert badge and section are shown, the first three online sites
 * under "Recent Sites", and where its buttons navigate. The site and ticket
 * collections are parameters.
 */
module DashboardScreen {
  import opened Types
  import opened Sequences
  import opened Navigation
  import Theme
  import SiteCard

  /** The online sites, in their original order, each as often as in `sites`. */
  function ActiveSites(sites: seq<Site>): (r: seq<Site>)
    ensures IsSubsequence(r, sites)
    ensures forall site :: site in r <==> site in sites && site.status == Online
    ensures forall site :: multiset(r)[site] == if site.status == Online then multiset(sites)[site] else 0
  {
    var online := (site: Site) => site.status == Online;
    FilterIsSubsequence(sites, online);
    forall site ensures multiset(Filter(sites, online))[site] == if online(site) then multiset(sites)[site] else 0 {
      FilterMultiplicity(sites, online, site);
    }
    Filter(sites, online)
  }

  /** The critical-priority tickets, in their original order, each as often as in `tickets`. */
  function CriticalTickets(tickets: seq<Ticket>): (r: seq<Ticket>)
    ensures IsSubsequence(r, tickets)
    ensures forall t :: t in r <==> t in tickets && t.priority == Critical
    ensures forall t :: multiset(r)[t] == if t.priority == Critical then multiset(tickets)[t] else 0
  {
    var critical := (t: Ticket) => t.priority == Critical;
    FilterIsSubsequence(tickets, critical);
    forall t ensures multiset(Filter(tickets, critical))[t] == if critical(t) then multiset(tickets)[t] else 0 {
      FilterMultiplicity(tickets, critical, t);
    }
    Filter(tickets, critical)
  }

  /** The notification badge and the Critical Alerts section share this condition. */
  function ShowsCriticalAlerts(tickets: seq<Ticket>): (shown: bool)
    ensures shown <==> exists t :: t in tickets && t.priority == Critical
  {
    var critical := CriticalTickets(tickets);
    assert |critical| > 0 ==> critical[0] in critical;
    |critical| > 0
  }

  const RecentSitesLimit: nat := 3

  /** "Recent Sites": at most the first three online sites. */
  function RecentSites(sites: seq<Site>): (r: seq<Site>)
    ensures |r| == if |ActiveSites(sites)| < RecentSitesLimit then |ActiveSites(sites)| else RecentSitesLimit
    ensures r <= ActiveSites(sites)
    ensures forall site :: site in r ==> site in sites && site.status == Online
  {
    var r := Take(ActiveSites(sites), RecentSitesLimit);
    assert forall site :: site in r ==> site in ActiveSites(sites);
    r
  }

  /**
   * The colour of the status dot on a recent-site card. It agrees with the
   * site card's status colour exactly on 'online', 'offline' and 'warning':
   * 'maintenance' and strings outside the union are shown in the offline
   * colour.
   */
  function StatusDotColor(status: string): (r: string)
    ensures r == SiteCard.StatusColor(status) <==> ParseSiteStatus(status).Some? && status != "maintenance"
    ensures r == Theme.Offline <==> status != "online" && status != "warning"
  {
    if status == "online" then Theme.Online
    else if status == "warning" then Theme.WarningStatus
    else Theme.Offline
  }

  /** Every recent site is online, so its dot is the online colour, as on its site card. */
  lemma RecentSiteDotIsOnline(sites: seq<Site>, site: Site)
    requires site in RecentSites(sites)
    ensures StatusDotColor(SiteStatusName(site.status)) == Theme.Online
    ensures SiteCard.StatusColor(SiteStatusName(site.status)) == Theme.Online
  {
  }

  /** Tapping a recent site opens the details of that very site. */
  function RecentSiteTargets(sites: seq<Site>): (r: seq<RootRoute>)
    ensures |r| == |RecentSites(sites)|
    ensures forall i :: 0 <= i < |r| ==> r[i] == SiteDetails(RecentSites(sites)[i].id)
    ensures forall route :: route in r ==>
      route.SiteDetails? && exists site :: site in sites && site.status == Online && site.id == route.siteId
  {
    var recent := RecentSites(sites);
    var r := seq(|recent|, i requires 0 <= i < |recent| => SiteDetails(recent[i].id));
    assert forall i :: 0 <= i < |r| ==> recent[i] in recent;
    r
  }

  /** The dashboard's buttons other than the recent-site cards. */
  datatype DashboardButton =
    | NotificationsButton
    | SeeAllAlerts
    | SeeAllSites
    | CreateTicketButton
    | ViewSitesButton
    | StatisticsButton
    | ReportsButton

  /** Where a button navigates; the notification bell and Reports have no action. */
  function ButtonTarget(button: DashboardButton): (d: Option<Destination>)
    ensures d.None? <==> button == NotificationsButton || button == ReportsButton
    ensures d.Some? && d.value.TabScreen? ==> d.value.tab != Dashboard && d.value.tab != Profile
    ensures (d.Some? && d.value.Stack?) <==> button == CreateTicketButton
    ensures d.Some? && d.value.Stack? ==> d.value.route == CreateTicket(None)
    ensures d.Some? && d.value.Stack? ==> RouteFromPayload("CreateTicket", map[]) == Some(d.value.route)
  {
    match button
    case NotificationsButton => None
    case SeeAllAlerts => Some(TabScreen(Tickets))
    case SeeAllSites => Some(TabScreen(Sites))
    case CreateTicketButton => Some(Stack(CreateTicket(None)))
    case ViewSitesButton => Some(TabScreen(Sites))
    case StatisticsButton => Some(TabScreen(Statistics))
    case ReportsButton => None
  }
}
