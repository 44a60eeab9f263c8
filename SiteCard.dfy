/**
 * The site card: the status colour and icon switches, the upper-cased
 * status text and the alert badge.
 *
 * Both switches compare the raw status string and fall back to a default
 * for anything else; their contracts say that the fallback is reached
 * exactly by strings outside the site status union.
 */
module SiteCard {
  import opened Types
  import Theme
  import opened Text

  /** The status colour; the disabled colour is the fallback for strings outside the union. */
  function StatusColor(status: string): (r: string)
    ensures r == Theme.Disabled <==> ParseSiteStatus(status).None?
  {
    if status == "online" then Theme.Online
    else if status == "offline" then Theme.Offline
    else if status == "warning" then Theme.WarningStatus
    else if status == "maintenance" then Theme.Maintenance
    else Theme.Disabled
  }

  /** The status icon; help-circle is the fallback for strings outside the union. */
  function StatusIcon(status: string): (r: string)
    ensures r == "help-circle" <==> ParseSiteStatus(status).None?
  {
    if status == "online" then "checkmark-circle"
    else if status == "offline" then "close-circle"
    else if status == "warning" then "warning"
    else if status == "maintenance" then "construct"
    else "help-circle"
  }

  /** The four statuses get four different colours. */
  lemma StatusColorsDistinct(a: SiteStatus, b: SiteStatus)
    requires a != b
    ensures StatusColor(SiteStatusName(a)) != StatusColor(SiteStatusName(b))
  {
  }

  /** The four statuses get four different icons. */
  lemma StatusIconsDistinct(a: SiteStatus, b: SiteStatus)
    requires a != b
    ensures StatusIcon(SiteStatusName(a)) != StatusIcon(SiteStatusName(b))
  {
  }

  /**
   * A status of the union gets neither fallback, and its upper-cased text
   * lowers back to the status.
   */
  lemma KnownStatusShown(status: SiteStatus)
    ensures StatusColor(SiteStatusName(status)) != Theme.Disabled
    ensures StatusIcon(SiteStatusName(status)) != "help-circle"
    ensures ToLower(ToUpper(SiteStatusName(status))) == SiteStatusName(status)
  {
    ToUpperRoundTrip(SiteStatusName(status));
  }

  /** What the card shows of a site's status and alerts. */
  datatype SiteCardView = SiteCardView(
    iconName: string,
    iconColor: string,
    statusText: string,
    statusTextColor: string,
    alertBadge: Option<int>)

  function Render(site: Site): (v: SiteCardView)
    ensures v.iconName == StatusIcon(SiteStatusName(site.status)) != "help-circle"
    ensures v.statusTextColor == v.iconColor == StatusColor(SiteStatusName(site.status)) != Theme.Disabled
    ensures v.statusText == ToUpper(SiteStatusName(site.status))
    ensures ToLower(v.statusText) == SiteStatusName(site.status)
    ensures v.alertBadge.Some? <==> site.alerts > 0
    ensures v.alertBadge.Some? ==> v.alertBadge.value == site.alerts
  {
    var name := SiteStatusName(site.status);
    KnownStatusShown(site.status);
    SiteCardView(
      StatusIcon(name),
      StatusColor(name),
      ToUpper(name),
      StatusColor(name),
      if site.alerts > 0 then Some(site.alerts) else None)
  }
}
