/**
 * The domain records of the field-operations app and the closed string
 * unions their status and priority fields range over.
 *
 * Each union becomes a datatype. Its spelling (the string literal the
 * TypeScript code compares against) is given by a `...Name` function, and a
 * `Parse...` function recognises exactly the strings the union admits, so
 * that presentation code which switches on the raw string, with a `default`
 * branch, can be modelled as written.
 */
module Types {

  datatype Option<+T> = None | Some(value: T)

  // ---------------------------------------------------------------------
  // Users

  datatype UserRole = Admin | Technician

  function UserRoleName(role: UserRole): string {
    match role
    case Admin => "admin"
    case Technician => "technician"
  }

  function ParseUserRole(raw: string): (r: Option<UserRole>)
    ensures r.Some? ==> UserRoleName(r.value) == raw
    ensures r.None? <==> forall v: UserRole :: UserRoleName(v) != raw
  {
    if raw == "admin" then Some(Admin)
    else if raw == "technician" then Some(Technician)
    else None
  }

  datatype User = User(id: string, email: string, name: string, role: UserRole, avatar: Option<string>)

  // ---------------------------------------------------------------------
  // Sites

  datatype SiteStatus = Online | Offline | Warning | Maintenance

  function SiteStatusName(status: SiteStatus): string {
    match status
    case Online => "online"
    case Offline => "offline"
    case Warning => "warning"
    case Maintenance => "maintenance"
  }

  function ParseSiteStatus(raw: string): (r: Option<SiteStatus>)
    ensures r.Some? ==> SiteStatusName(r.value) == raw
    ensures r.None? <==> forall v: SiteStatus :: SiteStatusName(v) != raw
  {
    if raw == "online" then Some(Online)
    else if raw == "offline" then Some(SiteStatus.Offline)
    else if raw == "warning" then Some(Warning)
    else if raw == "maintenance" then Some(SiteStatus.Maintenance)
    else None
  }

  /** The union admits exactly the four spellings: every status parses back to itself. */
  lemma SiteStatusRoundTrip(status: SiteStatus)
    ensures ParseSiteStatus(SiteStatusName(status)) == Some(status)
  {
  }

  // ---------------------------------------------------------------------
  // Assets

  datatype AssetStatus = Operational | Maintenance | Offline

  function AssetStatusName(status: AssetStatus): string {
    match status
    case Operational => "operational"
    case Maintenance => "maintenance"
    case Offline => "offline"
  }

  function ParseAssetStatus(raw: string): (r: Option<AssetStatus>)
    ensures r.Some? ==> AssetStatusName(r.value) == raw
    ensures r.None? <==> forall v: AssetStatus :: AssetStatusName(v) != raw
  {
    if raw == "operational" then Some(AssetStatus.Operational)
    else if raw == "maintenance" then Some(AssetStatus.Maintenance)
    else if raw == "offline" then Some(AssetStatus.Offline)
    else None
  }

  lemma AssetStatusRoundTrip(status: AssetStatus)
    ensures ParseAssetStatus(AssetStatusName(status)) == Some(status)
  {
  }

  /**
   * An asset belongs to the site named by `siteId`. Images, when present,
   * are opaque references.
   */
  datatype Asset = Asset(
    id: string,
    name: string,
    assetType: string,
    status: AssetStatus,
    lastMaintenance: string,
    nextMaintenance: string,
    siteId: string,
    images: Option<seq<string>>)

  /**
   * A monitored site. Coordinates, power output and efficiency are
   * floating-point display values and are not part of the model.
   */
  datatype Site = Site(
    id: string,
    name: string,
    location: string,
    status: SiteStatus,
    lastUpdated: string,
    alerts: int,
    assets: seq<Asset>)

  // ---------------------------------------------------------------------
  // Tickets

  datatype TicketPriority = Low | Medium | High | Critical

  function TicketPriorityName(priority: TicketPriority): string {
    match priority
    case Low => "low"
    case Medium => "medium"
    case High => "high"
    case Critical => "critical"
  }

  function ParseTicketPriority(raw: string): (r: Option<TicketPriority>)
    ensures r.Some? ==> TicketPriorityName(r.value) == raw
    ensures r.None? <==> forall v: TicketPriority :: TicketPriorityName(v) != raw
  {
    if raw == "low" then Some(Low)
    else if raw == "medium" then Some(Medium)
    else if raw == "high" then Some(High)
    else if raw == "critical" then Some(Critical)
    else None
  }

  lemma TicketPriorityRoundTrip(priority: TicketPriority)
    ensures ParseTicketPriority(TicketPriorityName(priority)) == Some(priority)
  {
  }

  datatype TicketStatus = Open | InProgress | Resolved | Closed

  function TicketStatusName(status: TicketStatus): string {
    match status
    case Open => "open"
    case InProgress => "in-progress"
    case Resolved => "resolved"
    case Closed => "closed"
  }

  function ParseTicketStatus(raw: string): (r: Option<TicketStatus>)
    ensures r.Some? ==> TicketStatusName(r.value) == raw
    ensures r.None? <==> forall v: TicketStatus :: TicketStatusName(v) != raw
  {
    if raw == "open" then Some(Open)
    else if raw == "in-progress" then Some(InProgress)
    else if raw == "resolved" then Some(Resolved)
    else if raw == "closed" then Some(Closed)
    else None
  }

  lemma TicketStatusRoundTrip(status: TicketStatus)
    ensures ParseTicketStatus(TicketStatusName(status)) == Some(status)
  {
  }

  datatype Ticket = Ticket(
    id: string,
    title: string,
    description: string,
    priority: TicketPriority,
    status: TicketStatus,
    siteId: string,
    siteName: string,
    createdAt: string,
    updatedAt: string,
    assignedTo: Option<string>)

  // ---------------------------------------------------------------------
  // Maintenance logs

  datatype MaintenanceStatus = Completed | Scheduled

  function MaintenanceStatusName(status: MaintenanceStatus): string {
    match status
    case Completed => "completed"
    case Scheduled => "scheduled"
  }

  function ParseMaintenanceStatus(raw: string): (r: Option<MaintenanceStatus>)
    ensures r.Some? ==> MaintenanceStatusName(r.value) == raw
    ensures r.None? <==> forall v: MaintenanceStatus :: MaintenanceStatusName(v) != raw
  {
    if raw == "completed" then Some(Completed)
    else if raw == "scheduled" then Some(Scheduled)
    else None
  }

  datatype MaintenanceLog = MaintenanceLog(
    id: string,
    assetId: string,
    assetName: string,
    date: string,
    technician: string,
    description: string,
    images: seq<string>,
    status: MaintenanceStatus)
}
