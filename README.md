# EyeSiteV list and presentation logic in Dafny

EyeSiteV is a mobile field-operations app for monitoring energy sites. It has
a dashboard, lists of sites and support tickets, and a details screen for each
site. All of its data is in-memory. This project models the logic that sits
inside its screens and cards:

- the site search: a case-insensitive match on name or location, combined
  with a status filter;
- the ticket status filter;
- the counts shown on the filter buttons;
- the dashboard's selections: online sites, critical tickets, the critical
  alert badge and section, and the first three "Recent Sites";
- the site lookup on the details screen, with its "Site not found" fallback,
  and the site's assets found by their site id;
- the status and priority mappings to colours, icons and labels;
- the tab icon mapping;
- the closed status and priority unions and the navigation parameter
  contract.

The site, asset and ticket collections are parameters. So are the values the
screens keep as component state: the search text and the selected filter.
Each screen file becomes one module. `Array.prototype.filter` becomes
`Sequences.Filter`. The JavaScript string operations become functions in
`Text`.

Modelling choices:

- Status and priority fields are datatypes. Each has a spelling function
  (`SiteStatusName`, ...) and a `Parse...` function that accepts exactly the
  union's strings.
- The colour and icon switches take the raw string, as the source's `switch`
  statements and ternary chains do. This keeps their `default` branches.
  - For the `switch` statements, the contracts show that only strings outside
    the union reach the `default` branch.
  - The ternary chains end in a plain `else` that also covers members of the
    union. The asset colour chains send 'offline' there. The dashboard's
    status dot sends 'offline' and 'maintenance' there. Their contracts state
    exactly which strings take that last branch.
- Colours are the theme's hex strings. Some status colours are equal to
  general colours: online is the success green. The equalities therefore hold
  in the model too.
- `toLowerCase` and `toUpperCase` change ASCII letters only.
- A navigation target is a `Navigation.RootRoute` or a `Navigation.Tab`.
  `RouteFromPayload` accepts a screen name with a parameter map exactly when
  the parameter list type admits that pair.

## Notes on the code

- The tickets screen has no text search. It filters by status only.
- The dashboard's statistics come from a fixed record. They are not computed
  from the collections.
- A missing route parameter is ruled out by static typing, not by a runtime
  check. The model rules it out with the datatype, and `RouteFromPayload`
  rejects it.

## Model

| member | source | states |
|---|---|---|
| `Types.ParseSiteStatus` | src/types/index.ts:15 | a string is accepted iff it spells one of online, offline, warning, maintenance, and an accepted string is that status's spelling |
| `Types.SiteStatusRoundTrip` | src/types/index.ts:15 | every site status's spelling parses back to that status |
| `Types.ParseAssetStatus` | src/types/index.ts:31 | a string is accepted iff it spells one of operational, maintenance, offline |
| `Types.AssetStatusRoundTrip` | src/types/index.ts:31 | every asset status's spelling parses back to that status |
| `Types.ParseTicketPriority` | src/types/index.ts:42 | a string is accepted iff it spells one of low, medium, high, critical |
| `Types.TicketPriorityRoundTrip` | src/types/index.ts:42 | every priority's spelling parses back to that priority |
| `Types.ParseTicketStatus` | src/types/index.ts:43 | a string is accepted iff it spells one of open, in-progress, resolved, closed |
| `Types.TicketStatusRoundTrip` | src/types/index.ts:43 | every ticket status's spelling parses back to that status |
| `Types.ParseUserRole` | src/types/index.ts:7 | a role string is accepted iff it is admin or technician |
| `Types.ParseMaintenanceStatus` | src/types/index.ts:69 | a maintenance log status is accepted iff it is completed or scheduled |
| `Navigation.RouteFromPayload` | src/types/index.ts:72-80 | an accepted (name, parameters) pair is the name and payload of the destination returned; with no parameters, exactly Login, MainTabs and CreateTicket are accepted, so SiteDetails, AssetDetails, TicketDetails and UploadMaintenance require their id |
| `Navigation.PayloadRoundTrip` | src/types/index.ts:72-80 | every destination's own name and payload are accepted and give that destination back |
| `Navigation.ParseTab` | src/types/index.ts:82-88 | a route name is accepted iff it is one of the five tab names |
| `Text.ToLower` | src/screens/SitesScreen.tsx:38-39 | `toLowerCase` keeps the length, turns each capital A-Z into its own small letter (code + 32), keeps every other character, and leaves no capital |
| `Text.ToUpper` | src/components/SiteCard.tsx:59 | `toUpperCase` keeps the length, turns each small letter a-z into its own capital (code - 32), keeps every other character, and leaves no small letter |
| `Text.Contains` | src/screens/SitesScreen.tsx:38-39 | `includes` finds a prefix of the text, and never finds a needle longer than the text |
| `Text.ContainsIffOccurs` | src/screens/SitesScreen.tsx:38-39 | `includes` holds iff the needle occurs at some position of the text |
| `Text.ContainsLowered` | src/screens/SitesScreen.tsx:38-39 | a verbatim occurrence is still found after lower-casing both strings |
| `Text.ToLowerOfToUpper` | src/screens/SitesScreen.tsx:38-39 | lower-casing an upper-cased string equals lower-casing the original |
| `Text.ToLowerIdempotent` | src/screens/SitesScreen.tsx:38-39 | lower-casing twice equals lower-casing once |
| `Text.ToUpperRoundTrip` | src/components/SiteCard.tsx:59 | a string with no capitals is recovered by lower-casing its upper-cased form |
| `Text.ReplaceFirst` | src/components/TicketCard.tsx:78 | `replace` with a one-character pattern keeps the length of the string |
| `Text.ReplaceFirstAt` | src/components/TicketCard.tsx:78 | `replace` with a one-character pattern changes exactly the first occurrence of that character, and nothing else |
| `Text.ReplaceFirstSplit` | src/components/TicketCard.tsx:78 | when the prefix has no hyphen, replacing in prefix + '-' + suffix gives prefix + ' ' + suffix |
| `Text.ReplaceFirstAbsent` | src/components/TicketCard.tsx:78 | `replace` returns a string without the pattern character unchanged |
| `Sequences.Filter` | src/screens/SitesScreen.tsx:36 | `filter` is never longer than its input, and keeps exactly the input elements that satisfy the predicate |
| `Sequences.FilterIsSubsequence` | src/screens/SitesScreen.tsx:36 | `filter` returns a subsequence of its input, in the input's order |
| `Sequences.FilterMultiplicity` | src/screens/SitesScreen.tsx:36 | each kept element appears as often as in the input, and each dropped element not at all |
| `Sequences.FilterLength` | src/screens/TicketsScreen.tsx:39 | the length of a filtered list equals the count of elements that satisfy the predicate |
| `Sequences.FilterCongruent` | src/screens/SitesScreen.tsx:36-42 | predicates that agree on every element produce the same filtered list |
| `Sequences.FilterKeepsAll` | src/screens/TicketsScreen.tsx:33 | a predicate true of every element leaves the list unchanged |
| `Sequences.Take` | src/screens/DashboardScreen.tsx:120 | `slice(0, n)` is a prefix of the list with min(n, length) elements |
| `SitesScreen.FilteredSites` | src/screens/SitesScreen.tsx:36-42 | the list is a subsequence of the sites; a site is listed iff (its lower-cased name or location contains the lower-cased query) and (the filter is 'all' or equals its status); listed sites keep their multiplicity |
| `SitesScreen.FilterCount` | src/screens/SitesScreen.tsx:44-47 | the 'all' count is the number of sites; a status count is the number of sites with that status |
| `SitesScreen.EmptyQueryAllSites` | src/screens/SitesScreen.tsx:37-40 | the empty query with filter 'all' lists every site, in order |
| `SitesScreen.EmptyQueryOnlyFilters` | src/screens/SitesScreen.tsx:36-42 | with the empty query, the list is exactly the sites with the selected status |
| `SitesScreen.CountIsUnsearchedLength` | src/screens/SitesScreen.tsx:36-47 | the counts ignore the search: each filter's count equals the length of its list for the empty query |
| `SitesScreen.SearchIgnoresCase` | src/screens/SitesScreen.tsx:38-39 | queries that are equal after lower-casing list the same sites |
| `SitesScreen.SearchCaseForms` | src/screens/SitesScreen.tsx:38-39 | a query, its lower-case form and its upper-case form list the same sites |
| `SitesScreen.VerbatimNameMatchListed` | src/screens/SitesScreen.tsx:38 | a site whose name contains the query verbatim is listed when its status passes the filter |
| `SitesScreen.StatusCountsSum` | src/screens/SitesScreen.tsx:44-47 | the four status counts add up to the 'all' count |
| `TicketsScreen.SelectedStatus` | src/screens/TicketsScreen.tsx:30 | no filter selects 'closed' |
| `TicketsScreen.FilteredTickets` | src/screens/TicketsScreen.tsx:32-35 | the list is a subsequence of the tickets; a ticket is listed iff the filter is 'all' or equals its status; listed tickets keep their multiplicity; 'all' returns the list unchanged |
| `TicketsScreen.FilterCount` | src/screens/TicketsScreen.tsx:37-40 | the 'all' count is the number of tickets; a status count is the number of tickets with that status |
| `TicketsScreen.CountIsListLength` | src/screens/TicketsScreen.tsx:32-40 | for every filter, its count equals the length of its list |
| `TicketsScreen.ClosedOnlyUnderAll` | src/screens/TicketsScreen.tsx:30-35 | a closed ticket is listed only under 'all' |
| `TicketsScreen.CountsMissClosed` | src/screens/TicketsScreen.tsx:37-40 | the open, in-progress and resolved counts plus the number of closed tickets equal the 'all' count |
| `DashboardScreen.ActiveSites` | src/screens/DashboardScreen.tsx:33 | exactly the online sites, each as often as in the collection, as a subsequence of the sites |
| `DashboardScreen.CriticalTickets` | src/screens/DashboardScreen.tsx:34 | exactly the critical-priority tickets, each as often as in the collection, as a subsequence of the tickets |
| `DashboardScreen.ShowsCriticalAlerts` | src/screens/DashboardScreen.tsx:45 | the badge and the Critical Alerts section are shown iff some ticket has critical priority |
| `DashboardScreen.RecentSites` | src/screens/DashboardScreen.tsx:120 | Recent Sites has min(3, number of online sites) entries, forms a prefix of the online sites, and each entry is an online site of the collection |
| `DashboardScreen.StatusDotColor` | src/screens/DashboardScreen.tsx:135-140 | the dot gets the offline colour iff the status is neither online nor warning, so maintenance and strings outside the union are shown red; the dot equals the site card's status colour iff the string is online, offline or warning |
| `DashboardScreen.RecentSiteDotIsOnline` | src/screens/DashboardScreen.tsx:120-140 | every recent site's dot and card colour is the online colour |
| `DashboardScreen.RecentSiteTargets` | src/screens/DashboardScreen.tsx:120-123 | tapping the i-th recent site opens SiteDetails with that site's own id, which is the id of an online site of the collection |
| `DashboardScreen.ButtonTarget` | src/screens/DashboardScreen.tsx:43-199 | only the notification bell and Reports have no action; Create Ticket is exactly the button that opens a stack screen, and that screen is CreateTicket with no site id, a payload the contract accepts; tab targets are never Dashboard or Profile |
| `SiteDetailsScreen.FindSite` | src/screens/SiteDetailsScreen.tsx:36 | the result is absent iff no site has the id; otherwise it is the first site with the id |
| `SiteDetailsScreen.SiteAssets` | src/screens/SiteDetailsScreen.tsx:37 | exactly the assets whose site id is the route's, each as often as in the collection, as a subsequence of the assets |
| `SiteDetailsScreen.StatusColor` | src/screens/SiteDetailsScreen.tsx:47-60 | the details screen's status colour switch equals the site card's on every string, with unknown strings getting disabled |
| `SiteDetailsScreen.AssetStatusBackground` | src/screens/SiteDetailsScreen.tsx:170-176 | the asset badge background chain always gives the text colour chain's colour with '20' appended |
| `SiteDetailsScreen.AssetStatusColor` | src/screens/SiteDetailsScreen.tsx:183-189 | the text colour is the offline colour iff the status is neither operational nor maintenance, so the in-union 'offline' and strings outside the union share it |
| `SiteDetailsScreen.AssetStatusColorsDistinct` | src/screens/SiteDetailsScreen.tsx:183-189 | the three asset statuses get three distinct colours |
| `SiteDetailsScreen.AssetRowFor` | src/screens/SiteDetailsScreen.tsx:155-194 | an asset row shows that asset and navigates to AssetDetails with its id; its text colour is the asset status colour and its background that colour with '20' appended; its label is the upper-cased status and lowers back to it |
| `SiteDetailsScreen.AssetRows` | src/screens/SiteDetailsScreen.tsx:155 | the asset list's `map` gives one row per asset, the i-th row being the row for the i-th asset, and every asset has a row |
| `SiteDetailsScreen.Render` | src/screens/SiteDetailsScreen.tsx:36-213 | renders only the not-found fallback iff no site has the id; otherwise the page shows the first site with that id, its card status colour (never disabled) and upper-cased status, a Create Ticket prefilled with the id, a header count equal to the number of the site's assets, "No assets found" iff there are none, and one row per site asset in order, each opening its asset |
| `SiteDetailsScreen.AssetListedOnItsSite` | src/screens/SiteDetailsScreen.tsx:37 | an asset whose site exists is listed on that site's page |
| `SiteCard.StatusColor` | src/components/SiteCard.tsx:16-29 | the disabled colour is returned iff the string is not a site status |
| `SiteCard.StatusColorsDistinct` | src/components/SiteCard.tsx:16-29 | the four statuses get four distinct colours |
| `SiteCard.StatusIcon` | src/components/SiteCard.tsx:31-44 | the help-circle icon is returned iff the string is not a site status |
| `SiteCard.StatusIconsDistinct` | src/components/SiteCard.tsx:31-44 | the four statuses get four distinct icons |
| `SiteCard.KnownStatusShown` | src/components/SiteCard.tsx:53-59 | a status of the union gets neither fallback, and its upper-cased text lowers back to the status |
| `SiteCard.Render` | src/components/SiteCard.tsx:46-67 | the icon and its colour are the status switches' results for the site's status, never the fallbacks; the status text has the icon's colour and is the upper-cased status; the alert badge is shown iff alerts > 0, and it shows the alert count |
| `TicketCard.PriorityColor` | src/components/TicketCard.tsx:16-29 | the disabled colour is returned iff the string is not a priority |
| `TicketCard.PriorityColorsDistinct` | src/components/TicketCard.tsx:16-29 | the four priorities get four distinct colours |
| `TicketCard.StatusColor` | src/components/TicketCard.tsx:31-44 | the disabled colour is returned iff the string is 'closed' or not a ticket status |
| `TicketCard.StatusColorsDistinct` | src/components/TicketCard.tsx:31-44 | the four ticket statuses get four distinct colours |
| `TicketCard.PriorityLabel` | src/components/TicketCard.tsx:62 | the priority label has no small letters, the priority's length, and is the priority up to case |
| `TicketCard.StatusLabel` | src/components/TicketCard.tsx:78 | the status label has no small letters and the status's length |
| `TicketCard.StatusLabelWithoutHyphen` | src/components/TicketCard.tsx:78 | a status string without a hyphen is only upper-cased |
| `TicketCard.InProgressLabel` | src/components/TicketCard.tsx:78 | 'in-progress' is shown as 'IN PROGRESS' |
| `TicketCard.SpacedUpper` | src/components/TicketCard.tsx:78 | upper-casing 'in progress' gives 'IN PROGRESS' |
| `TicketCard.HyphenReplaced` | src/components/TicketCard.tsx:78 | replacing the first hyphen of 'in-progress' gives 'in progress' |
| `TicketCard.PlainStatusLabel` | src/components/TicketCard.tsx:78 | the labels of open, resolved and closed are their upper-cased statuses |
| `TicketCard.KnownPriorityShown` | src/components/TicketCard.tsx:59-62 | a priority of the union is never disabled, and its label lowers back to the priority |
| `TicketCard.Render` | src/components/TicketCard.tsx:46-80 | the priority colour is the priority switch's result and never disabled; the priority label is the upper-cased priority; the status badge background is the status colour with '20' appended; the status colour is disabled iff the ticket is closed; the status label is 'IN PROGRESS' for in-progress and the upper-cased status otherwise |
| `TabNavigator.RegisteredTabsOnce` | src/navigation/TabNavigator.tsx:62-66 | exactly five tabs are registered, each tab once |
| `TabNavigator.OutlineWhenUnfocused` | src/navigation/TabNavigator.tsx:24-39 | a known tab's unfocused icon is its focused icon followed by "-outline" |
| `TabNavigator.TabIconsInjective` | src/navigation/TabNavigator.tsx:24-39 | no two (tab, focused) combinations share an icon, so the five focused icons are pairwise distinct |
| `TabNavigator.TabIcon` | src/navigation/TabNavigator.tsx:24-42 | 'help-outline' is shown iff the route name is not a tab, whatever the focus |

## Left out

- Rendering, layout and style sheets of every screen and component are not modelled. These include the button and card components and the theme's sizes and shadows. Only the colour constants are kept.
- The statistics screen is not modelled. It shows fixed chart arrays and a precomputed statistics record, and nothing in it is computed. The `Statistics` record is left out for the same reason. Its values are also floating point.
- The dashboard's four stat cards show values from that fixed record. They are left out for the same reason.
- The mock data module is not part of this model. The collections are parameters.
- The login screen is left out. It is a timer-delayed navigation.
- The profile screen is left out. It is a static menu whose logout only shows an alert.
- The root stack navigator and the navigation library are left out. Only the parameter shapes and the targets the screens ask for are modelled.
- Date and time formatting is left out because it depends on the locale and the clock.
- Coordinates, power output and efficiency are left out. They are floating-point display values.
- `toLowerCase` and `toUpperCase` are modelled for ASCII letters only. JavaScript's full Unicode case mapping is not modelled.
- Some taps and buttons are not modelled separately:
  - tapping a row in the sites list, which opens SiteDetails with the row's id;
  - tapping a row in the tickets list, which opens TicketDetails;
  - the tickets header button, which opens CreateTicket with no site id;
  - the details screen's back arrow, which goes back;
  - the no-op ellipsis, "View Map" and "See All" buttons on the details screen;
  - the no-op filter icon in the sites header;
  - the clear-search button in the sites header. It sets the query to the empty string, and what the list shows then is covered by `SitesScreen.EmptyQueryAllSites` and `SitesScreen.EmptyQueryOnlyFilters`.
- The "No sites found" and "No tickets found" empty-list messages are not modelled.
- The site record's own `assets` field is carried but unused, because the details screen reads the separate asset collection.
