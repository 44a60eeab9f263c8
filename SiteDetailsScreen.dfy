/**
 * The site details screen: the lookup of the route's site id, the fallback
 * when no site has it, the site's assets found by their site id, the status
 * colours, and where its buttons navigate. The site and asset collections
 * are parameters.
 */
module SiteDetailsScreen {
  import opened Types
  import opened Text
  import opened Sequences
  import opened Navigation
  import Theme
  import SiteCard

  /** `find`: the first site with the id, if any. */
  function FindSite(sites: seq<Site>, siteId: string): (r: Option<Site>)
    ensures r.None? <==> forall site :: site in sites ==> site.id != siteId
    ensures r.Some? ==> exists i :: 0 <= i < |sites| && sites[i] == r.value && r.value.id == siteId
                                    && forall j :: 0 <= j < i ==> sites[j].id != siteId
  {
    if sites == [] then None
    else if sites[0].id == siteId then Some(sites[0])
    else
      var rest := FindSite(sites[1..], siteId);
      assert forall site :: site in sites ==> site == sites[0] || site in sites[1..];
      if rest.Some? then
        var i :| 0 <= i < |sites[1..]| && sites[1..][i] == rest.value && rest.value.id == siteId
                 && forall j :: 0 <= j < i ==> sites[1..][j].id != siteId;
        assert sites[i + 1] == rest.value;
        assert forall j :: 0 <= j < i + 1 ==> sites[j].id != siteId by {
          forall j | 0 <= j < i + 1 ensures sites[j].id != siteId {
            if j > 0 { assert sites[j] == sites[1..][j - 1]; }
          }
        }
        rest
      else rest
  }

  function BelongsTo(siteId: string): Asset -> bool {
    (asset: Asset) => asset.siteId == siteId
  }

  /** The assets whose site id is the route's, in their original order, each as often as in `assets`. */
  function SiteAssets(assets: seq<Asset>, siteId: string): (r: seq<Asset>)
    ensures IsSubsequence(r, assets)
    ensures forall a :: a in r <==> a in assets && a.siteId == siteId
    ensures forall a :: multiset(r)[a] == if a.siteId == siteId then multiset(assets)[a] else 0
  {
    FilterIsSubsequence(assets, BelongsTo(siteId));
    forall a ensures multiset(Filter(assets, BelongsTo(siteId)))[a] == if a.siteId == siteId then multiset(assets)[a] else 0 {
      FilterMultiplicity(assets, BelongsTo(siteId), a);
    }
    Filter(assets, BelongsTo(siteId))
  }

  /**
   * The status badge colour, a copy of the site card's switch: the two
   * colour every status string alike.
   */
  function StatusColor(status: string): (r: string)
    ensures r == SiteCard.StatusColor(status)
  {
    if status == "online" then Theme.Online
    else if status == "offline" then Theme.Offline
    else if status == "warning" then Theme.WarningStatus
    else if status == "maintenance" then Theme.Maintenance
    else Theme.Disabled
  }

  /**
   * The asset status text colour. 'offline' and strings outside the union
   * share the last branch, the offline colour.
   */
  function AssetStatusColor(status: string): (r: string)
    ensures r == Theme.Offline <==> status != "operational" && status != "maintenance"
  {
    if status == "operational" then Theme.Success
    else if status == "maintenance" then Theme.Warning
    else Theme.Offline
  }

  /**
   * The asset status badge background, a separate chain over the same
   * tests. It is always the translucent form of the text colour.
   */
  function AssetStatusBackground(status: string): (r: string)
    ensures r == AssetStatusColor(status) + Theme.TranslucentSuffix
  {
    if status == "operational" then Theme.Success + Theme.TranslucentSuffix
    else if status == "maintenance" then Theme.Warning + Theme.TranslucentSuffix
    else Theme.Offline + Theme.TranslucentSuffix
  }

  /** The three asset statuses get three different colours. */
  lemma AssetStatusColorsDistinct(a: AssetStatus, b: AssetStatus)
    requires a != b
    ensures AssetStatusColor(AssetStatusName(a)) != AssetStatusColor(AssetStatusName(b))
  {
  }

  /** One row of the asset list. */
  datatype AssetRow = AssetRow(
    asset: Asset,
    background: string,
    statusColor: string,
    statusLabel: string,
    target: RootRoute)

  function AssetRowFor(asset: Asset): (row: AssetRow)
    ensures row.asset == asset
    ensures row.target == AssetDetails(asset.id)
    ensures row.statusColor == AssetStatusColor(AssetStatusName(asset.status))
    ensures row.background == row.statusColor + Theme.TranslucentSuffix
    ensures row.statusLabel == ToUpper(AssetStatusName(asset.status))
    ensures ToLower(row.statusLabel) == AssetStatusName(asset.status)
  {
    var name := AssetStatusName(asset.status);
    assert NoUpper(name);
    ToUpperRoundTrip(name);
    AssetRow(asset, AssetStatusBackground(name), AssetStatusColor(name), ToUpper(name), AssetDetails(asset.id))
  }

  /** The asset list's `map`: one row per asset, in the order of the assets. */
  function AssetRows(siteAssets: seq<Asset>): (rows: seq<AssetRow>)
    ensures |rows| == |siteAssets|
    ensures forall i :: 0 <= i < |rows| ==> rows[i] == AssetRowFor(siteAssets[i])
    ensures forall a :: a in siteAssets <==> exists row :: row in rows && row.asset == a
  {
    var rows := seq(|siteAssets|, i requires 0 <= i < |siteAssets| => AssetRowFor(siteAssets[i]));
    assert forall a :: a in siteAssets ==> exists row :: row in rows && row.asset == a by {
      forall a | a in siteAssets ensures exists row :: row in rows && row.asset == a {
        var i :| 0 <= i < |siteAssets| && siteAssets[i] == a;
        assert rows[i] in rows;
      }
    }
    rows
  }

  /** What the screen renders: the fallback alone, or the site's page. */
  datatype SiteDetailsView =
    | SiteNotFound
    | SitePage(
        site: Site,
        statusColor: string,
        statusLabel: string,
        createTicketTarget: RootRoute,
        assetCount: nat,
        rows: seq<AssetRow>,
        showsNoAssets: bool)

  function Render(sites: seq<Site>, assets: seq<Asset>, siteId: string): (v: SiteDetailsView)
    ensures v.SiteNotFound? <==> forall site :: site in sites ==> site.id != siteId
    ensures v.SitePage? ==>
      && FindSite(sites, siteId) == Some(v.site)
      && v.site in sites && v.site.id == siteId
      && v.statusColor == SiteCard.StatusColor(SiteStatusName(v.site.status)) != Theme.Disabled
      && v.statusLabel == ToUpper(SiteStatusName(v.site.status))
      && v.createTicketTarget == CreateTicket(Some(siteId))
      && v.assetCount == |v.rows| == |SiteAssets(assets, siteId)|
      && (v.showsNoAssets <==> v.rows == [])
      && (forall i :: 0 <= i < |v.rows| ==> v.rows[i] == AssetRowFor(SiteAssets(assets, siteId)[i]))
      && (forall a :: a in assets && a.siteId == siteId <==> exists row :: row in v.rows && row.asset == a)
      && (forall i :: 0 <= i < |v.rows| ==> v.rows[i].target == AssetDetails(v.rows[i].asset.id))
  {
    match FindSite(sites, siteId)
    case None => SiteNotFound
    case Some(site) =>
      var siteAssets := SiteAssets(assets, siteId);
      var rows := AssetRows(siteAssets);
      SiteCard.KnownStatusShown(site.status);
      SitePage(
        site,
        StatusColor(SiteStatusName(site.status)),
        ToUpper(SiteStatusName(site.status)),
        CreateTicket(Some(site.id)),
        |siteAssets|,
        rows,
        |siteAssets| == 0)
  }

  /** An asset whose site id names an existing site is listed on that site's page. */
  lemma AssetListedOnItsSite(sites: seq<Site>, assets: seq<Asset>, asset: Asset)
    requires asset in assets
    requires exists site :: site in sites && site.id == asset.siteId
    ensures Render(sites, assets, asset.siteId).SitePage?
    ensures exists row :: row in Render(sites, assets, asset.siteId).rows && row.asset == asset
  {
  }
}
