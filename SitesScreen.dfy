/**
 * The sites list: a case-insensitive search over name and location combined
 * with a status filter, and the per-status counts shown on the filter
 * buttons. The search text and the selected filter, component state in the
 * app, are parameters here; the site collection is a parameter too.
 */
module SitesScreen {
  import opened Types
  import opened Text
  import opened Sequences

  /** The selected filter: every site, or the sites of one status. */
  datatype SiteFilter = AllSites | OnlyStatus(status: SiteStatus)

  /** The query occurs in the name or the location, ignoring case. */
  predicate MatchesSearch(site: Site, query: string) {
    Contains(ToLower(site.name), ToLower(query)) || Contains(ToLower(site.location), ToLower(query))
  }

  predicate MatchesFilter(site: Site, filter: SiteFilter) {
    filter.AllSites? || site.status == filter.status
  }

  function Keeps(query: string, filter: SiteFilter): Site -> bool {
    (site: Site) => MatchesSearch(site, query) && MatchesFilter(site, filter)
  }

  function HasStatus(status: SiteStatus): Site -> bool {
    (site: Site) => site.status == status
  }

  /** The list shown: the matching sites, in their original order. */
  function FilteredSites(sites: seq<Site>, query: string, filter: SiteFilter): (r: seq<Site>)
    ensures IsSubsequence(r, sites)
    ensures forall site :: site in r <==> site in sites && MatchesSearch(site, query) && MatchesFilter(site, filter)
    ensures forall site :: multiset(r)[site] ==
                           (if MatchesSearch(site, query) && MatchesFilter(site, filter) then multiset(sites)[site] else 0)
  {
    FilterIsSubsequence(sites, Keeps(query, filter));
    forall site ensures multiset(Filter(sites, Keeps(query, filter)))[site] ==
                        (if MatchesSearch(site, query) && MatchesFilter(site, filter) then multiset(sites)[site] else 0)
    {
      FilterMultiplicity(sites, Keeps(query, filter), site);
    }
    Filter(sites, Keeps(query, filter))
  }

  /** The number of sites with the given status, counted over the whole, unsearched list. */
  function CountStatus(sites: seq<Site>, status: SiteStatus): nat {
    Count(sites, HasStatus(status))
  }

  /** The count on a filter button. */
  function FilterCount(sites: seq<Site>, filter: SiteFilter): (n: nat)
    ensures n == match filter
      case AllSites => |sites|
      case OnlyStatus(status) => CountStatus(sites, status)
  {
    match filter
    case AllSites => |sites|
    case OnlyStatus(status) =>
      FilterLength(sites, HasStatus(status));
      |Filter(sites, HasStatus(status))|
  }

  /** With filter 'all' and no search text every site is listed, in order. */
  lemma EmptyQueryAllSites(sites: seq<Site>)
    ensures FilteredSites(sites, "", AllSites) == sites
  {
    forall site | site in sites ensures Keeps("", AllSites)(site) {
      ContainsEmpty(ToLower(site.name));
    }
    FilterKeepsAll(sites, Keeps("", AllSites));
  }

  /** Without search text, the list holds exactly the sites that pass the status filter. */
  lemma EmptyQueryOnlyFilters(sites: seq<Site>, status: SiteStatus)
    ensures FilteredSites(sites, "", OnlyStatus(status)) == Filter(sites, HasStatus(status))
  {
    forall site | site in sites
      ensures Keeps("", OnlyStatus(status))(site) == HasStatus(status)(site)
    {
      ContainsEmpty(ToLower(site.name));
    }
    FilterCongruent(sites, Keeps("", OnlyStatus(status)), HasStatus(status));
  }

  /** The counts ignore the search: without search text a button's count is the length of its list. */
  lemma CountIsUnsearchedLength(sites: seq<Site>, filter: SiteFilter)
    ensures FilterCount(sites, filter) == |FilteredSites(sites, "", filter)|
  {
    match filter
    case AllSites => EmptyQueryAllSites(sites);
    case OnlyStatus(status) => EmptyQueryOnlyFilters(sites, status);
  }

  /** Queries that lower-case to the same string list the same sites. */
  lemma SearchIgnoresCase(sites: seq<Site>, query: string, other: string, filter: SiteFilter)
    requires ToLower(query) == ToLower(other)
    ensures FilteredSites(sites, query, filter) == FilteredSites(sites, other, filter)
  {
    FilterCongruent(sites, Keeps(query, filter), Keeps(other, filter));
  }

  /** A query and its lower-case and upper-case forms list the same sites. */
  lemma SearchCaseForms(sites: seq<Site>, query: string, filter: SiteFilter)
    ensures FilteredSites(sites, ToLower(query), filter) == FilteredSites(sites, query, filter)
    ensures FilteredSites(sites, ToUpper(query), filter) == FilteredSites(sites, query, filter)
  {
    ToLowerIdempotent(query);
    SearchIgnoresCase(sites, ToLower(query), query, filter);
    ToLowerOfToUpper(query);
    SearchIgnoresCase(sites, ToUpper(query), query, filter);
  }

  /** A site whose name contains the query verbatim is listed whenever its status passes the filter. */
  lemma VerbatimNameMatchListed(sites: seq<Site>, site: Site, query: string, filter: SiteFilter)
    requires site in sites && MatchesFilter(site, filter)
    requires Contains(site.name, query)
    ensures site in FilteredSites(sites, query, filter)
  {
    ContainsLowered(site.name, query);
  }

  /** Status is a closed four-value union, so the four status counts add up to the 'all' count. */
  lemma {:induction false} StatusCountsSum(sites: seq<Site>)
    ensures FilterCount(sites, OnlyStatus(Online)) + FilterCount(sites, OnlyStatus(SiteStatus.Offline))
          + FilterCount(sites, OnlyStatus(Warning)) + FilterCount(sites, OnlyStatus(SiteStatus.Maintenance))
         == FilterCount(sites, AllSites)
  {
    if sites != [] {
      StatusCountsSum(sites[1..]);
    }
  }
}
