/**
 * The stored site records that the analytics job patches
 * (app/inngest/functions.ts, lines 507-522) and the collections hook updates
 * (app/db/collections/Collections.ts). Only the fields these two touch are kept.
 */
module Sites {
  import opened Wrappers
  import opened Aggregation

  /** A stored site: its collection ids and its analytics fields, each possibly unset. */
  datatype SiteRecord = SiteRecord(
    collections: Option<seq<string>>,
    totalPosts: Option<nat>,
    totalEntries: Option<nat>,
    trendingPages: Option<seq<TrendingPage>>)

  /** A PATCH merges the fields the body has into the record and keeps the rest. */
  function ApplyPatch(site: SiteRecord, patch: Patch): (updated: SiteRecord)
    ensures updated.collections == site.collections
    ensures patch.totalPosts.None? ==> updated.totalPosts == site.totalPosts
    ensures patch.totalEntries.None? ==> updated.totalEntries == site.totalEntries
    ensures patch.trendingPages.None? ==> updated.trendingPages == site.trendingPages
    ensures patch.totalPosts.Some? ==> updated.totalPosts == patch.totalPosts
    ensures patch.totalEntries.Some? ==> updated.totalEntries == patch.totalEntries
    ensures patch.trendingPages.Some? ==> updated.trendingPages == patch.trendingPages
  {
    site.(totalPosts := if patch.totalPosts.Some? then patch.totalPosts else site.totalPosts,
          totalEntries := if patch.totalEntries.Some? then patch.totalEntries else site.totalEntries,
          trendingPages := if patch.trendingPages.Some? then patch.trendingPages else site.trendingPages)
  }

  /** Sending the same patch twice leaves the record as sending it once. */
  lemma PatchIdempotent(site: SiteRecord, patch: Patch)
    ensures ApplyPatch(ApplyPatch(site, patch), patch) == ApplyPatch(site, patch)
  {
  }

  /**
   * A run that observes zero posts or zero entries does not overwrite the
   * stored total; a non-zero observation replaces it. The trending list is
   * written whenever the report had rows, even when none resolved.
   */
  lemma RunUpdatesRecord(settings: Settings, event: EventData, rows: Option<seq<PageRows.Row>>,
                         fetch: EntryLookup.Query -> Option<seq<EntryLookup.PageDoc>>,
                         countOf: CountRequest -> nat, site: SiteRecord)
    requires event.collections.Some?
    ensures var report := UpdateSiteAnalytics(settings, event, rows, fetch, countOf).value;
      var updated := ApplyPatch(site, report.patch);
      && (report.totalPosts == 0 ==> updated.totalPosts == site.totalPosts)
      && (report.totalPosts != 0 ==> updated.totalPosts == Some(report.totalPosts))
      && (report.totalEntries == 0 ==> updated.totalEntries == site.totalEntries)
      && (report.totalEntries != 0 ==> updated.totalEntries == Some(report.totalEntries))
      && (rows.Some? ==> updated.trendingPages == report.trendingPages && updated.trendingPages.Some?)
      && (rows.None? ==> updated.trendingPages == site.trendingPages)
  {
  }

  /** The sites collection of the database, keyed by site id. */
  class SiteStore {
    var sites: map<string, SiteRecord>

    constructor (initial: map<string, SiteRecord>)
      ensures sites == initial
    {
      sites := initial;
    }

    /** `findByID`: the stored site, or nothing (the source throws) when absent. */
    method FindById(siteId: string) returns (site: Option<SiteRecord>)
      ensures site.Some? <==> siteId in sites
      ensures site.Some? ==> site.value == sites[siteId]
    {
      site := if siteId in sites then Some(sites[siteId]) else None;
    }

    /** `PATCH /api/sites/{siteId}`: merge the patch into that site only. */
    method PatchSite(siteId: string, patch: Patch) returns (found: bool)
      modifies this
      ensures found <==> siteId in old(sites)
      ensures found ==> sites == old(sites)[siteId := ApplyPatch(old(sites)[siteId], patch)]
      ensures !found ==> sites == old(sites)
    {
      found := siteId in sites;
      if found {
        sites := sites[siteId := ApplyPatch(sites[siteId], patch)];
      }
    }

    /** `payload.update` of a site's `collections` field; other sites and fields stay. */
    method SetCollections(siteId: string, ids: seq<string>)
      modifies this
      ensures siteId in old(sites) ==> sites == old(sites)[siteId := old(sites)[siteId].(collections := Some(ids))]
      ensures siteId !in old(sites) ==> sites == old(sites)
    {
      if siteId in sites {
        sites := sites[siteId := sites[siteId].(collections := Some(ids))];
      }
    }
  }
}
