/**
 * The rest of the site-analytics job (app/inngest/functions.ts): the cron
 * fan-out that emits one event per site, the trending-pages filter, the
 * post and entry totals, and the patch the job sends for the site record.
 */
module Aggregation {
  import opened Wrappers
  import opened PathSplit
  import opened PageRows
  import opened EntryLookup

  /** `settings.domain` and `settings.domainFull`, opaque here. */
  datatype Settings = Settings(domain: string, domainFull: string)

  /** A site as the cron's `Sites` query returns it. */
  datatype SiteDoc = SiteDoc(
    id: string, name: Option<string>, siteType: Option<string>, slug: string,
    gaPropertyId: Option<string>, gaTagId: Option<string>, collections: Option<seq<Collection>>)

  /** The data of an `analytics/site.analytics.send` event. */
  datatype EventData = EventData(
    siteId: string, siteType: Option<string>, siteSlug: string,
    gaPropertyId: Option<string>, collections: Option<seq<Collection>>)

  datatype Event = Event(name: string, data: EventData)

  /** What the cron step returns after sending its events. */
  datatype FanOutResult = FanOutResult(events: seq<Event>, count: nat)

  const SendEventName: string := "analytics/site.analytics.send"

  /** The event for one site (lines 71-81). */
  function SiteEvent(site: SiteDoc): Event {
    Event(SendEventName, EventData(site.id, site.siteType, site.slug, site.gaPropertyId, site.collections))
  }

  /**
   * The cron step (lines 69-86): nothing when the query returned no site
   * list; otherwise one event per site, in order, and their number.
   */
  function FanOut(sites: Option<seq<SiteDoc>>): (r: Option<FanOutResult>)
    ensures r.Some? <==> sites.Some?
    ensures r.Some? ==> r.value.count == |r.value.events| == |sites.value|
    ensures r.Some? ==> forall i :: 0 <= i < |sites.value| ==>
      r.value.events[i].name == SendEventName
      && r.value.events[i].data.siteId == sites.value[i].id
      && r.value.events[i].data.siteType == sites.value[i].siteType
      && r.value.events[i].data.siteSlug == sites.value[i].slug
      && r.value.events[i].data.gaPropertyId == sites.value[i].gaPropertyId
      && r.value.events[i].data.collections == sites.value[i].collections
  {
    match sites
    case None => None
    case Some(s) =>
      var events := seq(|s|, i requires 0 <= i < |s| => SiteEvent(s[i]));
      Some(FanOutResult(events, |events|))
  }

  /** One entry of the stored `trendingPages` list. */
  datatype TrendingPage = TrendingPage(pageViews: Option<string>, path: Option<string>, data: PageDoc)

  /**
   * Lines 432-449: look every classified row up, then keep only the rows
   * whose lookup returned a document, with that row's views and path.
   */
  function Trending(rows: seq<ClassifiedRow>, siteId: string, siteSlug: string, collections: seq<Collection>,
                    fetch: Query -> Option<seq<PageDoc>>): (pages: seq<TrendingPage>)
    ensures |pages| <= |rows|
    ensures forall page :: page in pages <==>
      exists i :: 0 <= i < |rows| && IsTrendingOf(page, rows[i], siteId, siteSlug, collections, fetch)
  {
    if rows == [] then []
    else
      var rest := Trending(rows[1..], siteId, siteSlug, collections, fetch);
      assert forall i :: 1 <= i < |rows| ==> rows[i] == rows[1..][i - 1];
      var data := ResolvedData(DocOf(rows[0]), siteId, siteSlug, collections, fetch);
      if data.Some? then [TrendingPage(rows[0].pageViews, rows[0].path, data.value)] + rest else rest
  }

  /** `page` is what the row becomes when its lookup found a document. */
  ghost predicate IsTrendingOf(page: TrendingPage, row: ClassifiedRow, siteId: string, siteSlug: string,
                               collections: seq<Collection>, fetch: Query -> Option<seq<PageDoc>>) {
    var data := ResolvedData(DocOf(row), siteId, siteSlug, collections, fetch);
    data.Some? && page == TrendingPage(row.pageViews, row.path, data.value)
  }

  /** The trending filter keeps the rows' original order. */
  lemma {:induction false} TrendingAppend(a: seq<ClassifiedRow>, b: seq<ClassifiedRow>, siteId: string, siteSlug: string,
                                          collections: seq<Collection>, fetch: Query -> Option<seq<PageDoc>>)
    ensures Trending(a + b, siteId, siteSlug, collections, fetch)
      == Trending(a, siteId, siteSlug, collections, fetch) + Trending(b, siteId, siteSlug, collections, fetch)
    decreases |a|
  {
    if a == [] {
      assert a + b == b;
    } else {
      assert (a + b)[0] == a[0];
      assert (a + b)[1..] == a[1..] + b;
      TrendingAppend(a[1..], b, siteId, siteSlug, collections, fetch);
    }
  }

  /** A row whose slugs are empty never reaches the trending list. */
  lemma FalsySlugNeverTrending(row: ClassifiedRow, siteId: string, siteSlug: string, collections: seq<Collection>,
                               fetch: Query -> Option<seq<PageDoc>>)
    requires HasFalsySlug(row.shape)
    ensures Trending([row], siteId, siteSlug, collections, fetch) == []
  {
    ClassifiedRowLookup(row, siteId, siteSlug, collections);
  }

  /**
   * A REST count request: the path and, for core endpoints, the site the
   * `?where[site][equals]=...&depth=0` query string restricts to.
   */
  datatype CountRequest = RestGet(path: string, siteFilter: Option<string>)

  /** The site's posts in the core database (lines 452-467). */
  function PostsCountRequest(settings: Settings, siteId: string): CountRequest {
    RestGet(settings.domainFull + "/api/posts", Some(siteId))
  }

  /** The site's entries in the core database (lines 470-480, 497-500). */
  function CoreEntriesCountRequest(settings: Settings, siteId: string): CountRequest {
    RestGet(settings.domainFull + "/api/entries", Some(siteId))
  }

  /** `https://{siteSlug}-db.{domain}/api/{slug}` (line 493). */
  function CustomDbUrl(settings: Settings, siteSlug: string, slug: string): string {
    "https://" + siteSlug + "-db." + settings.domain + "/api/" + slug
  }

  /**
   * The request counted for one collection (lines 490-501): its own list in
   * the site's database when custom, else the site's core entries.
   */
  function CountRequestFor(settings: Settings, siteId: string, siteSlug: string, c: Collection): (req: CountRequest)
    ensures req.siteFilter.None? <==> c.customDatabase
    ensures c.customDatabase ==> req.path == CustomDbUrl(settings, siteSlug, c.slug)
    ensures !c.customDatabase ==> req == CoreEntriesCountRequest(settings, siteId)
  {
    if c.customDatabase then RestGet(CustomDbUrl(settings, siteSlug, c.slug), None)
    else CoreEntriesCountRequest(settings, siteId)
  }

  /** `reduce((partialSum, a) => partialSum + a, 0)`: a left fold from 0. */
  function Sum(s: seq<nat>): nat {
    if s == [] then 0 else Sum(s[..|s| - 1]) + s[|s| - 1]
  }

  lemma {:induction false} SumAppend(a: seq<nat>, b: seq<nat>)
    ensures Sum(a + b) == Sum(a) + Sum(b)
    decreases |b|
  {
    if b == [] {
      assert a + b == a;
    } else {
      assert (a + b)[..|a + b| - 1] == a + b[..|b| - 1];
      SumAppend(a, b[..|b| - 1]);
    }
  }

  /** Changing one collection's count changes the total by exactly the difference. */
  lemma SumUpdate(s: seq<nat>, i: nat, v: nat)
    requires i < |s|
    ensures Sum(s[i := v]) + s[i] == Sum(s) + v
  {
    assert s == s[..i] + [s[i]] + s[i + 1..];
    assert s[i := v] == s[..i] + [v] + s[i + 1..];
    SumAppend(s[..i] + [s[i]], s[i + 1..]);
    SumAppend(s[..i], [s[i]]);
    SumAppend(s[..i] + [v], s[i + 1..]);
    SumAppend(s[..i], [v]);
    assert Sum([v]) == v by { assert [v][..0] == []; }
    assert Sum([s[i]]) == s[i] by { assert [s[i]][..0] == []; }
  }

  /** The `Promise.all` over the collections: one `totalDocs` per collection, in order. */
  function CollectionCounts(settings: Settings, siteId: string, siteSlug: string, collections: seq<Collection>,
                            countOf: CountRequest -> nat): (counts: seq<nat>)
    ensures |counts| == |collections|
    ensures forall i :: 0 <= i < |collections| ==>
      counts[i] == countOf(CountRequestFor(settings, siteId, siteSlug, collections[i]))
  {
    seq<nat>(|collections|, i requires 0 <= i < |collections| => countOf(CountRequestFor(settings, siteId, siteSlug, collections[i])))
  }

  /** The number of collections kept in the core database. */
  function CoreCollections(collections: seq<Collection>): nat {
    if collections == [] then 0
    else CoreCollections(collections[..|collections| - 1]) + (if collections[|collections| - 1].customDatabase then 0 else 1)
  }

  /** The custom collections' own counts, summed. */
  function CustomTotal(settings: Settings, siteSlug: string, collections: seq<Collection>, countOf: CountRequest -> nat): nat {
    if collections == [] then 0
    else
      var c := collections[|collections| - 1];
      CustomTotal(settings, siteSlug, collections[..|collections| - 1], countOf)
        + (if c.customDatabase then countOf(RestGet(CustomDbUrl(settings, siteSlug, c.slug), None)) else 0)
  }

  /**
   * The entry total as the job computes it: every core collection issues the
   * same site-wide entries request, so the site's core entry count is added
   * once per core collection, and each custom collection adds its own count.
   */
  lemma {:induction false} TotalEntriesBreakdown(settings: Settings, siteId: string, siteSlug: string,
                                                 collections: seq<Collection>, countOf: CountRequest -> nat)
    ensures Sum(CollectionCounts(settings, siteId, siteSlug, collections, countOf))
      == CoreCollections(collections) * countOf(CoreEntriesCountRequest(settings, siteId))
         + CustomTotal(settings, siteSlug, collections, countOf)
    decreases |collections|
  {
    var counts := CollectionCounts(settings, siteId, siteSlug, collections, countOf);
    if collections != [] {
      var n := |collections|;
      var init := collections[..n - 1];
      TotalEntriesBreakdown(settings, siteId, siteSlug, init, countOf);
      assert counts[..n - 1] == CollectionCounts(settings, siteId, siteSlug, init, countOf);
    }
  }

  /** The body of the PATCH request: a field is present or absent. */
  datatype Patch = Patch(totalPosts: Option<nat>, totalEntries: Option<nat>, trendingPages: Option<seq<TrendingPage>>)

  /**
   * Lines 511-521: each field is spread in only when its value is truthy;
   * a zero total is left out, while an empty trending list is sent.
   */
  function BuildPatch(totalPosts: nat, totalEntries: nat, trendingPages: Option<seq<TrendingPage>>): (p: Patch)
    ensures p.totalPosts.Some? <==> totalPosts != 0
    ensures p.totalEntries.Some? <==> totalEntries != 0
    ensures p.trendingPages == trendingPages
    ensures p.totalPosts.Some? ==> p.totalPosts.value == totalPosts
    ensures p.totalEntries.Some? ==> p.totalEntries.value == totalEntries
  {
    Patch(if totalPosts != 0 then Some(totalPosts) else None,
          if totalEntries != 0 then Some(totalEntries) else None,
          trendingPages)
  }

  /** What one run of the job computes: the patch it sends and the value it returns. */
  datatype Report = Report(patch: Patch, trendingPages: Option<seq<TrendingPage>>, totalEntries: nat, totalPosts: nat)

  /**
   * `updateSiteAnalytics` (lines 91-529), with the report rows, the lookup
   * responses and the REST counts as inputs. `None` is a run that throws:
   * with no `collections` in the event, `collections.map` fails.
   */
  function UpdateSiteAnalytics(settings: Settings, event: EventData, rows: Option<seq<Row>>,
                               fetch: Query -> Option<seq<PageDoc>>, countOf: CountRequest -> nat): (r: Option<Report>)
    ensures r.Some? <==> event.collections.Some?
    ensures r.Some? ==> r.value.patch.trendingPages == r.value.trendingPages
    ensures r.Some? ==> (r.value.trendingPages.Some? <==> rows.Some?)
    ensures r.Some? && rows.Some? ==>
      r.value.trendingPages == Some(Trending(ClassifyAll(DropHomepage(rows.value, event.siteSlug), event.siteSlug),
                                             event.siteId, event.siteSlug, event.collections.value, fetch))
    ensures r.Some? ==> r.value.patch == BuildPatch(r.value.totalPosts, r.value.totalEntries, r.value.trendingPages)
    ensures r.Some? ==> r.value.totalPosts == countOf(PostsCountRequest(settings, event.siteId))
    ensures r.Some? ==>
      r.value.totalEntries == Sum(CollectionCounts(settings, event.siteId, event.siteSlug, event.collections.value, countOf))
  {
    match event.collections
    case None => None
    case Some(collections) =>
      var trending :=
        if rows.None? then None
        else
          var classified := ClassifyAll(DropHomepage(rows.value, event.siteSlug), event.siteSlug);
          Some(Trending(classified, event.siteId, event.siteSlug, collections, fetch));
      var totalPosts := countOf(PostsCountRequest(settings, event.siteId));
      var totalEntries := Sum(CollectionCounts(settings, event.siteId, event.siteSlug, collections, countOf));
      Some(Report(BuildPatch(totalPosts, totalEntries, trending), trending, totalEntries, totalPosts))
  }

  /**
   * Every trending page comes from a non-homepage report row, with that
   * row's views and path and the document its lookup found.
   */
  lemma TrendingFromRows(settings: Settings, event: EventData, rows: seq<Row>,
                         fetch: Query -> Option<seq<PageDoc>>, countOf: CountRequest -> nat, page: TrendingPage)
    requires event.collections.Some?
    requires page in UpdateSiteAnalytics(settings, event, Some(rows), fetch, countOf).value.trendingPages.value
    ensures exists row :: (row in rows && !IsHomepage(row, event.siteSlug)
      && page.pageViews == row.pageViews && page.path == row.path
      && ResolvedData(DocOf(Classify(row, event.siteSlug)), event.siteId, event.siteSlug, event.collections.value, fetch)
           == Some(page.data))
  {
    var kept := DropHomepage(rows, event.siteSlug);
    var classified := ClassifyAll(kept, event.siteSlug);
    var i :| 0 <= i < |classified| && IsTrendingOf(page, classified[i], event.siteId, event.siteSlug, event.collections.value, fetch);
    assert kept[i] in kept;
  }
}
