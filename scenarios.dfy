/**
 * Two runs of the analytics job worked through the model, for any site,
 * collection and page slugs that contain no slash.
 */
module Scenarios {
  import opened Wrappers
  import opened PathSplit
  import opened PageRows
  import opened EntryLookup
  import opened Aggregation

  /** A row whose path has three or more pieces is never the homepage. */
  lemma NotHomepage(row: Row, parts: seq<string>, siteSlug: string)
    requires |parts| >= 3 && NoSlash(parts) && parts[0] == ""
    requires row.path == Some(Join(parts))
    ensures !IsHomepage(row, siteSlug)
  {
    NonEmptySections(parts);
  }

  /** Dropping the first of three rows, the only homepage among them. */
  lemma DropFirstOfThree(home: Row, entry: Row, page: Row, siteSlug: string)
    requires IsHomepage(home, siteSlug) && !IsHomepage(entry, siteSlug) && !IsHomepage(page, siteSlug)
    ensures DropHomepage([home, entry, page], siteSlug) == [entry, page]
  {
    DropHomepageAppend([home], [entry, page], siteSlug);
    DropHomepageAppend([entry], [page], siteSlug);
    assert [home, entry, page] == [home] + [entry, page];
    assert [entry, page] == [entry] + [page];
  }

  /**
   * A report of three rows, "/{site}" (the homepage), then
   * "/{site}/c/{collection}/{entry}" and "/{site}/{page}": the first is
   * dropped and the other two are an entry and a custom page.
   */
  lemma DemoRowsFiltered(site: string, coll: string, entrySlug: string, pageSlug: string, home: Row, entry: Row, page: Row)
    requires Slash !in site && Slash !in coll && Slash !in entrySlug && Slash !in pageSlug
    requires pageSlug != "collections" && pageSlug != "posts"
    requires home.path == Some(Join(["", site]))
    requires entry.path == Some(Join(["", site, "c", coll, entrySlug]))
    requires page.path == Some(Join(["", site, pageSlug]))
    ensures DropHomepage([home, entry, page], site) == [entry, page]
    ensures Classify(entry, site).shape == EntryPage(coll, entrySlug)
    ensures Classify(page, site).shape == CustomPage(pageSlug)
  {
    NonEmptySections(["", site]);
    NotHomepage(entry, ["", site, "c", coll, entrySlug], site);
    NotHomepage(page, ["", site, pageSlug], site);
    DropFirstOfThree(home, entry, page, site);
    PathForms(site, coll, entrySlug, site, entry.pageViews);
    PathForms(site, pageSlug, entrySlug, site, page.pageViews);
    assert entry == Row(Some(Join(["", site, "c", coll, entrySlug])), entry.pageViews);
    assert page == Row(Some(Join(["", site, pageSlug])), page.pageViews);
  }

  /** An entry row and a custom-page row in a site whose only collection is a core one. */
  lemma CoreSiteTrending(siteId: string, site: string, collection: Collection, entrySlug: string, pageSlug: string,
                         entry: Row, page: Row, fetch: Query -> Option<seq<PageDoc>>, entryDoc: PageDoc, pageDoc: PageDoc)
    requires !collection.customDatabase && collection.slug != "" && entrySlug != "" && pageSlug != ""
    requires Classify(entry, site).shape == EntryPage(collection.slug, entrySlug)
    requires Classify(page, site).shape == CustomPage(pageSlug)
    requires fetch(Query(Entries, [SiteEquals(siteId), CollectionEntityEquals(None), SlugOrIdEquals(entrySlug)], None)) == Some([entryDoc])
    requires fetch(Query(CustomPages, [SiteEquals(siteId), SlugEquals(pageSlug)], None)) == Some([pageDoc])
    ensures Trending(ClassifyAll([entry, page], site), siteId, site, [collection], fetch)
      == [TrendingPage(entry.pageViews, entry.path, entryDoc), TrendingPage(page.pageViews, page.path, pageDoc)]
  {
    var classified := ClassifyAll([entry, page], site);
    assert classified == [Classify(entry, site)] + [Classify(page, site)];
    assert FindCustomCollection([collection], Some(collection.slug)).None?;
    TrendingAppend([classified[0]], [classified[1]], siteId, site, [collection], fetch);
  }

  /**
   * A site with one core collection: the homepage row is dropped, the entry
   * is looked up in the core `Entries` with the site, collection and
   * slug-or-id filters, the custom page in `CustomPages`, and when both are
   * found both trend, in report order, with their rows' views and paths.
   */
  lemma CoreSiteRun(settings: Settings, siteId: string, site: string, collection: Collection,
                    entrySlug: string, pageSlug: string, home: Row, entry: Row, page: Row,
                    fetch: Query -> Option<seq<PageDoc>>, countOf: CountRequest -> nat, entryDoc: PageDoc, pageDoc: PageDoc)
    requires Slash !in site && Slash !in collection.slug && Slash !in entrySlug && Slash !in pageSlug
    requires !collection.customDatabase && collection.slug != "" && entrySlug != "" && pageSlug != ""
    requires pageSlug != "collections" && pageSlug != "posts"
    requires home.path == Some(Join(["", site]))
    requires entry.path == Some(Join(["", site, "c", collection.slug, entrySlug]))
    requires page.path == Some(Join(["", site, pageSlug]))
    requires fetch(Query(Entries, [SiteEquals(siteId), CollectionEntityEquals(None), SlugOrIdEquals(entrySlug)], None)) == Some([entryDoc])
    requires fetch(Query(CustomPages, [SiteEquals(siteId), SlugEquals(pageSlug)], None)) == Some([pageDoc])
    ensures var event := EventData(siteId, None, site, None, Some([collection]));
      UpdateSiteAnalytics(settings, event, Some([home, entry, page]), fetch, countOf).value.trendingPages
        == Some([TrendingPage(entry.pageViews, entry.path, entryDoc), TrendingPage(page.pageViews, page.path, pageDoc)])
  {
    DemoRowsFiltered(site, collection.slug, entrySlug, pageSlug, home, entry, page);
    CoreSiteTrending(siteId, site, collection, entrySlug, pageSlug, entry, page, fetch, entryDoc, pageDoc);
  }

  /**
   * A collection kept in the site's own database: an entry path of it is
   * looked up under the collection's list label with only the slug-or-id
   * filter, in that site's database, and the collection is counted at
   * `https://{site}-db.{domain}/api/{slug}` with no site filter.
   */
  lemma CustomCollectionRun(settings: Settings, siteId: string, site: string, collection: Collection, entrySlug: string, row: Row)
    requires Slash !in site && Slash !in collection.slug && Slash !in entrySlug
    requires collection.customDatabase && collection.slug != "" && entrySlug != ""
    requires row.path == Some(Join(["", site, "c", collection.slug, entrySlug]))
    ensures EntryQuery(DocOf(Classify(row, site)), siteId, site, [collection])
      == Some(Query(ListLabel(collection.slug), [SlugOrIdEquals(entrySlug)], Some(site)))
    ensures CountRequestFor(settings, siteId, site, collection)
      == RestGet("https://" + site + "-db." + settings.domain + "/api/" + collection.slug, None)
  {
    PathForms(site, collection.slug, entrySlug, site, row.pageViews);
    assert Classify(row, site) == Classify(Row(Some(Join(["", site, "c", collection.slug, entrySlug])), row.pageViews), site);
    assert IsCustomMatch(collection, Some(collection.slug));
  }
}
