/**
 * `getEntryData` (app/inngest/functions.ts, lines 187-429): which lookup a
 * classified row triggers, against which database, with which filters. The
 * GraphQL text and the network call are not modelled; a lookup is described
 * by a query descriptor, and what the fetcher returns for it is an input.
 */
module EntryLookup {
  import opened Wrappers
  import opened PageRows

  /** A collection as the site query returns it (`id`, `slug`, `customDatabase`). */
  datatype Collection = Collection(id: string, slug: string, customDatabase: bool)

  /**
   * The argument of `getEntryData`: an object whose slug fields may each be
   * present or absent. Only the fields that `Classify` set are present.
   */
  datatype LookupDoc = LookupDoc(
    customPageSlug: Option<string>,
    entrySlug: Option<string>,
    postSlug: Option<string>,
    collectionSlug: Option<string>,
    listSlug: Option<string>)

  /** The GraphQL collection a query is aliased to. */
  datatype Alias =
    | CustomPages
    | Posts
    | Entries
    | Collections
      /** `gqlFormat(slug, "list")`: the list name of a collection in a site's own database */
    | ListLabel(slug: string)

  /** One condition of a query's `where` argument. */
  datatype Filter =
    | SiteEquals(siteId: string)
    | SlugEquals(slug: string)
      /** `collectionEntity` compared with the `collectionId` variable; `None` is `undefined` */
    | CollectionEntityEquals(collectionId: Option<string>)
      /** `OR: [{slug: {equals: key}}, {id: {equals: key}}]` */
    | SlugOrIdEquals(key: string)

  /**
   * A lookup: the aliased collection, its filters, and the `siteSlug` handed
   * to the fetcher (`Some` addresses the site's own database, `None` the core one).
   */
  datatype Query = Query(alias: Alias, filters: seq<Filter>, siteSlug: Option<string>)

  /** The `{ name, icon { url } }` projection every lookup asks for. */
  datatype PageDoc = PageDoc(name: Option<string>, iconUrl: Option<string>)

  /** JavaScript truthiness of an optional string: present and non-empty. */
  predicate Truthy(s: Option<string>) {
    s.Some? && s.value != ""
  }

  /** The fields `Classify` gives a row, and nothing else. */
  function DocOf(row: ClassifiedRow): LookupDoc {
    match row.shape
    case CustomPage(s) => LookupDoc(Some(s), None, None, None, None)
    case CollectionList(s) => LookupDoc(None, None, None, None, Some(s))
    case EntryPage(c, e) => LookupDoc(None, Some(e), None, Some(c), None)
    case PostPage(s) => LookupDoc(None, None, Some(s), None, None)
    case Unclassified => LookupDoc(None, None, None, None, None)
  }

  /** `collection.slug == doc.collectionSlug && collection.customDatabase == true`. */
  predicate IsCustomMatch(c: Collection, collectionSlug: Option<string>) {
    collectionSlug == Some(c.slug) && c.customDatabase
  }

  /** `collections.find(...)`: the first custom-database collection with that slug. */
  function FindCustomCollection(collections: seq<Collection>, collectionSlug: Option<string>): (r: Option<Collection>)
    ensures r.Some? <==> exists i :: 0 <= i < |collections| && IsCustomMatch(collections[i], collectionSlug)
    ensures r.Some? ==>
      exists i :: (0 <= i < |collections| && collections[i] == r.value
        && IsCustomMatch(r.value, collectionSlug)
        && forall j :: 0 <= j < i ==> !IsCustomMatch(collections[j], collectionSlug))
  {
    if collections == [] then None
    else if IsCustomMatch(collections[0], collectionSlug) then Some(collections[0])
    else
      var r := FindCustomCollection(collections[1..], collectionSlug);
      assert forall i :: 1 <= i < |collections| ==> collections[i] == collections[1..][i - 1];
      r
  }

  /** `customCollection?.id`. */
  function OptionalId(c: Option<Collection>): Option<string> {
    if c.Some? then Some(c.value.id) else None
  }

  /**
   * The query `getEntryData` sends for `doc`, or `None` when it returns
   * `undefined` without fetching. A query for the site's own database never
   * carries the site filter; a query for the core database always does.
   */
  function EntryQuery(doc: LookupDoc, siteId: string, siteSlug: string, collections: seq<Collection>): (r: Option<Query>)
    ensures r.None? <==>
      !Truthy(doc.customPageSlug) && !Truthy(doc.postSlug)
      && !(Truthy(doc.entrySlug) && Truthy(doc.collectionSlug)) && !Truthy(doc.listSlug)
    ensures r.Some? ==> (r.value.siteSlug.Some? <==> SiteEquals(siteId) !in r.value.filters)
    ensures r.Some? && r.value.siteSlug.Some? ==> r.value.siteSlug == Some(siteSlug) && r.value.alias.ListLabel?
    ensures r.Some? ==> forall f :: f in r.value.filters && f.CollectionEntityEquals? ==> f.collectionId.None?
  {
    var customCollection := FindCustomCollection(collections, doc.collectionSlug);
    if Truthy(doc.customPageSlug) then
      Some(Query(CustomPages, [SiteEquals(siteId), SlugEquals(doc.customPageSlug.value)], None))
    else if Truthy(doc.postSlug) then
      Some(Query(Posts, [SiteEquals(siteId), SlugEquals(doc.postSlug.value)], None))
    else if Truthy(doc.entrySlug) && Truthy(doc.collectionSlug) then
      if customCollection.Some? then
        Some(Query(ListLabel(doc.collectionSlug.value), [SlugOrIdEquals(doc.entrySlug.value)], Some(siteSlug)))
      else
        Some(Query(Entries,
          [SiteEquals(siteId), CollectionEntityEquals(OptionalId(customCollection)), SlugOrIdEquals(doc.entrySlug.value)],
          None))
    else if Truthy(doc.listSlug) then
      if customCollection.Some? then
        Some(Query(ListLabel(doc.listSlug.value), [SlugOrIdEquals(doc.listSlug.value)], Some(siteSlug)))
      else
        Some(Query(Collections, [SiteEquals(siteId), SlugOrIdEquals(doc.listSlug.value)], None))
    else None
  }

  /**
   * The lookup kinds are tried in a fixed order, each by truthiness:
   * custom page, then post, then entry, then collection list.
   */
  lemma DispatchOrder(doc: LookupDoc, siteId: string, siteSlug: string, collections: seq<Collection>)
    ensures var r := EntryQuery(doc, siteId, siteSlug, collections);
      && (Truthy(doc.customPageSlug) ==>
            r == Some(Query(CustomPages, [SiteEquals(siteId), SlugEquals(doc.customPageSlug.value)], None)))
      && (!Truthy(doc.customPageSlug) && Truthy(doc.postSlug) ==>
            r == Some(Query(Posts, [SiteEquals(siteId), SlugEquals(doc.postSlug.value)], None)))
      && (!Truthy(doc.customPageSlug) && !Truthy(doc.postSlug) && Truthy(doc.entrySlug) && Truthy(doc.collectionSlug) ==>
            r.Some? && r.value.alias in {Entries, ListLabel(doc.collectionSlug.value)}
            && SlugOrIdEquals(doc.entrySlug.value) in r.value.filters)
      && (!Truthy(doc.customPageSlug) && !Truthy(doc.postSlug) && !(Truthy(doc.entrySlug) && Truthy(doc.collectionSlug))
          && Truthy(doc.listSlug) ==>
            r.Some? && r.value.alias in {Collections, ListLabel(doc.listSlug.value)}
            && SlugOrIdEquals(doc.listSlug.value) in r.value.filters)
  {
  }

  /** Whether the site has a custom-database collection with this slug. */
  ghost predicate HasCustomCollection(collections: seq<Collection>, slug: string) {
    exists i :: 0 <= i < |collections| && collections[i].slug == slug && collections[i].customDatabase
  }

  /**
   * An entry lookup goes to the site's own database, under the collection's
   * list label and with only the slug-or-id match, exactly when a collection
   * with that slug has `customDatabase` set; otherwise it goes to the core
   * `Entries` with the site and (always undefined) collection filters.
   */
  lemma EntryDatabaseChoice(doc: LookupDoc, siteId: string, siteSlug: string, collections: seq<Collection>)
    requires !Truthy(doc.customPageSlug) && !Truthy(doc.postSlug)
    requires Truthy(doc.entrySlug) && Truthy(doc.collectionSlug)
    ensures HasCustomCollection(collections, doc.collectionSlug.value) ==>
      EntryQuery(doc, siteId, siteSlug, collections)
        == Some(Query(ListLabel(doc.collectionSlug.value), [SlugOrIdEquals(doc.entrySlug.value)], Some(siteSlug)))
    ensures !HasCustomCollection(collections, doc.collectionSlug.value) ==>
      EntryQuery(doc, siteId, siteSlug, collections)
        == Some(Query(Entries,
             [SiteEquals(siteId), CollectionEntityEquals(None), SlugOrIdEquals(doc.entrySlug.value)], None))
  {
    var custom := FindCustomCollection(collections, doc.collectionSlug);
    if HasCustomCollection(collections, doc.collectionSlug.value) {
      var i :| 0 <= i < |collections| && collections[i].slug == doc.collectionSlug.value && collections[i].customDatabase;
      assert IsCustomMatch(collections[i], doc.collectionSlug);
    }
  }

  /**
   * A classified list row has no `collectionSlug`, so its lookup never finds
   * a custom collection: it always queries the core `Collections`.
   */
  lemma ListRowsQueryCore(row: ClassifiedRow, siteId: string, siteSlug: string, collections: seq<Collection>)
    requires row.shape.CollectionList? && row.shape.listSlug != ""
    ensures EntryQuery(DocOf(row), siteId, siteSlug, collections)
      == Some(Query(Collections, [SiteEquals(siteId), SlugOrIdEquals(row.shape.listSlug)], None))
  {
    assert FindCustomCollection(collections, None).None?;
  }

  /** A shape whose slug is missing or empty (and so falsy). */
  predicate HasFalsySlug(shape: Shape) {
    match shape
    case CustomPage(s) => s == ""
    case CollectionList(s) => s == ""
    case EntryPage(c, e) => c == "" || e == ""
    case PostPage(s) => s == ""
    case Unclassified => true
  }

  /** A classified row triggers a lookup exactly when its slugs are all non-empty. */
  lemma ClassifiedRowLookup(row: ClassifiedRow, siteId: string, siteSlug: string, collections: seq<Collection>)
    ensures EntryQuery(DocOf(row), siteId, siteSlug, collections).None? <==> HasFalsySlug(row.shape)
  {
  }

  /**
   * What `getEntryData` returns: the first document of the fetched page, or
   * nothing when no query is sent, the response lacks the alias, or the page
   * is empty. `fetch` stands for the GraphQL fetcher.
   */
  function ResolvedData(doc: LookupDoc, siteId: string, siteSlug: string, collections: seq<Collection>,
                        fetch: Query -> Option<seq<PageDoc>>): (r: Option<PageDoc>)
    ensures r.Some? <==>
      var q := EntryQuery(doc, siteId, siteSlug, collections);
      q.Some? && fetch(q.value).Some? && |fetch(q.value).value| > 0
    ensures r.Some? ==> r == Some(fetch(EntryQuery(doc, siteId, siteSlug, collections).value).value[0])
  {
    match EntryQuery(doc, siteId, siteSlug, collections)
    case None => None
    case Some(q) =>
      match fetch(q)
      case None => None
      case Some(docs) => if docs == [] then None else Some(docs[0])
  }
}
