/**
 * The `afterChange` hook of the collections collection
 * (app/db/collections/Collections.ts, lines 11-50): a newly created
 * collection is registered in its site's `collections` list.
 */
module CollectionHooks {
  import opened Wrappers
  import opened Sites

  /** `'create'` or `'update'`. */
  datatype Operation = Create | Update

  /**
   * The changed collection document: its id and the id of its populated
   * `site` (`None` when `doc.site.id` cannot be read, which throws).
   */
  datatype CollectionDoc = CollectionDoc(id: string, siteId: Option<string>)

  /**
   * The site's new collection list: just the new id when the site had no
   * list, else the previous ids in order followed by the new one. Nothing is
   * de-duplicated: the id is added once more even when already present.
   */
  function AppendedCollections(previous: Option<seq<string>>, docId: string): (ids: seq<string>)
    ensures previous.None? ==> ids == [docId]
    ensures previous.Some? ==> |ids| == |previous.value| + 1 && ids[..|previous.value|] == previous.value
    ensures ids[|ids| - 1] == docId
    ensures multiset(ids) == multiset(previous.GetOr([])) + multiset{docId}
  {
    if previous.None? then [docId] else previous.value + [docId]
  }

  /**
   * The hook: on create, append the new collection's id to its site's list;
   * on update, or when the site cannot be found (the error is logged and
   * swallowed), change nothing. The document is always returned unchanged.
   */
  method AfterChangeHook(store: SiteStore, doc: CollectionDoc, operation: Operation) returns (result: CollectionDoc)
    modifies store
    ensures result == doc
    ensures operation == Create && doc.siteId.Some? && doc.siteId.value in old(store.sites) ==>
      var site := old(store.sites)[doc.siteId.value];
      store.sites == old(store.sites)[doc.siteId.value := site.(collections := Some(AppendedCollections(site.collections, doc.id)))]
    ensures !(operation == Create && doc.siteId.Some? && doc.siteId.value in old(store.sites)) ==>
      store.sites == old(store.sites)
  {
    if operation == Create && doc.siteId.Some? {
      var siteId := doc.siteId.value;
      var current := store.FindById(siteId);
      if current.Some? {
        if current.value.collections.None? {
          store.SetCollections(siteId, [doc.id]);
        }
        if current.value.collections.Some? {
          var previous := current.value.collections.value;
          store.SetCollections(siteId, previous + [doc.id]);
        }
      }
    }
    result := doc;
  }
}
