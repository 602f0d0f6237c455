# Site analytics, collection registration and theme cookie — a Dafny model

This project models three pieces of a multi-tenant wiki platform (a CMS backend with per-site wikis):

- **The scheduled site-analytics job** (`app/inngest/functions.ts`). A cron step emits one
  `analytics/site.analytics.send` event per site. For each event, the job:
  - takes the site's analytics report rows and drops the homepage row;
  - classifies each remaining page path as a custom page, collection list, entry, post, or unclassified;
  - looks each row up (`getEntryData`), in the core database or in the site's own database;
  - keeps the rows that resolved as the site's trending pages;
  - counts posts and entries;
  - sends a PATCH with whichever totals are truthy.
- **The collections `afterChange` hook** (`app/db/collections/Collections.ts`). When a collection is
  created, its id is appended to its site's `collections` list.
- **The theme cookie** (`app/utils/theme.server.tsx`). `getTheme` reads the `en-theme` cookie.
  `setTheme` chooses the cookie's attributes.

Files, one module each:

| file | module | contents |
|---|---|---|
| `wrappers.dfy` | `Wrappers` | `Option`, standing for a present value versus `undefined`/`null` |
| `path_split.dfy` | `PathSplit` | `split("/")` and its inverse `Join`, with the round-trip lemmas |
| `page_rows.dfy` | `PageRows` | the homepage filter and the path classifier |
| `entry_lookup.dfy` | `EntryLookup` | `getEntryData` as a function that returns a query descriptor |
| `aggregation.dfy` | `Aggregation` | fan-out, the trending filter, totals, the patch, the whole job |
| `sites.dfy` | `Sites` | stored site records, the PATCH merge, the `SiteStore` class |
| `collection_hooks.dfy` | `CollectionHooks` | the `afterChange` hook, a module-level method that updates a `SiteStore` |
| `theme.dfy` | `Theme` | `getTheme`, `setTheme`, and a browser cookie store (RFC 6265) |
| `scenarios.dfy` | `Scenarios` | two complete runs of the job, for any slash-free slugs |

Inputs that come from outside the core are parameters:

- the report rows returned by the analytics provider;
- `fetch`, which maps a query descriptor to the documents the GraphQL fetcher returns;
- `countOf`, which maps a REST count request to its `totalDocs`;
- the cookie-header parser;
- `settings.domain` and `settings.domainFull`, as opaque strings.

Behaviour kept as the code has it:

- An empty trending list is still written: `trendingPages && { trendingPages }` keeps an empty array, which is
  truthy (`functions.ts:518`).
- A collection-list row is always looked up in the core `Collections`: the custom-collection search compares
  against `doc.collectionSlug`, which list rows never carry (`functions.ts:196-199, 373-382`).
- The core entry lookup sends `collectionId` as `customCollection?.id` only when `customCollection` is absent,
  so the collection filter always compares against `undefined` (`functions.ts:361-364`).
- The homepage row is dropped before classification, so no row is ever classified as the homepage
  (`functions.ts:140-145`).
- Every core collection issues the same site-wide entries count with no collection filter, so the site's core
  entry count is added once per core collection (`functions.ts:470-500`, `TotalEntriesBreakdown`).

## Model

| member | source | states |
|---|---|---|
| `PathSplit.SplitLength` | app/inngest/functions.ts:140 | `path.split("/")` has one more piece than the path has slashes |
| `PathSplit.SplitNoSlash` | app/inngest/functions.ts:140 | no piece of a split contains `/` |
| `PathSplit.JoinSplit` | app/inngest/functions.ts:140 | joining the pieces with `/` gives back the path |
| `PathSplit.SplitJoin` | app/inngest/functions.ts:140 | splitting a `/`-join of slash-free pieces gives back exactly those pieces |
| `PageRows.Sections` | app/inngest/functions.ts:137-140 | a missing or empty path yields no pieces; otherwise the pieces are the path's `/`-split |
| `PageRows.DropHomepage` | app/inngest/functions.ts:133-146 | a row is kept iff it is not the homepage, i.e. its path does not split into exactly 2 pieces with the second equal to the site slug |
| `PageRows.DropHomepageAppend` | app/inngest/functions.ts:136-146 | the filter distributes over concatenation, so kept rows keep their relative order |
| `PageRows.MissingPathKept` | app/inngest/functions.ts:137-145 | a row with a missing or empty path is kept |
| `PageRows.HomepageDropped` | app/inngest/functions.ts:141-144 | the row for "/" + slug is the homepage and is dropped |
| `PageRows.Classify` | app/inngest/functions.ts:147-185 | every classified row keeps the row's original `pageViews` and `path` |
| `PageRows.ClassifyRules` | app/inngest/functions.ts:155-180 | custom page iff 3 pieces, piece 1 is the site slug and piece 2 is not "collections"/"posts"; list iff 4 pieces with "c"; entry iff 5 pieces with "c"; post iff 4 pieces with "p"; slugs are the named pieces |
| `PageRows.UnclassifiedRows` | app/inngest/functions.ts:181-184 | a row carries only `pageViews` and `path` iff no rule applies to its pieces |
| `PageRows.PathForms` | app/inngest/functions.ts:155-180 | "/{site}/c/{list}", "/{site}/c/{coll}/{entry}" and "/{site}/p/{post}" classify as list, entry and post whatever the site; "/{site}/{page}" is a custom page when the site is this site |
| `PageRows.NonEmptySections` | app/inngest/functions.ts:140 | a path joined from slash-free pieces that begin with "" has exactly those pieces |
| `PageRows.ClassifyAll` | app/inngest/functions.ts:147-185 | one classified row per kept row, in order |
| `EntryLookup.FindCustomCollection` | app/inngest/functions.ts:196-200 | the result is present iff some collection has the doc's `collectionSlug` and `customDatabase`; it is the first such collection |
| `EntryLookup.EntryQuery` | app/inngest/functions.ts:187-429 | no query iff no slug field is truthy in the required combination; a query for the site's own database never has the site filter and a core query always has it; such a query uses the list label; `collectionId` is always undefined |
| `EntryLookup.DispatchOrder` | app/inngest/functions.ts:203-428 | lookups are tried in the order custom page, post, entry (both slugs truthy), list; each by truthiness |
| `EntryLookup.EntryDatabaseChoice` | app/inngest/functions.ts:301-367 | an entry lookup targets the collection's list label in the site's database with only the slug-or-id match iff a custom-database collection has that slug; otherwise `Entries` with site, `collectionEntity` (undefined) and slug-or-id filters |
| `EntryLookup.ListRowsQueryCore` | app/inngest/functions.ts:372-427 | a classified list row always queries the core `Collections` with the site filter, whatever the site's collections |
| `EntryLookup.ClassifiedRowLookup` | app/inngest/functions.ts:203-428 | a classified row sends no query iff it is unclassified or one of its slugs is empty |
| `EntryLookup.ResolvedData` | app/inngest/functions.ts:187-429 | the resolved data is present iff a query is sent and its response has a non-empty page; it is then the first document |
| `Aggregation.FanOut` | app/inngest/functions.ts:67-87 | no result without a site list; otherwise one event per site, in order, with that site's id, type, slug, property id and collections, and a count equal to the number of sites |
| `Aggregation.Trending` | app/inngest/functions.ts:432-449 | a trending page exists iff some classified row resolved; it carries that row's `pageViews`, `path` and document |
| `Aggregation.TrendingAppend` | app/inngest/functions.ts:432-449 | the trending filter keeps the rows' original order |
| `Aggregation.FalsySlugNeverTrending` | app/inngest/functions.ts:444-449 | a row with an empty or missing slug never trends |
| `Aggregation.TrendingFromRows` | app/inngest/functions.ts:133-449 | every trending page of a run comes from a non-homepage report row, with its views, path and resolved document |
| `Aggregation.CountRequestFor` | app/inngest/functions.ts:490-501 | a custom collection is counted at `https://{siteSlug}-db.{domain}/api/{slug}` without the site filter; a core collection is counted with the site-filtered entries request |
| `Aggregation.SumAppend` | app/inngest/functions.ts:505 | the reduce from 0 is additive over concatenation |
| `Aggregation.SumUpdate` | app/inngest/functions.ts:482-505 | changing one collection's count changes the total by exactly the difference |
| `Aggregation.CollectionCounts` | app/inngest/functions.ts:482-504 | one `totalDocs` per collection, in order, each from that collection's count request |
| `Aggregation.TotalEntriesBreakdown` | app/inngest/functions.ts:470-505 | total entries = (number of core collections) × (site's core entry count) + the custom collections' own counts |
| `Aggregation.BuildPatch` | app/inngest/functions.ts:511-521 | `totalPosts` is present iff non-zero; `totalEntries` is present iff non-zero; `trendingPages` is present iff defined, including empty |
| `Aggregation.UpdateSiteAnalytics` | app/inngest/functions.ts:91-529 | the run fails iff the event has no collections; the patch's trending list is the run's; it is defined iff the report had rows; with rows, it is exactly the trending filter over the classified non-homepage rows, in report order; the totals are the posts count and the reduce of per-collection counts; the patch is `BuildPatch` of those totals and that list |
| `Sites.ApplyPatch` | app/inngest/functions.ts:508-522 | the PATCH sets exactly the fields the body has and keeps every other field of the site |
| `Sites.PatchIdempotent` | app/inngest/functions.ts:508-522 | sending the same patch twice equals sending it once |
| `Sites.RunUpdatesRecord` | app/inngest/functions.ts:508-522 | a zero posts or entries total leaves the stored value; a non-zero one replaces it; the trending list is written iff the report had rows |
| `Sites.SiteStore.FindById` | app/db/collections/Collections.ts:19-22 | the stored site is returned iff it exists |
| `Sites.SiteStore.PatchSite` | app/inngest/functions.ts:508-522 | the patched site becomes `ApplyPatch` of its old record; all other sites are unchanged; nothing changes when the site is absent |
| `Sites.SiteStore.SetCollections` | app/db/collections/Collections.ts:24-42 | only that site's `collections` field is replaced |
| `CollectionHooks.AppendedCollections` | app/db/collections/Collections.ts:23-42 | no previous list gives `[doc.id]`; otherwise the previous ids in order followed by `doc.id`: one longer, same prefix, multiset grows by exactly `doc.id` (no de-duplication) |
| `CollectionHooks.AfterChangeHook` | app/db/collections/Collections.ts:11-50 | on create for an existing site, that site's list becomes `AppendedCollections`; on update or on a swallowed error nothing changes; `doc` is always returned unchanged |
| `Theme.GetTheme` | app/utils/theme.server.tsx:6-13 | returns only light, dark or null; light when there is no header; null when the cookie is absent or holds anything else (e.g. "system") |
| `Theme.SetTheme` | app/utils/theme.server.tsx:15-24 | name `en-theme`, path "/"; "system" gives an empty value with maxAge -1; otherwise the theme name with maxAge 31536000 |
| `Theme.StoreCookie` | app/utils/theme.server.tsx:17-22 | a browser evicts the cookie on a Max-Age of zero or less (section 5.2.2 of RFC 6265) and stores the value otherwise; every other cookie keeps its presence and its value |
| `Theme.ThemeRoundTrip` | app/utils/theme.server.tsx:6-24 | after `setTheme(light/dark)` the next `getTheme` returns that theme; after `setTheme("system")` it returns null, or light when no cookie header is sent |
| `Scenarios.DemoRowsFiltered` | app/inngest/functions.ts:133-185 | for rows "/{site}", "/{site}/c/{coll}/{entry}", "/{site}/{page}": the first is dropped; the others are an entry and a custom page |
| `Scenarios.CoreSiteTrending` | app/inngest/functions.ts:301-449 | with a core collection, the entry row resolves via `Entries` and the page via `CustomPages`; both trend in report order |
| `Scenarios.CoreSiteRun` | app/inngest/functions.ts:91-449 | the whole run on that report yields exactly those two trending pages, in that order |
| `Scenarios.CustomCollectionRun` | app/inngest/functions.ts:301-367 | for a custom collection, the entry is looked up under its list label in the site's database with only the slug-or-id filter; it is counted at `https://{site}-db.{domain}/api/{slug}` |

## Left out

- The analytics provider client, its credentials and the `runReport` call (`functions.ts:97-131`). The rows
  it returns are an input.
- The cron's `Sites` query (`functions.ts:26-67`). Its `gaTagId`/`gaPropertyId` existence filter runs on the
  server, so the site list is an input.
- GraphQL text generation (`jsonToGraphQLQuery`), `gqlFormat` and `qs.stringify`, which are external
  libraries.
  - A query is a descriptor: alias, filters, site slug.
  - `gqlFormat(slug, "list")` stays symbolic as `ListLabel(slug)`.
  - The count query string is the `siteFilter` of a `CountRequest`.
- `authGQLFetcher`/`authRestFetcher`, which are network I/O.
  - Responses are the `fetch` and `countOf` inputs.
  - Transport and HTTP failures, which throw and abort a run, are not modelled. The one modelled throw is a
    missing `collections` list in the event.
- A `totalDocs` that is `undefined` (the sum would become `NaN`) is not modelled; counts are natural numbers.
- `Promise.all` concurrency and Inngest's `sendEvent`. Both joins preserve order, so they are sequential maps.
- `Collection.slug` is assumed to be a string. JavaScript's loose `null == undefined` match, for a collection
  stored without a slug, is not modelled.
- Collections hook:
  - `payload.update` is not awaited in the source. The model applies it at once, so no ordering against
    later requests is modelled.
  - The logger call in the catch is left out; only its effect (nothing changes) is kept.
  - A stored site's `collections` are populated documents that the hook maps to ids. The store keeps the ids.
- The Collections schema and access functions (`Collections.ts:52-213`), `app/components/Tooltip.tsx`,
  `app/_custom/components/recipes/Ingredients.tsx` and `app/db/payload.custom.config.ts`: these are
  declarative configuration or UI.
- The string formats of the `cookie` library's `parse` and `serialize`. `parse` is a parameter; `serialize`
  is the record of its arguments.
- `EntryLookup.DispatchOrder`: for the entry and list cases it states only which aliases are possible and
  the slug-or-id filter. The exact database choice is stated by `EntryDatabaseChoice` and
  `ListRowsQueryCore`.
