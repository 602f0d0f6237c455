/**
 * The first two stages of the site-analytics job: dropping the site's
 * homepage from the analytics report rows, then turning every remaining page
 * path into one of five shapes (app/inngest/functions.ts, lines 133-185).
 */
module PageRows {
  import opened Wrappers
  import opened PathSplit

  /**
   * One report row: the first dimension value (the page path) and the first
   * metric value (the page-view count, kept as the provider's string).
   * `None` stands for a missing value.
   */
  datatype Row = Row(path: Option<string>, pageViews: Option<string>)

  /** What a page path denotes; the slugs are the path's own pieces. */
  datatype Shape =
    | CustomPage(customPageSlug: string)
    | CollectionList(listSlug: string)
    | EntryPage(collectionSlug: string, entrySlug: string)
    | PostPage(postSlug: string)
    | Unclassified

  /** A classified row still carries its original view count and path. */
  datatype ClassifiedRow = ClassifiedRow(shape: Shape, pageViews: Option<string>, path: Option<string>)

  /**
   * `path && path.split("/")`: a missing or empty path is falsy and yields
   * no pieces at all, so none of the length tests below can hold for it.
   */
  function Sections(path: Option<string>): (r: Option<seq<string>>)
    ensures r.Some? <==> path.Some? && path.value != ""
    ensures r.Some? ==> |r.value| >= 1 && Join(r.value) == path.value && NoSlash(r.value)
  {
    if path.Some? && path.value != "" then
      JoinSplit(path.value);
      SplitNoSlash(path.value);
      Some(Split(path.value))
    else None
  }

  /** The homepage row: exactly two pieces, the second one the site slug. */
  predicate IsHomepage(row: Row, siteSlug: string) {
    var sections := Sections(row.path);
    sections.Some? && |sections.value| == 2 && sections.value[1] == siteSlug
  }

  /** The `filter` at lines 136-146: keep every row except the homepage. */
  function DropHomepage(rows: seq<Row>, siteSlug: string): (kept: seq<Row>)
    ensures |kept| <= |rows|
    ensures forall row :: row in kept <==> row in rows && !IsHomepage(row, siteSlug)
  {
    if rows == [] then []
    else
      var rest := DropHomepage(rows[1..], siteSlug);
      assert forall row :: row in rows <==> row == rows[0] || row in rows[1..];
      if IsHomepage(rows[0], siteSlug) then rest else [rows[0]] + rest
  }

  /**
   * Filtering commutes with concatenation, so kept rows stay in their
   * relative order and each kept occurrence appears exactly once.
   */
  lemma {:induction false} DropHomepageAppend(a: seq<Row>, b: seq<Row>, siteSlug: string)
    ensures DropHomepage(a + b, siteSlug) == DropHomepage(a, siteSlug) + DropHomepage(b, siteSlug)
    decreases |a|
  {
    if a != [] {
      var head := if IsHomepage(a[0], siteSlug) then [] else [a[0]];
      assert (a + b)[0] == a[0];
      assert (a + b)[1..] == a[1..] + b;
      assert DropHomepage(a + b, siteSlug) == head + DropHomepage(a[1..] + b, siteSlug);
      assert DropHomepage(a, siteSlug) == head + DropHomepage(a[1..], siteSlug);
      DropHomepageAppend(a[1..], b, siteSlug);
    } else {
      assert a + b == b;
    }
  }

  /** A row whose path is missing or empty is never taken for the homepage. */
  lemma MissingPathKept(row: Row, siteSlug: string)
    requires row.path.None? || row.path == Some("")
    ensures DropHomepage([row], siteSlug) == [row]
  {
  }

  /** The homepage path "/" + slug is the one that gets dropped. */
  lemma {:induction false} HomepageDropped(siteSlug: string, views: Option<string>)
    requires Slash !in siteSlug
    ensures IsHomepage(Row(Some([Slash] + siteSlug), views), siteSlug)
    ensures DropHomepage([Row(Some([Slash] + siteSlug), views)], siteSlug) == []
  {
    var parts := ["", siteSlug];
    assert Join(parts) == [Slash] + siteSlug;
    SplitJoin(parts);
  }

  /**
   * The `map` callback at lines 147-185: the first matching rule decides the
   * shape; only the custom-page rule compares a piece with the site slug.
   */
  function Classify(row: Row, siteSlug: string): (c: ClassifiedRow)
    ensures c.pageViews == row.pageViews && c.path == row.path
  {
    var sections := Sections(row.path);
    var shape :=
      if sections.None? then Unclassified
      else
        var p := sections.value;
        if |p| == 3 && p[1] == siteSlug && p[2] != "collections" && p[2] != "posts" then CustomPage(p[2])
        else if |p| == 4 && p[2] == "c" then CollectionList(p[3])
        else if |p| == 5 && p[2] == "c" then EntryPage(p[3], p[4])
        else if |p| == 4 && p[2] == "p" then PostPage(p[3])
        else Unclassified;
    ClassifiedRow(shape, row.pageViews, row.path)
  }

  /** The pieces of a classified path, in the order the path holds them. */
  ghost predicate PathOf(row: Row, parts: seq<string>) {
    |parts| >= 1 && NoSlash(parts) && row.path == Some(Join(parts)) && Join(parts) != ""
  }

  /**
   * Each shape is produced exactly by its rule: the piece counts and marker
   * tokens read off the path, and (for custom pages only) the site slug.
   * The rules are disjoint, so "first match" never has to break a tie.
   */
  lemma ClassifyRules(row: Row, siteSlug: string, a: string, b: string)
    ensures Classify(row, siteSlug).shape == CustomPage(a) <==>
      exists p :: PathOf(row, p) && |p| == 3 && p[1] == siteSlug && p[2] != "collections" && p[2] != "posts" && p[2] == a
    ensures Classify(row, siteSlug).shape == CollectionList(a) <==>
      exists p :: PathOf(row, p) && |p| == 4 && p[2] == "c" && p[3] == a
    ensures Classify(row, siteSlug).shape == EntryPage(a, b) <==>
      exists p :: PathOf(row, p) && |p| == 5 && p[2] == "c" && p[3] == a && p[4] == b
    ensures Classify(row, siteSlug).shape == PostPage(a) <==>
      exists p :: PathOf(row, p) && |p| == 4 && p[2] == "p" && p[3] == a
  {
    var sections := Sections(row.path);
    if sections.Some? {
      var p := sections.value;
      forall q | PathOf(row, q) ensures q == p {
        SplitJoin(q);
      }
      assert PathOf(row, p);
    }
  }

  /** A row that fits no rule keeps only its view count and path. */
  lemma UnclassifiedRows(row: Row, siteSlug: string)
    ensures Classify(row, siteSlug).shape == Unclassified <==>
      forall p :: PathOf(row, p) ==>
        !(|p| == 3 && p[1] == siteSlug && p[2] != "collections" && p[2] != "posts") &&
        !(|p| == 4 && (p[2] == "c" || p[2] == "p")) &&
        !(|p| == 5 && p[2] == "c")
  {
    var sections := Sections(row.path);
    if sections.Some? {
      var p := sections.value;
      forall q | PathOf(row, q) ensures q == p {
        SplitJoin(q);
      }
      assert PathOf(row, p);
    }
  }

  /**
   * The four URL forms of a wiki page classify as intended, whatever the
   * slugs, as long as they contain no slash: "/{site}/c/{list}",
   * "/{site}/c/{collection}/{entry}", "/{site}/p/{post}", and, for the
   * site itself only, "/{site}/{page}".
   */
  lemma {:induction false} PathForms(site: string, a: string, b: string, siteSlug: string, views: Option<string>)
    requires Slash !in site && Slash !in a && Slash !in b
    ensures Classify(Row(Some(Join(["", site, "c", a])), views), siteSlug).shape == CollectionList(a)
    ensures Classify(Row(Some(Join(["", site, "c", a, b])), views), siteSlug).shape == EntryPage(a, b)
    ensures Classify(Row(Some(Join(["", site, "p", a])), views), siteSlug).shape == PostPage(a)
    ensures site == siteSlug && a != "collections" && a != "posts" ==>
      Classify(Row(Some(Join(["", site, a])), views), siteSlug).shape == CustomPage(a)
  {
    NonEmptySections(["", site, "c", a]);
    NonEmptySections(["", site, "c", a, b]);
    NonEmptySections(["", site, "p", a]);
    NonEmptySections(["", site, a]);
  }

  /** A path joined from slash-free pieces, starting with "/", has those pieces. */
  lemma NonEmptySections(parts: seq<string>)
    requires |parts| >= 2 && NoSlash(parts) && parts[0] == ""
    ensures Sections(Some(Join(parts))) == Some(parts)
  {
    assert Join(parts) == "" + [Slash] + Join(parts[1..]);
    assert Join(parts)[0] == Slash;
    SplitJoin(parts);
  }

  /** The stage as a whole: one classified row per kept row, in order. */
  function ClassifyAll(rows: seq<Row>, siteSlug: string): (out: seq<ClassifiedRow>)
    ensures |out| == |rows|
    ensures forall i :: 0 <= i < |rows| ==> out[i] == Classify(rows[i], siteSlug)
  {
    if rows == [] then [] else [Classify(rows[0], siteSlug)] + ClassifyAll(rows[1..], siteSlug)
  }
}
