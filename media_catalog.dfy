/** The public media library page: a fixed catalogue of items narrowed by a
    category tab and a search box. The list shown is the catalogue filtered
    by both; the empty-state panel appears when nothing is left. */
module MediaCatalog {
  import opened Text
  import Seqs

  datatype ItemType = Video | Audio | Document

  /** One catalogue entry; thumbnails, dates and view counts are display-only. */
  datatype MediaItem = MediaItem(id: nat, title: string, itemType: ItemType, category: string)

  /** The category tabs, "All" first. */
  const Categories: seq<string> := ["All", "Sermons", "Testimonies", "Worship", "Teachings", "Documents"]

  /** The catalogue the page filters. */
  const Catalog: seq<MediaItem> := [
    MediaItem(1, "The Power of Faith", Video, "Sermons"),
    MediaItem(2, "Healing Testimony - Sarah's Story", Video, "Testimonies"),
    MediaItem(3, "Sunday Worship Session", Audio, "Worship"),
    MediaItem(4, "Understanding Grace", Video, "Teachings"),
    MediaItem(5, "Weekly Devotional - January", Document, "Documents"),
    MediaItem(6, "Miracle at Midnight", Audio, "Testimonies")
  ]

  /** `activeCategory === "All" || item.category === activeCategory`. */
  predicate MatchesCategory(item: MediaItem, activeCategory: string) {
    activeCategory == "All" || item.category == activeCategory
  }

  /** `item.title.toLowerCase().includes(searchQuery.toLowerCase())`. */
  predicate MatchesSearch(item: MediaItem, searchQuery: string) {
    Contains(ToLower(item.title), ToLower(searchQuery))
  }

  predicate Kept(item: MediaItem, activeCategory: string, searchQuery: string) {
    MatchesCategory(item, activeCategory) && MatchesSearch(item, searchQuery)
  }

  /** `filteredItems`. */
  function FilteredItems(items: seq<MediaItem>, activeCategory: string, searchQuery: string): (r: seq<MediaItem>)
    ensures |r| <= |items|
    ensures forall x :: x in r <==> x in items && Kept(x, activeCategory, searchQuery)
    ensures Seqs.IsSubsequence(r, items)
  {
    Seqs.Filter(items, item => Kept(item, activeCategory, searchQuery))
  }

  /** The empty-state panel is shown when `filteredItems.length === 0`. */
  predicate ShowsEmptyState(items: seq<MediaItem>, activeCategory: string, searchQuery: string) {
    |FilteredItems(items, activeCategory, searchQuery)| == 0
  }

  /** The "All" tab with an empty search box shows the whole list, in order. */
  lemma AllWithEmptyQueryKeepsEverything(items: seq<MediaItem>)
    ensures FilteredItems(items, "All", "") == items
  {
    forall item | item in items
      ensures Kept(item, "All", "")
    {
      ContainsEmpty(ToLower(item.title));
    }
    Seqs.FilterAll(items, item => Kept(item, "All", ""));
  }

  /** Typing the query in another letter case shows the same items. */
  lemma QueryCaseIgnored(items: seq<MediaItem>, activeCategory: string, q1: string, q2: string)
    requires SameUpToCase(q1, q2)
    ensures FilteredItems(items, activeCategory, q1) == FilteredItems(items, activeCategory, q2)
  {
    SameUpToCaseLower(q1, q2);
    Seqs.FilterSameTest(items, item => Kept(item, activeCategory, q1), item => Kept(item, activeCategory, q2));
  }

  /** The empty state appears exactly when no item passes both tests. */
  lemma EmptyStateIff(items: seq<MediaItem>, activeCategory: string, searchQuery: string)
    ensures ShowsEmptyState(items, activeCategory, searchQuery)
            <==> forall x :: x in items ==> !Kept(x, activeCategory, searchQuery)
  {
    var r := FilteredItems(items, activeCategory, searchQuery);
    if |r| != 0 {
      assert r[0] in r;
    }
  }

  /** A tab other than "All" shows only items of that category. */
  lemma CategoryTabShowsOnlyThatCategory(items: seq<MediaItem>, activeCategory: string, searchQuery: string)
    requires activeCategory != "All"
    ensures forall x :: x in FilteredItems(items, activeCategory, searchQuery) ==> x.category == activeCategory
  {
  }

  /** The Sermons tab with an empty query shows just "The Power of Faith". */
  lemma SermonsTab()
    ensures FilteredItems(Catalog, "Sermons", "") == [Catalog[0]]
  {
    OnlyFirstIsSermon();
    OnlyFirstInCategory(Catalog, "Sermons");
  }

  /** A list whose first item alone has the tab's category shows just that
      item under an empty query. */
  lemma OnlyFirstInCategory(items: seq<MediaItem>, category: string)
    requires category != "All" && items != [] && items[0].category == category
    requires forall x :: x in items[1..] ==> x.category != category
    ensures FilteredItems(items, category, "") == [items[0]]
  {
    var p := item => Kept(item, category, "");
    Seqs.FilterNone(items[1..], p);
    ContainsEmpty(ToLower(items[0].title));
    assert p(items[0]);
  }

  lemma OnlyFirstIsSermon()
    ensures Catalog[0].category == "Sermons"
    ensures forall x :: x in Catalog[1..] ==> x.category != "Sermons"
  {
    var rest := Catalog[1..];
    forall k | 0 <= k < |rest|
      ensures rest[k].category != "Sermons"
    {
      assert rest[k].category[0] != 'S';
    }
  }
}
