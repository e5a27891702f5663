/** The sortable marketplace of `components/optimized-marketplace.tsx`: its
    listings, the filter-then-sort projection, the like toggle and the sell
    gate. */
module OptimizedMarketplace {
  import opened Lists
  import opened Text
  import opened Plans
  import opened Auth
  import opened Gates
  import StableSort

  datatype Seller = Seller(
    name: string, avatar: string, rating: real, verified: bool,
    location: string, responseTime: string, totalSales: int)

  datatype Stats = Stats(views: int, likes: int, isLiked: bool, watchers: int)

  /** A listing. Prices are integers; `postedAt` is a day number that orders
      the listings by posting date. */
  datatype Item = Item(
    id: string,
    name: string,
    description: string,
    price: int,
    category: string,
    condition: string,
    images: seq<string>,
    seller: Seller,
    stats: Stats,
    tradeable: bool,
    postedAt: int,
    tags: seq<string>,
    featured: bool,
    discount: Option<int>)

  // ---------------------------------------------------------------- filter

  predicate MatchesCategory(item: Item, selectedCategory: string)
  {
    selectedCategory == "all" || item.category == selectedCategory
  }

  /** Name, description, some tag or the seller's name includes the query, ignoring case. */
  predicate MatchesSearch(item: Item, searchQuery: string)
  {
    MatchesIgnoringCase(item.name, searchQuery) ||
    MatchesIgnoringCase(item.description, searchQuery) ||
    SomeMatches(item.tags, searchQuery) ||
    MatchesIgnoringCase(item.seller.name, searchQuery)
  }

  predicate Passes(item: Item, selectedCategory: string, searchQuery: string)
  {
    MatchesCategory(item, selectedCategory) && MatchesSearch(item, searchQuery)
  }

  function PassesTest(selectedCategory: string, searchQuery: string): Item -> bool
  {
    (x: Item) => Passes(x, selectedCategory, searchQuery)
  }

  /** `items.filter(...)`: the listings that pass both tests, in store order. */
  function FilterItems(items: seq<Item>, selectedCategory: string, searchQuery: string): (r: seq<Item>)
    ensures forall x :: x in r <==> x in items && Passes(x, selectedCategory, searchQuery)
    ensures IsSubsequence(r, items)
  {
    FilterIsSubsequence(items, PassesTest(selectedCategory, searchQuery));
    Filter(items, PassesTest(selectedCategory, searchQuery))
  }

  // ------------------------------------------------------------------ sort

  datatype SortMode = Featured | Recent | Popular | PriceLow | PriceHigh

  /** The `switch (sortBy)` cases; any other string sorts nothing. */
  function ParseSortBy(sortBy: string): (m: Option<SortMode>)
    ensures m.Some? <==> sortBy in {"featured", "recent", "popular", "price-low", "price-high"}
  {
    if sortBy == "featured" then Some(Featured)
    else if sortBy == "recent" then Some(Recent)
    else if sortBy == "popular" then Some(Popular)
    else if sortBy == "price-low" then Some(PriceLow)
    else if sortBy == "price-high" then Some(PriceHigh)
    else None
  }

  /** The comparators passed to `sort`, as written in the source. */
  function Compare(mode: SortMode, a: Item, b: Item): int
  {
    match mode
    case Featured => (if b.featured then 1 else 0) - (if a.featured then 1 else 0)
    case PriceLow => a.price - b.price
    case PriceHigh => b.price - a.price
    case Popular => b.stats.likes - a.stats.likes
    case Recent => b.postedAt - a.postedAt
  }

  /** The key each comparator subtracts: sorting by it ascending is sorting with the comparator. */
  function SortKey(mode: SortMode, x: Item): int
  {
    match mode
    case Featured => -(if x.featured then 1 else 0)
    case PriceLow => x.price
    case PriceHigh => -x.price
    case Popular => -x.stats.likes
    case Recent => -x.postedAt
  }

  function ByKey(mode: SortMode): Item -> int
  {
    (x: Item) => SortKey(mode, x)
  }

  /** Every comparator is the difference of the keys, so it is a consistent comparator. */
  lemma CompareIsKeyDifference(mode: SortMode, a: Item, b: Item)
    ensures Compare(mode, a, b) == SortKey(mode, a) - SortKey(mode, b)
  {
  }

  /** `filteredItems`: filter, then sort the fresh filtered copy when `sortBy` is one of the five cases. */
  function FilteredItems(items: seq<Item>, selectedCategory: string, searchQuery: string, sortBy: string): (r: seq<Item>)
    ensures multiset(r) == multiset(FilterItems(items, selectedCategory, searchQuery))
    ensures ParseSortBy(sortBy).None? ==> r == FilterItems(items, selectedCategory, searchQuery)
  {
    var filtered := FilterItems(items, selectedCategory, searchQuery);
    match ParseSortBy(sortBy)
    case None => filtered
    case Some(mode) =>
      StableSort.SortPermutes(filtered, ByKey(mode));
      StableSort.Sort(filtered, ByKey(mode))
  }

  /** The shown listings are exactly the stored listings that pass the filter. */
  lemma FilteredItemsMembers(items: seq<Item>, selectedCategory: string, searchQuery: string, sortBy: string, x: Item)
    ensures x in FilteredItems(items, selectedCategory, searchQuery, sortBy) <==>
            x in items && Passes(x, selectedCategory, searchQuery)
  {
    var r := FilteredItems(items, selectedCategory, searchQuery, sortBy);
    assert x in r <==> x in multiset(r);
  }

  /** With no query and category "all" every listing is shown: a permutation of the store. */
  lemma NoFiltersIsPermutation(items: seq<Item>, sortBy: string)
    ensures multiset(FilteredItems(items, "all", "", sortBy)) == multiset(items)
  {
    forall i | 0 <= i < |items| ensures Passes(items[i], "all", "") {
      EmptyQueryMatches(items[i].name);
    }
    FilterAll(items, PassesTest("all", ""));
  }

  /** After a sort, no pair is out of order for the comparator that was used. */
  lemma SortedForComparator(items: seq<Item>, selectedCategory: string, searchQuery: string, sortBy: string, mode: SortMode)
    requires ParseSortBy(sortBy) == Some(mode)
    ensures var r := FilteredItems(items, selectedCategory, searchQuery, sortBy);
            forall i, j :: 0 <= i < j < |r| ==> Compare(mode, r[i], r[j]) <= 0
  {
    StableSort.SortIsSorted(FilterItems(items, selectedCategory, searchQuery), ByKey(mode));
  }

  /** "price-low" is non-decreasing in price. */
  lemma PriceLowAscending(items: seq<Item>, selectedCategory: string, searchQuery: string)
    ensures var r := FilteredItems(items, selectedCategory, searchQuery, "price-low");
            forall i, j :: 0 <= i < j < |r| ==> r[i].price <= r[j].price
  {
    var r := FilteredItems(items, selectedCategory, searchQuery, "price-low");
    assert ParseSortBy("price-low") == Some(PriceLow);
    SortedForComparator(items, selectedCategory, searchQuery, "price-low", PriceLow);
    forall i, j | 0 <= i < j < |r| ensures r[i].price <= r[j].price {
      assert Compare(PriceLow, r[i], r[j]) <= 0;
    }
  }

  /** "price-high" is non-increasing in price. */
  lemma PriceHighDescending(items: seq<Item>, selectedCategory: string, searchQuery: string)
    ensures var r := FilteredItems(items, selectedCategory, searchQuery, "price-high");
            forall i, j :: 0 <= i < j < |r| ==> r[i].price >= r[j].price
  {
    var r := FilteredItems(items, selectedCategory, searchQuery, "price-high");
    assert ParseSortBy("price-high") == Some(PriceHigh);
    SortedForComparator(items, selectedCategory, searchQuery, "price-high", PriceHigh);
    forall i, j | 0 <= i < j < |r| ensures r[i].price >= r[j].price {
      assert Compare(PriceHigh, r[i], r[j]) <= 0;
    }
  }

  /** "popular" is non-increasing in likes. */
  lemma PopularDescending(items: seq<Item>, selectedCategory: string, searchQuery: string)
    ensures var r := FilteredItems(items, selectedCategory, searchQuery, "popular");
            forall i, j :: 0 <= i < j < |r| ==> r[i].stats.likes >= r[j].stats.likes
  {
    var r := FilteredItems(items, selectedCategory, searchQuery, "popular");
    assert ParseSortBy("popular") == Some(Popular);
    SortedForComparator(items, selectedCategory, searchQuery, "popular", Popular);
    forall i, j | 0 <= i < j < |r| ensures r[i].stats.likes >= r[j].stats.likes {
      assert Compare(Popular, r[i], r[j]) <= 0;
    }
  }

  /** "recent" puts later posting days first. */
  lemma RecentNewestFirst(items: seq<Item>, selectedCategory: string, searchQuery: string)
    ensures var r := FilteredItems(items, selectedCategory, searchQuery, "recent");
            forall i, j :: 0 <= i < j < |r| ==> r[i].postedAt >= r[j].postedAt
  {
    var r := FilteredItems(items, selectedCategory, searchQuery, "recent");
    assert ParseSortBy("recent") == Some(Recent);
    SortedForComparator(items, selectedCategory, searchQuery, "recent", Recent);
    forall i, j | 0 <= i < j < |r| ensures r[i].postedAt >= r[j].postedAt {
      assert Compare(Recent, r[i], r[j]) <= 0;
    }
  }

  /** "featured": every featured listing precedes every other one. */
  lemma FeaturedFirst(items: seq<Item>, selectedCategory: string, searchQuery: string)
    ensures var r := FilteredItems(items, selectedCategory, searchQuery, "featured");
            forall i, j :: 0 <= i < j < |r| ==> r[i].featured || !r[j].featured
  {
    var r := FilteredItems(items, selectedCategory, searchQuery, "featured");
    assert ParseSortBy("featured") == Some(Featured);
    SortedForComparator(items, selectedCategory, searchQuery, "featured", Featured);
    forall i, j | 0 <= i < j < |r| ensures r[i].featured || !r[j].featured {
      assert Compare(Featured, r[i], r[j]) <= 0;
    }
  }

  /** Stability: listings the comparator ranks equal keep their filter order. */
  lemma EqualKeysKeepFilterOrder(items: seq<Item>, selectedCategory: string, searchQuery: string,
                                 sortBy: string, mode: SortMode, k: int)
    requires ParseSortBy(sortBy) == Some(mode)
    ensures Filter(FilteredItems(items, selectedCategory, searchQuery, sortBy), StableSort.HasKey(ByKey(mode), k)) ==
            Filter(FilterItems(items, selectedCategory, searchQuery), StableSort.HasKey(ByKey(mode), k))
  {
    StableSort.SortIsStable(FilterItems(items, selectedCategory, searchQuery), ByKey(mode), k);
  }

  // ------------------------------------------------------------ like toggle

  /** One listing liked or unliked: the flag flips and the count moves by one, without a floor. */
  function FlipLike(item: Item): Item
  {
    item.(stats := item.stats.(isLiked := !item.stats.isLiked,
                               likes := if item.stats.isLiked then item.stats.likes - 1 else item.stats.likes + 1))
  }

  /** The state update of `toggleLike(itemId)`. */
  function ToggleLikeIn(items: seq<Item>, itemId: string): seq<Item>
  {
    MapIf(items, (x: Item) => x.id == itemId, FlipLike)
  }

  /** Only listings with that id change, and only in their like flag and count. */
  lemma ToggleLikeEffect(items: seq<Item>, itemId: string)
    ensures var r := ToggleLikeIn(items, itemId);
      && |r| == |items|
      && (forall i :: 0 <= i < |items| && items[i].id != itemId ==> r[i] == items[i])
      && (forall i :: 0 <= i < |items| && items[i].id == itemId ==>
            && r[i].stats.isLiked == !items[i].stats.isLiked
            && r[i].stats.likes == items[i].stats.likes + (if items[i].stats.isLiked then -1 else 1)
            && r[i].stats.views == items[i].stats.views
            && r[i].stats.watchers == items[i].stats.watchers
            && r[i].(stats := items[i].stats) == items[i])
  {
  }

  /** An id that no listing has leaves the list as it is. */
  lemma ToggleLikeUnknownId(items: seq<Item>, itemId: string)
    requires forall i :: 0 <= i < |items| ==> items[i].id != itemId
    ensures ToggleLikeIn(items, itemId) == items
  {
    MapIfNoHit(items, (x: Item) => x.id == itemId, FlipLike);
  }

  /** Toggling the same listing twice restores the list. */
  lemma ToggleLikeTwice(items: seq<Item>, itemId: string)
    ensures ToggleLikeIn(ToggleLikeIn(items, itemId), itemId) == items
  {
    MapIfInvolution(items, (x: Item) => x.id == itemId, FlipLike);
  }

  // ----------------------------------------------------------- component

  const SellUpgradeReason: string := "vender produtos no marketplace"

  /** The component state that the handlers update. */
  class Marketplace {
    var items: seq<Item>
    var selectedCategory: string
    var searchQuery: string
    var sortBy: string
    var showUpgradeModal: bool
    var upgradeReason: string

    constructor(initial: seq<Item>)
      ensures items == initial && selectedCategory == "all" && searchQuery == "" && sortBy == "featured"
      ensures !showUpgradeModal && upgradeReason == ""
    {
      items := initial;
      selectedCategory := "all";
      searchQuery := "";
      sortBy := "featured";
      showUpgradeModal := false;
      upgradeReason := "";
    }

    /** The rendered projection; computing it never changes `items`. */
    function Shown(): seq<Item>
      reads this
    {
      FilteredItems(items, selectedCategory, searchQuery, sortBy)
    }

    method SetSearchQuery(q: string)
      modifies this`searchQuery
      ensures searchQuery == q
    {
      searchQuery := q;
    }

    method SetCategory(c: string)
      modifies this`selectedCategory
      ensures selectedCategory == c
    {
      selectedCategory := c;
    }

    method SetSortBy(s: string)
      modifies this`sortBy
      ensures sortBy == s
    {
      sortBy := s;
    }

    method ToggleLike(itemId: string)
      modifies this`items
      ensures items == ToggleLikeIn(old(items), itemId)
    {
      items := ToggleLikeIn(items, itemId);
    }

    /** `handleSellAction`: without a user or the `canSellProducts` capability it
        only records the reason and opens the upgrade prompt; otherwise it only
        shows a notice, which changes no state. */
    method HandleSellAction(user: Option<User>) returns (prompted: bool)
      modifies this`showUpgradeModal, this`upgradeReason
      ensures prompted == SellBlocked(user)
      ensures prompted ==> showUpgradeModal && upgradeReason == SellUpgradeReason
      ensures !prompted ==> showUpgradeModal == old(showUpgradeModal) && upgradeReason == old(upgradeReason)
    {
      if user.None? || !CanUserPerformAction(user.value.plan, CanSellProducts) {
        upgradeReason := SellUpgradeReason;
        showUpgradeModal := true;
        return true;
      }
      return false;
    }
  }

  // ------------------------------------------------------------- scenarios

  /** The three casings of the query lower to the same string. */
  lemma BassCasings(query: string)
    requires query in {"bass", "BASS", "Bass"}
    ensures ToLower(query) == "bass"
  {
  }

  lemma DrumAndBassLower(tag: string)
    requires tag == "Drum & Bass"
    ensures ToLower(tag) == "drum & bass"
  {
    var r := ToLower(tag);
    forall i | 0 <= i < |tag| ensures r[i] == "drum & bass"[i] {
      assert r[i] == LowerChar(tag[i]);
    }
  }

  lemma DrumAndBassHoldsBass()
    ensures Contains("drum & bass", "bass")
  {
    assert OccursAt("drum & bass", "bass", 7);
    ContainsAt("drum & bass", "bass");
  }

  lemma CyberPulseLower(name: string)
    requires name == "Cyber Pulse"
    ensures ToLower(name) == "cyber pulse"
  {
    var r := ToLower(name);
    forall i | 0 <= i < |name| ensures r[i] == "cyber pulse"[i] {
      assert r[i] == LowerChar(name[i]);
    }
  }

  /** The one "b" in "cyber pulse" is followed by "e", so "ba" never occurs. */
  lemma CyberPulseLacksBass(lowered: string)
    requires lowered == "cyber pulse"
    ensures !Contains(lowered, "bass") && !Contains("", "bass")
  {
    var needle := "bass";
    forall i | 0 <= i < |lowered| - 1 ensures !(lowered[i] == needle[0] && lowered[i + 1] == needle[1]) {
      assert lowered[i] == "cyber pulse"[i];
    }
    NotContainedFirstPair(lowered, needle);
    NotContainedFirstChar("", needle);
  }

  lemma TaggedPassesBass(query: string, tagged: Item)
    requires ToLower(query) == "bass"
    requires tagged.tags == ["Drum & Bass"]
    ensures PassesTest("all", query)(tagged)
  {
    DrumAndBassLower(tagged.tags[0]);
    DrumAndBassHoldsBass();
    assert MatchesIgnoringCase(tagged.tags[0], query);
  }

  lemma PlainFailsBass(query: string, plain: Item)
    requires ToLower(query) == "bass"
    requires plain.name == "Cyber Pulse" && plain.description == "" && plain.tags == [] && plain.seller.name == ""
    ensures !PassesTest("all", query)(plain)
  {
    CyberPulseLower(plain.name);
    CyberPulseLacksBass(ToLower(plain.name));
    assert ToLower("") == "";
  }

  /** A query that lowers to "bass" finds a listing tagged "Drum & Bass" and
      not an untagged one named "Cyber Pulse" with empty description and seller. */
  lemma BassSearchScenario(query: string, tagged: Item, plain: Item)
    requires ToLower(query) == "bass"
    requires tagged.tags == ["Drum & Bass"]
    requires plain.name == "Cyber Pulse" && plain.description == "" && plain.tags == [] && plain.seller.name == ""
    ensures FilterItems([tagged, plain], "all", query) == [tagged]
  {
    var p := PassesTest("all", query);
    TaggedPassesBass(query, tagged);
    PlainFailsBass(query, plain);
    assert [tagged, plain] == [tagged] + [plain];
    FilterConcat([tagged], [plain], p);
    assert Filter([plain], p) == [];
    assert Filter([tagged], p) == [tagged];
  }

  lemma AllPassEmptySearch(items: seq<Item>)
    ensures FilterItems(items, "all", "") == items
  {
    forall i | 0 <= i < |items| ensures PassesTest("all", "")(items[i]) {
      EmptyQueryMatches(items[i].name);
    }
    FilterAll(items, PassesTest("all", ""));
  }

  /** Prices 350, 120, 500 sort to 120, 350, 500 ascending and 500, 350, 120 descending. */
  lemma PriceSortScenario(a: Item, b: Item, c: Item)
    requires a.price == 350 && b.price == 120 && c.price == 500
    ensures FilteredItems([a, b, c], "all", "", "price-low") == [b, a, c]
    ensures FilteredItems([a, b, c], "all", "", "price-high") == [c, a, b]
  {
    var s := [a, b, c];
    AllPassEmptySearch(s);
    var lowMode := ParseSortBy("price-low");
    var highMode := ParseSortBy("price-high");
    assert lowMode == Some(PriceLow) && highMode == Some(PriceHigh);
    assert FilteredItems(s, "all", "", "price-low") == StableSort.Sort(s, ByKey(PriceLow));
    assert FilteredItems(s, "all", "", "price-high") == StableSort.Sort(s, ByKey(PriceHigh));
    PriceLowSteps(a, b, c);
    PriceHighSteps(a, b, c);
  }

  lemma PriceLowSteps(a: Item, b: Item, c: Item)
    requires a.price == 350 && b.price == 120 && c.price == 500
    ensures StableSort.Sort([a, b, c], ByKey(PriceLow)) == [b, a, c]
  {
    var lo := ByKey(PriceLow);
    assert lo(a) == 350 && lo(b) == 120 && lo(c) == 500;
    StableSort.SortUnfolds(c, [], lo);
    StableSort.InsertStops(c, [], lo);
    assert [c] + [] == [c];
    StableSort.SortUnfolds(b, [c], lo);
    StableSort.InsertStops(b, [c], lo);
    StableSort.SortUnfolds(a, [b, c], lo);
    assert [b, c] == [b] + [c] && [a] + [b, c] == [a, b, c];
    StableSort.InsertPasses(a, b, [c], lo);
    StableSort.InsertStops(a, [c], lo);
  }

  lemma PriceHighSteps(a: Item, b: Item, c: Item)
    requires a.price == 350 && b.price == 120 && c.price == 500
    ensures StableSort.Sort([a, b, c], ByKey(PriceHigh)) == [c, a, b]
  {
    var hi := ByKey(PriceHigh);
    assert hi(a) == -350 && hi(b) == -120 && hi(c) == -500;
    StableSort.SortUnfolds(c, [], hi);
    StableSort.InsertStops(c, [], hi);
    assert [c] + [] == [c];
    StableSort.SortUnfolds(b, [c], hi);
    StableSort.InsertPasses(b, c, [], hi);
    StableSort.InsertStops(b, [], hi);
    assert [b] + [c] == [b, c] && [c] + [b] == [c, b];
    StableSort.SortUnfolds(a, [b, c], hi);
    assert [a] + [b, c] == [a, b, c];
    StableSort.InsertPasses(a, c, [b], hi);
    StableSort.InsertStops(a, [b], hi);
  }
}
