/** The unsorted marketplace of `components/alternative-marketplace.tsx`: its
    own listing record, the filter over name, description and tags, the like
    toggle, the clear-filters button and the sell gate. */
module AlternativeMarketplace {
  import opened Lists
  import opened Text
  import opened Auth
  import opened Gates
  import opened Plans

  datatype Seller = Seller(name: string, avatar: string, rating: real, verified: bool, location: string)

  datatype Stats = Stats(views: int, likes: int, isLiked: bool)

  /** A listing; `postedAt` is only displayed here, so it stays a string. */
  datatype Item = Item(
    id: string,
    name: string,
    description: string,
    price: int,
    category: string,
    condition: string,
    images: seq<string>,
    seller: Seller,
    stats: Stats,
    tradeable: bool,
    postedAt: string,
    tags: seq<string>)

  // ---------------------------------------------------------------- filter

  predicate MatchesCategory(item: Item, selectedCategory: string)
  {
    selectedCategory == "all" || item.category == selectedCategory
  }

  /** Name, description or some tag includes the query, ignoring case. */
  predicate MatchesSearch(item: Item, searchQuery: string)
  {
    MatchesIgnoringCase(item.name, searchQuery) ||
    MatchesIgnoringCase(item.description, searchQuery) ||
    SomeMatches(item.tags, searchQuery)
  }

  predicate Passes(item: Item, selectedCategory: string, searchQuery: string)
  {
    MatchesCategory(item, selectedCategory) && MatchesSearch(item, searchQuery)
  }

  function PassesTest(selectedCategory: string, searchQuery: string): Item -> bool
  {
    (x: Item) => Passes(x, selectedCategory, searchQuery)
  }

  /** `filteredItems`: the listings that pass both tests, in store order and unsorted. */
  function FilterItems(items: seq<Item>, selectedCategory: string, searchQuery: string): (r: seq<Item>)
    ensures forall x :: x in r <==> x in items && Passes(x, selectedCategory, searchQuery)
    ensures IsSubsequence(r, items)
    ensures multiset(r) <= multiset(items)
  {
    FilterIsSubsequence(items, PassesTest(selectedCategory, searchQuery));
    FilterMultiset(items, PassesTest(selectedCategory, searchQuery));
    Filter(items, PassesTest(selectedCategory, searchQuery))
  }

  /** The seller is not searched: replacing it never changes whether a listing passes. */
  lemma SellerNotSearched(item: Item, seller: Seller, selectedCategory: string, searchQuery: string)
    ensures Passes(item.(seller := seller), selectedCategory, searchQuery) <==>
            Passes(item, selectedCategory, searchQuery)
  {
  }

  /** With category "all" and an empty query the whole store is listed, in order. */
  lemma ClearedFiltersShowAll(items: seq<Item>)
    ensures FilterItems(items, "all", "") == items
  {
    forall i | 0 <= i < |items| ensures PassesTest("all", "")(items[i]) {
      EmptyQueryMatches(items[i].name);
    }
    FilterAll(items, PassesTest("all", ""));
  }

  // ------------------------------------------------------------ like toggle

  /** One listing liked or unliked: the flag flips and the count moves by one, without a floor. */
  function FlipLike(item: Item): Item
  {
    item.(stats := item.stats.(isLiked := !item.stats.isLiked,
                               likes := if item.stats.isLiked then item.stats.likes - 1 else item.stats.likes + 1))
  }

  function HasId(itemId: string): Item -> bool
  {
    (x: Item) => x.id == itemId
  }

  /** The state update of `toggleLike(itemId)`. */
  function ToggleLikeIn(items: seq<Item>, itemId: string): seq<Item>
  {
    MapIf(items, HasId(itemId), FlipLike)
  }

  /** Only listings with that id change, and only in their like flag and count. */
  lemma ToggleLikeEffect(items: seq<Item>, itemId: string)
    ensures var r := ToggleLikeIn(items, itemId);
      && |r| == |items|
      && (forall i :: 0 <= i < |items| && items[i].id != itemId ==> r[i] == items[i])
      && (forall i :: 0 <= i < |items| && items[i].id == itemId ==>
            && r[i].stats.isLiked == !items[i].stats.isLiked
            && r[i].stats.likes == items[i].stats.likes + (if items[i].stats.isLiked then -1 else 1)
            && r[i].stats.views == items[i].stats.views
            && r[i].(stats := items[i].stats) == items[i])
  {
  }

  /** An id that no listing has leaves the list as it is. */
  lemma ToggleLikeUnknownId(items: seq<Item>, itemId: string)
    requires forall i :: 0 <= i < |items| ==> items[i].id != itemId
    ensures ToggleLikeIn(items, itemId) == items
  {
    MapIfNoHit(items, HasId(itemId), FlipLike);
  }

  /** Toggling the same listing twice restores the list. */
  lemma ToggleLikeTwice(items: seq<Item>, itemId: string)
    ensures ToggleLikeIn(ToggleLikeIn(items, itemId), itemId) == items
  {
    MapIfInvolution(items, HasId(itemId), FlipLike);
  }

  /** A like never changes what the filter lets through, so toggling and then
      filtering is filtering and then toggling. */
  lemma {:induction false} ToggleLikeCommutesWithFilter(items: seq<Item>, itemId: string,
                                                        selectedCategory: string, searchQuery: string)
    ensures FilterItems(ToggleLikeIn(items, itemId), selectedCategory, searchQuery) ==
            ToggleLikeIn(FilterItems(items, selectedCategory, searchQuery), itemId)
  {
    var p := PassesTest(selectedCategory, searchQuery);
    if items != [] {
      var t := ToggleLikeIn(items, itemId);
      ToggleLikeCommutesWithFilter(items[1..], itemId, selectedCategory, searchQuery);
      assert t[1..] == ToggleLikeIn(items[1..], itemId);
      assert p(t[0]) == p(items[0]);
      var rest := Filter(items[1..], p);
      if p(items[0]) {
        assert Filter(items, p) == [items[0]] + rest;
        assert ToggleLikeIn([items[0]] + rest, itemId)[1..] == ToggleLikeIn(rest, itemId);
      } else {
        assert Filter(items, p) == rest;
      }
    }
  }

  // ------------------------------------------------------------ result area

  /** The "load more" button shows under a non-empty result. */
  predicate ShowsLoadMore(filtered: seq<Item>)
  {
    |filtered| > 0
  }

  /** The "no items" notice, with its clear-filters button, shows under an empty result. */
  predicate ShowsNoItems(filtered: seq<Item>)
  {
    |filtered| == 0
  }

  /** Exactly one of the two branches renders. */
  lemma ResultBranchesPartition(filtered: seq<Item>)
    ensures ShowsLoadMore(filtered) != ShowsNoItems(filtered)
  {
  }

  /** After the clear-filters button the notice stays only when the store itself is empty. */
  lemma NoItemsAfterClear(items: seq<Item>)
    ensures ShowsNoItems(FilterItems(items, "all", "")) <==> items == []
  {
    ClearedFiltersShowAll(items);
  }

  // ----------------------------------------------------------- component

  const SellUpgradeReason: string := "vender produtos no marketplace"

  class Marketplace {
    var items: seq<Item>
    var selectedCategory: string
    var searchQuery: string
    var showUpgradeModal: bool
    var upgradeReason: string

    constructor(initial: seq<Item>)
      ensures items == initial && selectedCategory == "all" && searchQuery == ""
      ensures !showUpgradeModal && upgradeReason == ""
    {
      items := initial;
      selectedCategory := "all";
      searchQuery := "";
      showUpgradeModal := false;
      upgradeReason := "";
    }

    function Shown(): seq<Item>
      reads this
    {
      FilterItems(items, selectedCategory, searchQuery)
    }

    method SetSearchQuery(q: string)
      modifies this`searchQuery
      ensures searchQuery == q
    {
      searchQuery := q;
    }

    method SetCategory(c: string)
      modifies this`selectedCategory
      ensures selectedCategory == c
    {
      selectedCategory := c;
    }

    method ToggleLike(itemId: string)
      modifies this`items
      ensures items == ToggleLikeIn(old(items), itemId)
    {
      items := ToggleLikeIn(items, itemId);
    }

    /** The clear-filters button: both filters back to their defaults, so the
        whole store is listed. */
    method ClearFilters()
      modifies this`searchQuery, this`selectedCategory
      ensures searchQuery == "" && selectedCategory == "all"
      ensures Shown() == items
    {
      searchQuery := "";
      selectedCategory := "all";
      ClearedFiltersShowAll(items);
    }

    /** `handleSellAction`: the same gate as the sortable marketplace. */
    method HandleSellAction(user: Option<User>) returns (prompted: bool)
      modifies this`showUpgradeModal, this`upgradeReason
      ensures prompted == SellBlocked(user)
      ensures prompted ==> showUpgradeModal && upgradeReason == SellUpgradeReason
      ensures !prompted ==> showUpgradeModal == old(showUpgradeModal) && upgradeReason == old(upgradeReason)
    {
      if user.None? || !CanUserPerformAction(user.value.plan, CanSellProducts) {
        upgradeReason := SellUpgradeReason;
        showUpgradeModal := true;
        return true;
      }
      return false;
    }
  }
}
