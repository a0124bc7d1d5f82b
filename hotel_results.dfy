/**
 * The hotel results screen: the list of hotels, the view of it the screen
 * shows (narrowed by the tab and five filters, then ordered by the chosen
 * sort), the wishlist flags, and the search parameters with their counters.
 *
 * The JavaScript view `filteredHotels` holds the very hotel objects of
 * `hotels`, so a wishlist flag flipped in `hotels` shows in the view. The
 * model keeps that sharing by making the view a sequence of positions into
 * `hotels`.
 */
module HotelResultsPage {
  import opened Wrappers
  import opened Text
  import opened Seqs
  import opened HotelSearch

  /** A hotel as the screen uses it; `rating` is in tenths (8.6 is 86). */
  datatype Hotel = Hotel(
    id: string, location: string, price: int, totalPrice: int, rating: int,
    features: seq<string>, freeCancellation: bool, isWishlisted: bool)

  datatype Filters = Filters(hitecCity: bool, breakfast: bool, freeCancellation: bool, pool: bool, wifi: bool)

  const NoFilters: Filters := Filters(false, false, false, false, false)

  /** A navigation to a hotel's detail screen. */
  datatype DetailLink = DetailLink(hotelId: string, query: Query)

  const HotelsTab: string := "hotels"
  const HomesTab: string := "homes"
  const Recommended: string := "recommended"
  const PriceLow: string := "price-low"
  const PriceHigh: string := "price-high"
  const ByRating: string := "rating"

  /** The five filters in the order `applyFilters` applies them. */
  const HitecCityFilter: nat := 0
  const BreakfastFilter: nat := 1
  const FreeCancellationFilter: nat := 2
  const PoolFilter: nat := 3
  const WifiFilter: nat := 4
  const FilterCount: nat := 5

  /** Whether filter `n` is switched on. */
  predicate Enabled(f: Filters, n: nat) {
    if n == HitecCityFilter then f.hitecCity
    else if n == BreakfastFilter then f.breakfast
    else if n == FreeCancellationFilter then f.freeCancellation
    else if n == PoolFilter then f.pool
    else if n == WifiFilter then f.wifi
    else false
  }

  /** The test filter `n` applies to a hotel. */
  predicate FilterTest(n: nat, h: Hotel) {
    if n == HitecCityFilter then Contains(h.location, "HITEC City")
    else if n == BreakfastFilter then "Breakfast" in h.features
    else if n == FreeCancellationFilter then h.freeCancellation
    else if n == PoolFilter then "Pool" in h.features
    else if n == WifiFilter then "Free WiFi" in h.features
    else true
  }

  /** A hotel passes every filter that is switched on. */
  predicate PassesFilters(h: Hotel, f: Filters) {
    (f.hitecCity ==> Contains(h.location, "HITEC City"))
    && (f.breakfast ==> "Breakfast" in h.features)
    && (f.freeCancellation ==> h.freeCancellation)
    && (f.pool ==> "Pool" in h.features)
    && (f.wifi ==> "Free WiFi" in h.features)
  }

  /** The filters with only the first `n` of them left switched on. */
  function UpTo(f: Filters, n: nat): Filters {
    Filters(f.hitecCity && n > 0, f.breakfast && n > 1, f.freeCancellation && n > 2,
            f.pool && n > 3, f.wifi && n > 4)
  }

  /** Switching on filter `n` as well adds its test. */
  lemma UpToNext(h: Hotel, f: Filters, n: nat)
    requires n < FilterCount
    ensures PassesFilters(h, UpTo(f, n + 1)) == (PassesFilters(h, UpTo(f, n)) && (Enabled(f, n) ==> FilterTest(n, h)))
  {
  }

  /** `h => test(h)` of filter `n`, on positions into `hs`. */
  function Keep(hs: seq<Hotel>, n: nat): nat -> bool {
    (p: nat) => p < |hs| && FilterTest(n, hs[p])
  }

  /** The sort keys: price ascending, price descending, rating descending. */
  function PriceKey(hs: seq<Hotel>): nat -> int {
    (p: nat) => if p < |hs| then hs[p].price else 0
  }

  function PriceDescKey(hs: seq<Hotel>): nat -> int {
    (p: nat) => if p < |hs| then -hs[p].price else 0
  }

  function RatingDescKey(hs: seq<Hotel>): nat -> int {
    (p: nat) => if p < |hs| then -hs[p].rating else 0
  }

  /**
   * The positions `s` hold, in increasing order, exactly the hotels that the
   * tab admits and that pass the first `n` filters.
   */
  ghost predicate Staged(s: seq<nat>, hs: seq<Hotel>, tab: string, f: Filters, n: nat) {
    StrictlyIncreasing(s)
    && forall p: nat :: p in s <==> p < |hs| && tab != HomesTab && PassesFilters(hs[p], UpTo(f, n))
  }

  /** Applying filter `n` when it is switched on moves a staged view one stage on. */
  lemma NarrowStep(s: seq<nat>, hs: seq<Hotel>, tab: string, f: Filters, n: nat)
    requires n < FilterCount
    requires Staged(s, hs, tab, f, n)
    ensures Staged(if Enabled(f, n) then Filter(s, Keep(hs, n)) else s, hs, tab, f, n + 1)
  {
    forall p: nat | p < |hs| {
      UpToNext(hs[p], f, n);
    }
    if Enabled(f, n) {
      FilterMembership(s, Keep(hs, n));
      FilterKeepsIncreasing(s, Keep(hs, n));
    }
  }

  /** The starting point of `applyFilters`: every position, or none on the 'homes' tab. */
  lemma StartStaged(s: seq<nat>, hs: seq<Hotel>, tab: string, f: Filters)
    requires s == if tab == HomesTab then [] else Positions(|hs|)
    ensures Staged(s, hs, tab, f, 0)
  {
    forall p: nat | p < |hs| && tab != HomesTab ensures p in s {
      assert s[p] == p;
    }
  }

  /** Sorting the fully narrowed positions as `sortBy` asks gives the filtered view. */
  lemma SortedIsView(unsorted: seq<nat>, sorted: seq<nat>, hs: seq<Hotel>, tab: string, sortBy: string, f: Filters)
    requires Staged(unsorted, hs, tab, f, FilterCount)
    requires multiset(sorted) == multiset(unsorted)
    requires sortBy == PriceLow ==> SortedBy(sorted, PriceKey(hs))
    requires sortBy == PriceHigh ==> SortedBy(sorted, PriceDescKey(hs))
    requires sortBy == ByRating ==> SortedBy(sorted, RatingDescKey(hs))
    requires sortBy != PriceLow && sortBy != PriceHigh && sortBy != ByRating ==> sorted == unsorted
    ensures FilteredView(hs, tab, sortBy, f, sorted)
  {
    assert UpTo(f, FilterCount) == f;
    IncreasingHasNoDuplicates(unsorted);
    forall p ensures p in sorted <==> p in unsorted {
      assert p in sorted <==> p in multiset(sorted);
      assert p in unsorted <==> p in multiset(unsorted);
    }
    forall k | 0 <= k < |sorted| ensures sorted[k] < |hs| {
      assert sorted[k] in sorted;
    }
  }

  /**
   * What `applyFilters` makes of the hotels `hs`: `view` lists positions of
   * `hs`, each at most once, exactly those the tab admits ('homes' admits
   * none) and that pass every filter switched on; ordered by price or rating
   * as `sortBy` asks, and otherwise in the hotels' own order.
   */
  ghost predicate FilteredView(hs: seq<Hotel>, tab: string, sortBy: string, f: Filters, view: seq<nat>)
    ensures FilteredView(hs, tab, sortBy, f, view) ==>
              forall k :: 0 <= k < |view| ==> view[k] < |hs| && tab != HomesTab && PassesFilters(hs[view[k]], f)
  {
    assert forall k :: 0 <= k < |view| ==> view[k] in view;
    (forall k :: 0 <= k < |view| ==> view[k] < |hs|)
    && (forall p: nat :: p in view <==> p < |hs| && tab != HomesTab && PassesFilters(hs[p], f))
    && (forall p :: multiset(view)[p] <= 1)
    && (sortBy == PriceLow ==>
          forall i, j :: 0 <= i < j < |view| ==> hs[view[i]].price <= hs[view[j]].price)
    && (sortBy == PriceHigh ==>
          forall i, j :: 0 <= i < j < |view| ==> hs[view[i]].price >= hs[view[j]].price)
    && (sortBy == ByRating ==>
          forall i, j :: 0 <= i < j < |view| ==> hs[view[i]].rating >= hs[view[j]].rating)
    && (sortBy != PriceLow && sortBy != PriceHigh && sortBy != ByRating ==> StrictlyIncreasing(view))
  }

  /** The 'homes' tab always shows nothing. */
  lemma HomesTabIsEmpty(hs: seq<Hotel>, sortBy: string, f: Filters, view: seq<nat>)
    requires FilteredView(hs, HomesTab, sortBy, f, view)
    ensures view == []
  {
    assert forall k :: 0 <= k < |view| ==> view[k] in view;
  }

  /** With no filter and the recommended order, the view is every hotel in the list's order. */
  lemma UnfilteredViewIsEverything(hs: seq<Hotel>, tab: string, view: seq<nat>)
    requires tab != HomesTab
    requires FilteredView(hs, tab, Recommended, NoFilters, view)
    ensures view == Positions(|hs|)
  {
    IncreasingCover(view, |hs|);
  }

  /** A strictly increasing sequence holding exactly the naturals below `n` is `[0, ..., n - 1]`. */
  lemma {:induction false} IncreasingCover(s: seq<nat>, n: nat)
    requires StrictlyIncreasing(s)
    requires forall p: nat :: p in s <==> p < n
    ensures s == Positions(n)
    decreases n
  {
    if n > 0 {
      LastIsLargest(s, n);
      var front := FrontCovers(s, n);
      IncreasingCover(front, n - 1);
      assert Positions(n) == Positions(n - 1) + [n - 1];
    } else {
      assert forall x :: x in multiset(s) <==> x in s;
      assert forall x :: multiset(s)[x] == 0;
      assert multiset(s) == multiset{};
    }
  }

  lemma LastIsLargest(s: seq<nat>, n: nat)
    requires StrictlyIncreasing(s)
    requires forall p: nat :: p in s <==> p < n
    requires n > 0
    ensures |s| > 0 && s[|s| - 1] == n - 1
  {
    assert n - 1 in s;
    var i :| 0 <= i < |s| && s[i] == n - 1;
    assert s[i] <= s[|s| - 1];
    assert s[|s| - 1] in s;
  }

  /** Without its last element `n - 1`, the sequence holds exactly the naturals below `n - 1`. */
  lemma FrontCovers(s: seq<nat>, n: nat) returns (front: seq<nat>)
    requires StrictlyIncreasing(s)
    requires forall p: nat :: p in s <==> p < n
    requires |s| > 0 && s[|s| - 1] == n - 1
    ensures s == front + [n - 1]
    ensures StrictlyIncreasing(front)
    ensures forall p: nat :: p in front <==> p < n - 1
  {
    var last := |s| - 1;
    front := s[..last];
    assert s == front + [n - 1];
    forall p: nat | p in front ensures p < n - 1 {
      var j :| 0 <= j < |front| && front[j] == p;
      assert s[j] < s[last];
    }
    forall p: nat | p < n - 1 ensures p in front {
      assert p in s;
      var j :| 0 <= j < |s| && s[j] == p;
      assert j != last;
      assert front[j] == p;
    }
  }

  /** The first hotel with the given id, the one `hotels.find(h => h.id === id)` returns. */
  function FindHotel(hs: seq<Hotel>, id: string): (r: Option<nat>)
    ensures r.None? <==> forall k :: 0 <= k < |hs| ==> hs[k].id != id
    ensures r.Some? ==> r.value < |hs| && hs[r.value].id == id
                        && forall k :: 0 <= k < r.value ==> hs[k].id != id
  {
    if |hs| == 0 then None
    else if hs[0].id == id then Some(0)
    else match FindHotel(hs[1..], id)
      case None => None
      case Some(i) =>
        assert forall k :: 1 <= k <= i ==> hs[k].id == hs[1..][k - 1].id;
        Some(i + 1)
  }

  /** Flips the wishlist flag of the first hotel with the given id; no such hotel, no change. */
  function WishlistToggled(hs: seq<Hotel>, id: string): (r: seq<Hotel>)
    ensures |r| == |hs|
    ensures forall k :: 0 <= k < |hs| ==> r[k].(isWishlisted := hs[k].isWishlisted) == hs[k]
    ensures forall k :: 0 <= k < |hs| ==> (r[k] != hs[k] <==> FindHotel(hs, id) == Some(k))
  {
    match FindHotel(hs, id)
    case None => hs
    case Some(i) => hs[i := hs[i].(isWishlisted := !hs[i].isWishlisted)]
  }

  /** Toggling the same id twice restores every hotel. */
  lemma WishlistToggledTwice(hs: seq<Hotel>, id: string)
    ensures WishlistToggled(WishlistToggled(hs, id), id) == hs
  {
    var once := WishlistToggled(hs, id);
    assert forall k :: 0 <= k < |hs| ==> once[k].id == hs[k].id;
    match FindHotel(hs, id)
    case None =>
    case Some(i) =>
      assert FindHotel(once, id) == Some(i);
  }

  /**
   * The body of `applyFilters` on the screen's hotels `hs`, tab, sort order
   * and filters: start from every hotel (none on the 'homes' tab), narrow by
   * each filter switched on, then sort as asked.
   */
  method FilterHotels(hs: seq<Hotel>, tab: string, sortBy: string, f: Filters) returns (view: seq<nat>)
    ensures FilteredView(hs, tab, sortBy, f, view)
  {
    var filtered := Positions(|hs|);
    if tab == HotelsTab {
      // every hotel is a hotel, not a home
    } else if tab == HomesTab {
      filtered := [];
    }
    StartStaged(filtered, hs, tab, f);

    NarrowStep(filtered, hs, tab, f, HitecCityFilter);
    if f.hitecCity {
      filtered := Filter(filtered, Keep(hs, HitecCityFilter));
    }
    NarrowStep(filtered, hs, tab, f, BreakfastFilter);
    if f.breakfast {
      filtered := Filter(filtered, Keep(hs, BreakfastFilter));
    }
    NarrowStep(filtered, hs, tab, f, FreeCancellationFilter);
    if f.freeCancellation {
      filtered := Filter(filtered, Keep(hs, FreeCancellationFilter));
    }
    NarrowStep(filtered, hs, tab, f, PoolFilter);
    if f.pool {
      filtered := Filter(filtered, Keep(hs, PoolFilter));
    }
    NarrowStep(filtered, hs, tab, f, WifiFilter);
    if f.wifi {
      filtered := Filter(filtered, Keep(hs, WifiFilter));
    }

    var unsorted := filtered;
    if sortBy == PriceLow {
      filtered := SortBy(filtered, PriceKey(hs));
    } else if sortBy == PriceHigh {
      filtered := SortBy(filtered, PriceDescKey(hs));
    } else if sortBy == ByRating {
      filtered := SortBy(filtered, RatingDescKey(hs));
    }
    SortedIsView(unsorted, filtered, hs, tab, sortBy, f);
    view := filtered;
  }

  class HotelResults {
    var searchParams: SearchParams
    var activeTab: string
    var sortBy: string
    var filters: Filters
    var hotels: seq<Hotel>
    /** `filteredHotels`, as positions into `hotels`. */
    var filteredHotels: seq<nat>

    constructor()
      ensures searchParams == InitialParams && activeTab == HotelsTab && sortBy == Recommended
      ensures filters == NoFilters && hotels == [] && filteredHotels == []
    {
      searchParams := InitialParams;
      activeTab := HotelsTab;
      sortBy := Recommended;
      filters := NoFilters;
      hotels := [];
      filteredHotels := [];
    }

    /** Every position of the view names a hotel. */
    ghost predicate Valid()
      reads this
    {
      forall k :: 0 <= k < |filteredHotels| ==> filteredHotels[k] < |hotels|
    }

    /** The query subscription of `ngOnInit`: the parameters, then the hotels. */
    method OnQueryParams(q: Query, sample: seq<Hotel>)
      modifies this`searchParams, this`hotels, this`filteredHotels
      ensures searchParams == FromQuery(q)
      ensures hotels == sample
      ensures FilteredView(hotels, activeTab, sortBy, filters, filteredHotels) && Valid()
    {
      searchParams := FromQuery(q);
      LoadHotels(sample);
    }

    /** `loadHotels`: the hotels (supplied here), then the view rebuilt. */
    method LoadHotels(sample: seq<Hotel>)
      modifies this`hotels, this`filteredHotels
      ensures hotels == sample
      ensures FilteredView(hotels, activeTab, sortBy, filters, filteredHotels) && Valid()
    {
      hotels := sample;
      ApplyFilters();
    }

    /** `setActiveTab`: records the tab and rebuilds the view. */
    method SetActiveTab(tab: string)
      modifies this`activeTab, this`filteredHotels
      ensures activeTab == tab
      ensures FilteredView(hotels, tab, sortBy, filters, filteredHotels) && Valid()
    {
      activeTab := tab;
      ApplyFilters();
    }

    /**
     * `applyFilters`: the view of the current hotels under the current tab,
     * filters and sort order. The hotels themselves are left as they are.
     */
    method ApplyFilters()
      modifies this`filteredHotels
      ensures FilteredView(hotels, activeTab, sortBy, filters, filteredHotels) && Valid()
    {
      filteredHotels := FilterHotels(hotels, activeTab, sortBy, filters);
    }

    /** `toggleWishlist`: flips the flag of the first hotel with the id, found by a search. */
    method ToggleWishlist(hotelId: string)
      modifies this`hotels
      ensures hotels == WishlistToggled(old(hotels), hotelId)
    {
      var i := 0;
      while i < |hotels| && hotels[i].id != hotelId
        invariant 0 <= i <= |hotels|
        invariant forall k :: 0 <= k < i ==> hotels[k].id != hotelId
      {
        i := i + 1;
      }
      if i < |hotels| {
        hotels := hotels[i := hotels[i].(isWishlisted := !hotels[i].isWishlisted)];
      }
    }

    /** `viewHotelDetails`: the hotel's detail screen, with every parameter but the location. */
    function ViewHotelDetails(hotel: Hotel): (r: DetailLink)
      reads this
      ensures r.hotelId == hotel.id
      ensures FromQuery(r.query).location == DefaultLocation
      ensures searchParams.adults != 0 && searchParams.rooms != 0
              ==> FromQuery(r.query) == searchParams.(location := DefaultLocation)
    {
      QueryRoundTrip(searchParams.(location := DefaultLocation));
      DetailLink(hotel.id, DetailQuery(searchParams))
    }

    /** `searchHotels`: the results again with every parameter, read back unchanged. */
    function SearchHotels(): (q: Query)
      reads this
      ensures searchParams.location != "" && searchParams.adults != 0 && searchParams.rooms != 0
              ==> FromQuery(q) == searchParams
    {
      QueryRoundTrip(searchParams);
      ToQuery(searchParams)
    }

    /** `getTravellersText`. */
    function GetTravellersText(): (r: string)
      reads this
      ensures ParseInt(Before(r, ' ')) == searchParams.adults + searchParams.children
    {
      TravellersText(searchParams.adults + searchParams.children, searchParams.rooms)
    }

    method IncreaseAdults()
      modifies this`searchParams
      ensures searchParams == MoreAdults(old(searchParams))
    {
      searchParams := searchParams.(adults := searchParams.adults + 1);
    }

    method DecreaseAdults()
      modifies this`searchParams
      ensures searchParams == FewerAdults(old(searchParams))
    {
      if searchParams.adults > 1 {
        searchParams := searchParams.(adults := searchParams.adults - 1);
      }
    }

    method IncreaseChildren()
      modifies this`searchParams
      ensures searchParams == MoreChildren(old(searchParams))
    {
      searchParams := searchParams.(children := searchParams.children + 1);
    }

    method DecreaseChildren()
      modifies this`searchParams
      ensures searchParams == FewerChildren(old(searchParams))
    {
      if searchParams.children > 0 {
        searchParams := searchParams.(children := searchParams.children - 1);
      }
    }
  }
}
