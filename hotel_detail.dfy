/**
 * The hotel detail screen: the hotel on display with its wishlist flag, the
 * tab shown, the link to the room selection, and the search parameters with
 * their traveller counters.
 */
module HotelDetailPage {
  import opened Wrappers
  import opened Text
  import opened HotelSearch

  /** The hotel on display; its descriptive fields are fixed sample text and not modelled. */
  datatype DetailHotel = DetailHotel(id: string, isWishlisted: bool)

  /** A navigation to the room selection of a hotel. */
  datatype RoomsLink = RoomsLink(hotelId: string, query: Query)

  const OverviewTab: string := "overview"

  /** The hotel after `toggleWishlist`: its flag flipped, or still no hotel. */
  function WishlistFlipped(h: Option<DetailHotel>): (r: Option<DetailHotel>)
    ensures r.None? <==> h.None?
    ensures r.Some? ==> r.value.id == h.value.id && r.value.isWishlisted == !h.value.isWishlisted
  {
    match h
    case None => None
    case Some(x) => Some(x.(isWishlisted := !x.isWishlisted))
  }

  /** Toggling twice restores the hotel. */
  lemma WishlistTwice(h: Option<DetailHotel>)
    ensures WishlistFlipped(WishlistFlipped(h)) == h
  {
  }

  class HotelDetail {
    var hotel: Option<DetailHotel>
    var activeTab: string
    var searchParams: SearchParams

    constructor()
      ensures hotel == None && activeTab == OverviewTab && searchParams == InitialParams
    {
      hotel := None;
      activeTab := OverviewTab;
      searchParams := InitialParams;
    }

    /** `ngOnInit`: the query's parameters and the route's hotel, or hotel '1'. */
    method OnInit(routeId: Option<string>, q: Query)
      modifies this`searchParams, this`hotel
      ensures searchParams == FromQuery(q)
      ensures hotel == Some(DetailHotel(TextOr(routeId, "1"), false))
    {
      searchParams := FromQuery(q);
      LoadHotel(TextOr(routeId, "1"));
    }

    /** `loadHotel`: a hotel with the given id, not on the wishlist. */
    method LoadHotel(hotelId: string)
      modifies this`hotel
      ensures hotel == Some(DetailHotel(hotelId, false))
    {
      hotel := Some(DetailHotel(hotelId, false));
    }

    /** `setActiveTab`: only the tab changes. */
    method SetActiveTab(tab: string)
      modifies this`activeTab
      ensures activeTab == tab
    {
      activeTab := tab;
    }

    /** `goToRooms`: a navigation with the current parameters, only when a hotel is shown. */
    function GoToRooms(): (r: Option<RoomsLink>)
      reads this
      ensures r.Some? <==> hotel.Some?
      ensures r.Some? ==> r.value.hotelId == hotel.value.id
      ensures r.Some? && searchParams.location != "" && searchParams.adults != 0 && searchParams.rooms != 0
              ==> FromQuery(r.value.query) == searchParams
    {
      QueryRoundTrip(searchParams);
      match hotel
      case Some(h) => Some(RoomsLink(h.id, ToQuery(searchParams)))
      case None => None
    }

    /** `toggleWishlist`: flips the shown hotel's flag; nothing happens without a hotel. */
    method ToggleWishlist()
      modifies this`hotel
      ensures hotel == WishlistFlipped(old(hotel))
    {
      if hotel.Some? {
        hotel := Some(hotel.value.(isWishlisted := !hotel.value.isWishlisted));
      }
    }

    /** `goBack` and `searchHotels`: back to the results, which read the parameters back unchanged. */
    function SearchHotels(): (q: Query)
      reads this
      ensures searchParams.location != "" && searchParams.adults != 0 && searchParams.rooms != 0
              ==> FromQuery(q) == searchParams
    {
      QueryRoundTrip(searchParams);
      ToQuery(searchParams)
    }

    /** `getTravellersText`. */
    function GetTravellersText(): (r: string)
      reads this
      ensures ParseInt(Before(r, ' ')) == searchParams.adults + searchParams.children
    {
      TravellersText(searchParams.adults + searchParams.children, searchParams.rooms)
    }

    method IncreaseAdults()
      modifies this`searchParams
      ensures searchParams == MoreAdults(old(searchParams))
    {
      searchParams := searchParams.(adults := searchParams.adults + 1);
    }

    method DecreaseAdults()
      modifies this`searchParams
      ensures searchParams == FewerAdults(old(searchParams))
    {
      if searchParams.adults > 1 {
        searchParams := searchParams.(adults := searchParams.adults - 1);
      }
    }

    method IncreaseChildren()
      modifies this`searchParams
      ensures searchParams == MoreChildren(old(searchParams))
    {
      searchParams := searchParams.(children := searchParams.children + 1);
    }

    method DecreaseChildren()
      modifies this`searchParams
      ensures searchParams == FewerChildren(old(searchParams))
    {
      if searchParams.children > 0 {
        searchParams := searchParams.(children := searchParams.children - 1);
      }
    }
  }
}
