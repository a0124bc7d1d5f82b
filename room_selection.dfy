/**
 * The room selection screen: the hotel's rooms filtered by bed type, the
 * payment dialog for a chosen room, the link to checkout carrying that
 * room's prices, and the search parameters with their traveller counters.
 */
module RoomSelectionPage {
  import opened Wrappers
  import opened Text
  import opened Seqs
  import opened HotelSearch
  import opened CheckoutPage

  /** A room as the screen uses it; the display-only fields are not modelled. */
  datatype Room = Room(id: string, price: int, totalPrice: int, bedType: Option<string>)

  /** The hotel the rooms belong to, identified by the route's id. */
  datatype RoomsHotel = RoomsHotel(id: string)

  const AllRooms: string := "all"
  const OneBed: string := "1bed"
  const TwoBeds: string := "2beds"

  /** `r.bedType?.includes(digit)`: false for a room without a bed type. */
  predicate BedMentions(r: Room, digit: string) {
    r.bedType.Some? && Contains(r.bedType.value, digit)
  }

  /**
   * `rooms.filter(r => r.bedType?.includes(digit))`: the rooms whose bed
   * type mentions `digit`, each as often as in `rooms` and in their order.
   */
  function RoomsWithBed(rooms: seq<Room>, digit: string): (r: seq<Room>)
    ensures IsSubsequence(r, rooms)
    ensures forall x :: x in r <==> x in rooms && BedMentions(x, digit)
    ensures forall x :: multiset(r)[x] == if BedMentions(x, digit) then multiset(rooms)[x] else 0
  {
    FilterMembership(rooms, x => BedMentions(x, digit));
    Filter(rooms, x => BedMentions(x, digit))
  }

  /** A room without a bed type passes no bed filter. */
  lemma NoBedTypeIsFilteredOut(rooms: seq<Room>, x: Room, digit: string)
    requires x.bedType == None
    ensures x !in RoomsWithBed(rooms, digit)
  {
  }

  /**
   * The query `proceedToCheckout` navigates with: the hotel, the room, the
   * stay and the payment type as they are, the counts and prices written so
   * that `+p` reads each back as itself.
   */
  function CheckoutQueryFor(hotel: RoomsHotel, room: Room, p: SearchParams, paymentType: string): (q: CheckoutQuery)
    ensures q.hotelId == Some(hotel.id) && q.roomId == Some(room.id) && q.paymentType == Some(paymentType)
    ensures q.checkIn == Some(p.checkIn) && q.checkOut == Some(p.checkOut)
    ensures NumberParam(q.adults) == Some(p.adults) && NumberParam(q.children) == Some(p.children)
    ensures NumberParam(q.rooms) == Some(p.rooms)
    ensures NumberParam(q.price) == Some(room.price) && NumberParam(q.totalPrice) == Some(room.totalPrice)
  {
    NumberOfIntText(p.adults);
    NumberOfIntText(p.children);
    NumberOfIntText(p.rooms);
    NumberOfIntText(room.price);
    NumberOfIntText(room.totalPrice);
    CheckoutQuery(
      Some(hotel.id), Some(room.id), Some(p.checkIn), Some(p.checkOut),
      Some(IntToString(p.adults)), Some(IntToString(p.children)), Some(IntToString(p.rooms)),
      Some(paymentType), Some(IntToString(room.price)), Some(IntToString(room.totalPrice)))
  }

  /**
   * Checkout reads back what the room screen sends: the stay, and the chosen
   * room's prices unless one of them is 0, and then the defaults stand in.
   */
  lemma CheckoutReadsSelection(hotel: RoomsHotel, room: Room, p: SearchParams, paymentType: string)
    ensures var q := CheckoutQueryFor(hotel, room, p, paymentType);
            (p.adults != 0 && p.rooms != 0
             ==> StayOf(q) == Stay(p.checkIn, p.checkOut, p.adults, p.children, p.rooms))
            && NumberOr(q.price, DefaultPrice) == (if room.price != 0 then room.price else DefaultPrice)
            && NumberOr(q.totalPrice, DefaultTotalPrice)
               == (if room.totalPrice != 0 then room.totalPrice else DefaultTotalPrice)
            && TextOr(q.hotelId, "1") == (if hotel.id != "" then hotel.id else "1")
  {
    NumberOfIntText(p.adults);
    NumberOfIntText(p.children);
    NumberOfIntText(p.rooms);
    NumberOfIntText(room.price);
    NumberOfIntText(room.totalPrice);
  }

  class RoomSelection {
    var hotel: Option<RoomsHotel>
    var rooms: seq<Room>
    var filteredRooms: seq<Room>
    var roomFilter: string
    var searchParams: SearchParams
    var showPaymentModal: bool
    var selectedRoom: Option<Room>

    constructor()
      ensures hotel == None && rooms == [] && filteredRooms == [] && roomFilter == AllRooms
      ensures searchParams == InitialParams && !showPaymentModal && selectedRoom == None
    {
      hotel := None;
      rooms := [];
      filteredRooms := [];
      roomFilter := AllRooms;
      searchParams := InitialParams;
      showPaymentModal := false;
      selectedRoom := None;
    }

    /** `ngOnInit`: the query's parameters, the route's hotel (or hotel '1'), then the rooms. */
    method OnInit(routeId: Option<string>, q: Query, sample: seq<Room>)
      modifies this`searchParams, this`hotel, this`rooms, this`filteredRooms
      ensures searchParams == FromQuery(q)
      ensures hotel == Some(RoomsHotel(TextOr(routeId, "1")))
      ensures rooms == sample
      ensures roomFilter == AllRooms ==> filteredRooms == sample
    {
      searchParams := FromQuery(q);
      LoadHotel(TextOr(routeId, "1"));
      LoadRooms(sample);
    }

    /** `loadHotel`. */
    method LoadHotel(hotelId: string)
      modifies this`hotel
      ensures hotel == Some(RoomsHotel(hotelId))
    {
      hotel := Some(RoomsHotel(hotelId));
    }

    /** `loadRooms`: the rooms (supplied here), then the filter re-applied. */
    method LoadRooms(sample: seq<Room>)
      modifies this`rooms, this`filteredRooms
      ensures rooms == sample
      ensures roomFilter == AllRooms ==> filteredRooms == sample
      ensures roomFilter == OneBed ==> filteredRooms == RoomsWithBed(sample, "1")
      ensures roomFilter == TwoBeds ==> filteredRooms == RoomsWithBed(sample, "2")
    {
      rooms := sample;
      ApplyFilter();
    }

    /** `setRoomFilter`: records the filter and re-applies it. */
    method SetRoomFilter(filter: string)
      modifies this`roomFilter, this`filteredRooms
      ensures roomFilter == filter
      ensures filter == AllRooms ==> filteredRooms == rooms
      ensures filter == OneBed ==> filteredRooms == RoomsWithBed(rooms, "1")
      ensures filter == TwoBeds ==> filteredRooms == RoomsWithBed(rooms, "2")
      ensures filter != AllRooms && filter != OneBed && filter != TwoBeds
              ==> filteredRooms == old(filteredRooms)
    {
      roomFilter := filter;
      ApplyFilter();
    }

    /**
     * `applyFilter`: a copy of every room for 'all', the rooms whose bed type
     * mentions 1 or 2 for '1bed' and '2beds', and no change for any other
     * filter value.
     */
    method ApplyFilter()
      modifies this`filteredRooms
      ensures roomFilter == AllRooms ==> filteredRooms == rooms
      ensures roomFilter == OneBed ==> filteredRooms == RoomsWithBed(rooms, "1")
      ensures roomFilter == TwoBeds ==> filteredRooms == RoomsWithBed(rooms, "2")
      ensures roomFilter != AllRooms && roomFilter != OneBed && roomFilter != TwoBeds
              ==> filteredRooms == old(filteredRooms)
    {
      if roomFilter == AllRooms {
        filteredRooms := rooms;
      } else if roomFilter == OneBed {
        filteredRooms := RoomsWithBed(rooms, "1");
      } else if roomFilter == TwoBeds {
        filteredRooms := RoomsWithBed(rooms, "2");
      }
    }

    /** `openPaymentModal`. */
    method OpenPaymentModal(room: Room)
      modifies this`selectedRoom, this`showPaymentModal
      ensures selectedRoom == Some(room) && showPaymentModal
    {
      selectedRoom := Some(room);
      showPaymentModal := true;
    }

    /** `closePaymentModal`: the dialog closes at once; the selection stays until the timer fires. */
    method ClosePaymentModal()
      modifies this`showPaymentModal
      ensures !showPaymentModal
    {
      showPaymentModal := false;
    }

    /** The 300 ms timer `closePaymentModal` starts: it drops the selection. */
    method OnCloseTimer()
      modifies this`selectedRoom
      ensures selectedRoom == None
    {
      selectedRoom := None;
    }

    /** `proceedToCheckout`: a navigation only when both a room and the hotel are known. */
    function ProceedToCheckout(paymentType: string): (r: Option<CheckoutQuery>)
      reads this
      ensures r.Some? <==> selectedRoom.Some? && hotel.Some?
      ensures r.Some? ==> r.value == CheckoutQueryFor(hotel.value, selectedRoom.value, searchParams, paymentType)
    {
      if selectedRoom.Some? && hotel.Some? then
        Some(CheckoutQueryFor(hotel.value, selectedRoom.value, searchParams, paymentType))
      else None
    }

    /** `getTravellersText`. */
    function GetTravellersText(): (r: string)
      reads this
      ensures ParseInt(Before(r, ' ')) == searchParams.adults + searchParams.children
    {
      TravellersText(searchParams.adults + searchParams.children, searchParams.rooms)
    }

    /** `searchHotels`: back to the results with every parameter, which the results screen reads back unchanged. */
    function SearchHotels(): (q: Query)
      reads this
      ensures searchParams.location != "" && searchParams.adults != 0 && searchParams.rooms != 0
              ==> FromQuery(q) == searchParams
    {
      QueryRoundTrip(searchParams);
      ToQuery(searchParams)
    }

    method IncreaseAdults()
      modifies this`searchParams
      ensures searchParams == MoreAdults(old(searchParams))
    {
      searchParams := searchParams.(adults := searchParams.adults + 1);
    }

    method DecreaseAdults()
      modifies this`searchParams
      ensures searchParams == FewerAdults(old(searchParams))
    {
      if searchParams.adults > 1 {
        searchParams := searchParams.(adults := searchParams.adults - 1);
      }
    }

    method IncreaseChildren()
      modifies this`searchParams
      ensures searchParams == MoreChildren(old(searchParams))
    {
      searchParams := searchParams.(children := searchParams.children + 1);
    }

    method DecreaseChildren()
      modifies this`searchParams
      ensures searchParams == FewerChildren(old(searchParams))
    {
      if searchParams.children > 0 {
        searchParams := searchParams.(children := searchParams.children - 1);
      }
    }
  }
}
