/**
 * The checkout screen: the years offered for a card's expiry, the stay read
 * from the query, the price breakdown (room price for every night, taxes as
 * the rest of the total) and the reward points earned.
 */
module CheckoutPage {
  import opened Wrappers
  import opened JsMath
  import opened Dates
  import opened HotelSearch

  /** The checkout screen's stay: the search parameters without the location. */
  datatype Stay = Stay(checkIn: string, checkOut: string, adults: int, children: int, rooms: int)

  datatype Booking = Booking(price: int, taxes: int, totalPrice: int)

  /** The query the room screen sends to checkout; every value text or absent. */
  datatype CheckoutQuery = CheckoutQuery(
    hotelId: Option<string>, roomId: Option<string>,
    checkIn: Option<string>, checkOut: Option<string>,
    adults: Option<string>, children: Option<string>, rooms: Option<string>,
    paymentType: Option<string>, price: Option<string>, totalPrice: Option<string>)

  /** Room price per night and total used when the query carries none (or 0). */
  const DefaultPrice: int := 17850
  const DefaultTotalPrice: int := 42126

  /** Number of expiry years offered. */
  const YearsShown: int := 10

  /** The stay of `ngOnInit`, with the same defaults as the other screens. */
  function StayOf(q: CheckoutQuery): (s: Stay)
    ensures s.adults != 0 && s.rooms != 0
    ensures q.checkIn == None ==> s.checkIn == ""
    ensures q.adults == None ==> s.adults == DefaultAdults
  {
    Stay(TextOr(q.checkIn, ""), TextOr(q.checkOut, ""),
         NumberOr(q.adults, DefaultAdults), NumberOr(q.children, DefaultChildren),
         NumberOr(q.rooms, DefaultRooms))
  }

  /**
   * `calculateNights`: 1 when either date is missing or unreadable, else the
   * least number of whole days covering the time between the two dates,
   * and 1 again when they coincide.
   */
  function Nights(checkIn: DateValue, checkOut: DateValue): (r: int)
    ensures r >= 1
    ensures !(checkIn.At? && checkOut.At?) ==> r == 1
    ensures checkIn.At? && checkOut.At? ==>
              var gap := Abs(checkOut.ms - checkIn.ms);
              (gap == 0 ==> r == 1) && (gap > 0 ==> DayMs * (r - 1) < gap <= DayMs * r)
  {
    match (checkIn, checkOut)
    case (At(s), At(e)) =>
      var days := CeilDiv(Abs(e - s), DayMs);
      if days != 0 then days else 1
    case _ => 1
  }

  /** The count of nights does not depend on which date comes first. */
  lemma NightsSymmetric(a: DateValue, b: DateValue)
    ensures Nights(a, b) == Nights(b, a)
  {
    if a.At? && b.At? {
      assert Abs(b.ms - a.ms) == Abs(a.ms - b.ms);
    }
  }

  /** A stay of two calendar days' worth of milliseconds is two nights; one more millisecond makes three. */
  lemma NightsExample(s: int)
    ensures Nights(At(s), At(s + 2 * DayMs)) == 2
    ensures Nights(At(s), At(s + 2 * DayMs + 1)) == 3
  {
  }

  /**
   * `calculateRewards`: `Math.round` of 1% of the total, that is the
   * integer nearest to total / 100, halves rounded up.
   */
  function Rewards(totalPrice: int): (r: int)
    ensures 100 * r - 50 <= totalPrice < 100 * r + 50
  {
    RoundDiv(totalPrice, 100)
  }

  /** The default total earns 421 points. */
  lemma RewardsOfDefaultTotal()
    ensures Rewards(DefaultTotalPrice) == 421
  {
  }

  /** The price breakdown: the unit price for every night, and the taxes the rest of the total. */
  function BookingFor(unitPrice: int, totalPrice: int, nights: int): (b: Booking)
    ensures b.price + b.taxes == b.totalPrice
    ensures b.price == unitPrice * nights && b.totalPrice == totalPrice
  {
    Booking(unitPrice * nights, totalPrice - unitPrice * nights, totalPrice)
  }

  class Checkout {
    var years: seq<int>
    var searchParams: Stay
    var bookingData: Booking
    /** Ids of the hotel and room on display, `None` before the query is read. */
    var hotelId: Option<string>
    var roomId: Option<string>

    /** The constructor: ten consecutive expiry years from the current one. */
    constructor(currentYear: int)
      ensures |years| == YearsShown
      ensures forall i :: 0 <= i < |years| ==> years[i] == currentYear + i
      ensures searchParams == Stay("", "", 2, 0, 1)
      ensures bookingData == Booking(0, 0, 0)
      ensures hotelId == None && roomId == None
    {
      searchParams := Stay("", "", 2, 0, 1);
      bookingData := Booking(0, 0, 0);
      hotelId := None;
      roomId := None;
      var ys: seq<int> := [];
      for i := 0 to YearsShown
        invariant |ys| == i
        invariant forall k :: 0 <= k < i ==> ys[k] == currentYear + k
      {
        ys := ys + [currentYear + i];
      }
      years := ys;
    }

    /** `calculateNights` on the stay's dates, read with `parse`. */
    function CalculateNights(parse: string -> Option<int>): (r: int)
      reads this
      ensures r >= 1
      ensures searchParams.checkIn == "" || searchParams.checkOut == "" ==> r == 1
    {
      Nights(DateField(searchParams.checkIn, parse), DateField(searchParams.checkOut, parse))
    }

    /** `calculateRewards` on the booking's total. */
    function CalculateRewards(): (r: int)
      reads this
      ensures 100 * r - 50 <= bookingData.totalPrice < 100 * r + 50
    {
      Rewards(bookingData.totalPrice)
    }

    /**
     * The query subscription of `ngOnInit`: read the stay, then price the
     * booking with the query's prices (or the defaults) over the nights of
     * the stay, and show the hotel and room the query names (or '1').
     */
    method OnQueryParams(q: CheckoutQuery, parse: string -> Option<int>)
      modifies this`searchParams, this`bookingData, this`hotelId, this`roomId
      ensures searchParams == StayOf(q)
      ensures bookingData == BookingFor(NumberOr(q.price, DefaultPrice),
                                        NumberOr(q.totalPrice, DefaultTotalPrice),
                                        CalculateNights(parse))
      ensures bookingData.price + bookingData.taxes == bookingData.totalPrice
      ensures bookingData.totalPrice != 0
      ensures hotelId == Some(TextOr(q.hotelId, "1")) && roomId == Some(TextOr(q.roomId, "1"))
    {
      searchParams := StayOf(q);
      var price := NumberOr(q.price, DefaultPrice);
      var totalPrice := NumberOr(q.totalPrice, DefaultTotalPrice);
      var nights := CalculateNights(parse);
      bookingData := Booking(price * nights, totalPrice - price * nights, totalPrice);
      hotelId := Some(TextOr(q.hotelId, "1"));
      roomId := Some(TextOr(q.roomId, "1"));
    }
  }
}
