/**
 * The hotel search form: default dates of today and two days later, the
 * traveller counters, and the checks a search must pass, in their order,
 * before it navigates to the results.
 */
module HotelSearchForm {
  import opened Wrappers
  import opened Dates
  import opened Text
  import opened HotelSearch

  const FormDefaultLocation: string := "Hyderabad (and vicinity), Telangana, India"

  const MissingFieldsMessage: string := "Please fill in all required fields (Location, Check-in, and Check-out dates)"
  const PastCheckInMessage: string := "Check-in date cannot be in the past"
  const CheckOutOrderMessage: string := "Check-out date must be after check-in date"

  /** What a search does: an alert with a message, or a navigation to the results with a query. */
  datatype SearchOutcome = Rejected(message: string) | Navigate(query: Query)

  /** Location, check-in and check-out are all filled in. */
  predicate Complete(p: SearchParams) {
    p.location != "" && p.checkIn != "" && p.checkOut != ""
  }

  /** `a <= b` on two `Date` objects, false whenever either time is NaN. */
  predicate NotAfter(a: DateValue, b: DateValue) {
    a.At? && b.At? && a.ms <= b.ms
  }

  /**
   * `searchHotels` on the form's parameters, with `todayStart` the instant of
   * today's local midnight and `parse` what `new Date` makes of a date text.
   * The checks run in order: missing fields, a check-in before today, a
   * check-out not after check-in; a date `new Date` cannot read fails no
   * comparison.
   */
  function SearchCheck(p: SearchParams, todayStart: int, parse: string -> Option<int>): (r: SearchOutcome)
    ensures !Complete(p) ==> r == Rejected(MissingFieldsMessage)
    ensures Complete(p) && Earlier(DateField(p.checkIn, parse), At(todayStart))
            ==> r == Rejected(PastCheckInMessage)
    ensures r == Rejected(CheckOutOrderMessage) <==>
              Complete(p) && !Earlier(DateField(p.checkIn, parse), At(todayStart))
              && NotAfter(DateField(p.checkOut, parse), DateField(p.checkIn, parse))
    ensures r.Navigate? ==> r.query == ToQuery(p)
  {
    if !Complete(p) then Rejected(MissingFieldsMessage)
    else
      var checkIn := DateField(p.checkIn, parse);
      var checkOut := DateField(p.checkOut, parse);
      if Earlier(checkIn, At(todayStart)) then Rejected(PastCheckInMessage)
      else if NotAfter(checkOut, checkIn) then Rejected(CheckOutOrderMessage)
      else Navigate(ToQuery(p))
  }

  /**
   * A search that navigates has every field filled in, and when its dates
   * can be read, a check-in no earlier than today and a check-out after it.
   */
  lemma NavigationMeansValidStay(p: SearchParams, todayStart: int, parse: string -> Option<int>)
    requires SearchCheck(p, todayStart, parse).Navigate?
    ensures Complete(p)
    ensures parse(p.checkIn).Some? ==> todayStart <= parse(p.checkIn).value
    ensures parse(p.checkIn).Some? && parse(p.checkOut).Some?
            ==> parse(p.checkIn).value < parse(p.checkOut).value
  {
  }

  /** A search with readable dates from today on, check-out after check-in, always navigates. */
  lemma ValidStayNavigates(p: SearchParams, todayStart: int, parse: string -> Option<int>)
    requires Complete(p)
    requires parse(p.checkIn).Some? && parse(p.checkOut).Some?
    requires todayStart <= parse(p.checkIn).value < parse(p.checkOut).value
    ensures SearchCheck(p, todayStart, parse) == Navigate(ToQuery(p))
  {
  }

  /** The results screen reads the navigated search back unchanged, counts included. */
  lemma ResultsSeeTheSearch(p: SearchParams, todayStart: int, parse: string -> Option<int>)
    requires SearchCheck(p, todayStart, parse).Navigate?
    requires p.adults != 0 && p.rooms != 0
    ensures FromQuery(SearchCheck(p, todayStart, parse).query) == p
  {
    QueryRoundTrip(p);
  }

  class Hotels {
    var searchData: SearchParams
    var addFlight: bool

    /**
     * The constructor: check-in is today's date and check-out the date two
     * days later, each written by `isoDate` (`toISOString().split('T')[0]`)
     * from an instant in milliseconds.
     */
    constructor(now: int, isoDate: int -> string)
      ensures searchData == SearchParams(FormDefaultLocation, isoDate(now), isoDate(now + 2 * DayMs), 2, 0, 1)
      ensures !addFlight
    {
      searchData := SearchParams(FormDefaultLocation, "", "", 2, 0, 1);
      addFlight := false;
      new;
      var checkOut := now + 2 * DayMs;
      searchData := searchData.(checkIn := isoDate(now), checkOut := isoDate(checkOut));
    }

    /** `searchHotels` on the form's current parameters. */
    function SearchHotels(todayStart: int, parse: string -> Option<int>): (r: SearchOutcome)
      reads this
      ensures Complete(searchData) && searchData.adults != 0 && searchData.rooms != 0 && r.Navigate?
              ==> FromQuery(r.query) == searchData
      ensures !Complete(searchData) ==> r == Rejected(MissingFieldsMessage)
    {
      QueryRoundTrip(searchData);
      SearchCheck(searchData, todayStart, parse)
    }

    /** `getTravellersText`, which says 'room' only for exactly one room. */
    function GetTravellersText(): (r: string)
      reads this
      ensures ParseInt(Before(r, ' ')) == searchData.adults + searchData.children
    {
      SearchTravellersText(searchData.adults + searchData.children, searchData.rooms)
    }

    method IncreaseAdults()
      modifies this`searchData
      ensures searchData == MoreAdults(old(searchData))
    {
      searchData := searchData.(adults := searchData.adults + 1);
    }

    method DecreaseAdults()
      modifies this`searchData
      ensures searchData == FewerAdults(old(searchData))
    {
      if searchData.adults > 1 {
        searchData := searchData.(adults := searchData.adults - 1);
      }
    }

    method IncreaseChildren()
      modifies this`searchData
      ensures searchData == MoreChildren(old(searchData))
    {
      searchData := searchData.(children := searchData.children + 1);
    }

    method DecreaseChildren()
      modifies this`searchData
      ensures searchData == FewerChildren(old(searchData))
    {
      if searchData.children > 0 {
        searchData := searchData.(children := searchData.children - 1);
      }
    }
  }
}
