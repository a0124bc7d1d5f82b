/**
 * What the hotel screens share: the search parameters (where, when, how many
 * travellers and rooms), how a screen reads them from the route's query
 * parameters and writes them back when it navigates, the traveller counters
 * with their floors, and the "N travellers, R rooms" summary text.
 */
module HotelSearch {
  import opened Wrappers
  import opened Text

  /** The `SearchParams` record of the results, detail and room screens. */
  datatype SearchParams = SearchParams(
    location: string, checkIn: string, checkOut: string,
    adults: int, children: int, rooms: int)

  /**
   * Query parameters as the router hands them over: each is text, or absent
   * (`undefined`). Numbers written into a navigation arrive back as their
   * decimal text.
   */
  datatype Query = Query(
    location: Option<string>, checkIn: Option<string>, checkOut: Option<string>,
    adults: Option<string>, children: Option<string>, rooms: Option<string>)

  /** Location a screen falls back to when the query names none. */
  const DefaultLocation: string := "Hyderabad"
  const DefaultAdults: int := 2
  const DefaultChildren: int := 0
  const DefaultRooms: int := 1

  /** The field initialiser of the screens, before any query arrives. */
  const InitialParams: SearchParams := SearchParams("", "", "", 2, 0, 1)

  /** `+p`: the number a query value denotes; `None` stands for NaN. */
  function NumberParam(p: Option<string>): (r: Option<int>)
    ensures p == None ==> r == None
    ensures p == Some("") ==> r == Some(0)
    ensures p.Some? && IsIntText(p.value) ==> r == Some(ParseInt(p.value))
  {
    match p
    case None => None
    case Some(s) =>
      if s == "" then Some(0)
      else if IsIntText(s) then Some(ParseInt(s))
      else None
  }

  /** `+p || default`: NaN and 0 are false in JavaScript and give the default. */
  function NumberOr(p: Option<string>, default: int): (r: int)
    ensures r == default || NumberParam(p) == Some(r)
    ensures r == default <== NumberParam(p) == None || NumberParam(p) == Some(0)
    ensures default != 0 ==> r != 0
  {
    match NumberParam(p)
    case Some(n) => if n != 0 then n else default
    case None => default
  }

  /** `p || default`: an absent or empty text gives the default. */
  function TextOr(p: Option<string>, default: string): (r: string)
    ensures r == default || (p == Some(r) && r != "")
    ensures default != "" ==> r != ""
  {
    match p
    case Some(s) => if s != "" then s else default
    case None => default
  }

  /** The parameters a screen builds from its query (`ngOnInit` of the results, detail and room screens). */
  function FromQuery(q: Query): (r: SearchParams)
    ensures r.location != "" && r.adults != 0 && r.rooms != 0
    ensures q.location == None ==> r.location == DefaultLocation
    ensures q.adults == None ==> r.adults == DefaultAdults
    ensures q.children == None ==> r.children == DefaultChildren
    ensures q.rooms == None ==> r.rooms == DefaultRooms
  {
    SearchParams(
      TextOr(q.location, DefaultLocation),
      TextOr(q.checkIn, ""),
      TextOr(q.checkOut, ""),
      NumberOr(q.adults, DefaultAdults),
      NumberOr(q.children, DefaultChildren),
      NumberOr(q.rooms, DefaultRooms))
  }

  /**
   * The query a navigation carrying all six parameters produces: the texts as
   * they are, the counts written so that `+p` reads each back as itself.
   */
  function ToQuery(p: SearchParams): (q: Query)
    ensures q.location == Some(p.location) && q.checkIn == Some(p.checkIn) && q.checkOut == Some(p.checkOut)
    ensures NumberParam(q.adults) == Some(p.adults)
    ensures NumberParam(q.children) == Some(p.children)
    ensures NumberParam(q.rooms) == Some(p.rooms)
  {
    NumberOfIntText(p.adults);
    NumberOfIntText(p.children);
    NumberOfIntText(p.rooms);
    Query(Some(p.location), Some(p.checkIn), Some(p.checkOut),
          Some(IntToString(p.adults)), Some(IntToString(p.children)), Some(IntToString(p.rooms)))
  }

  /** The query of `viewHotelDetails`: every parameter but the location, the counts reading back. */
  function DetailQuery(p: SearchParams): (q: Query)
    ensures q.location == None && q.checkIn == Some(p.checkIn) && q.checkOut == Some(p.checkOut)
    ensures NumberParam(q.adults) == Some(p.adults)
    ensures NumberParam(q.children) == Some(p.children)
    ensures NumberParam(q.rooms) == Some(p.rooms)
  {
    ToQuery(p).(location := None)
  }

  /** A written count is read back as the same number. */
  lemma NumberOfIntText(n: int)
    ensures NumberParam(Some(IntToString(n))) == Some(n)
  {
    ParseIntOfIntToString(n);
  }

  /**
   * Writing the parameters into a query and reading them back gives them
   * unchanged exactly when none of them is replaced by a default: the
   * location is non-empty and neither adults nor rooms is 0.
   */
  lemma QueryRoundTrip(p: SearchParams)
    ensures FromQuery(ToQuery(p)) == p <==> p.location != "" && p.adults != 0 && p.rooms != 0
  {
    NumberOfIntText(p.adults);
    NumberOfIntText(p.children);
    NumberOfIntText(p.rooms);
  }

  /** The detail screen always shows the default location: the link to it drops the location. */
  lemma DetailDropsLocation(p: SearchParams)
    ensures FromQuery(DetailQuery(p)) == FromQuery(ToQuery(p)).(location := DefaultLocation)
  {
  }

  // ---- traveller counters -------------------------------------------------

  /** The ranges the counters keep: at least one adult, no negative children. */
  predicate TravellersInRange(p: SearchParams) {
    p.adults >= 1 && p.children >= 0
  }

  /** `increaseAdults`. */
  function MoreAdults(p: SearchParams): (r: SearchParams)
    ensures r.adults == p.adults + 1 && r.(adults := p.adults) == p
  {
    p.(adults := p.adults + 1)
  }

  /** `decreaseAdults`: one fewer adult, but never fewer than one. */
  function FewerAdults(p: SearchParams): (r: SearchParams)
    ensures r.(adults := p.adults) == p
    ensures r.adults >= 1 <==> p.adults >= 1
    ensures r.adults == p.adults - 1 || r == p
    ensures r != p <==> p.adults > 1
  {
    if p.adults > 1 then p.(adults := p.adults - 1) else p
  }

  /** `increaseChildren`. */
  function MoreChildren(p: SearchParams): (r: SearchParams)
    ensures r.children == p.children + 1 && r.(children := p.children) == p
  {
    p.(children := p.children + 1)
  }

  /** `decreaseChildren`: one child fewer, but never below none. */
  function FewerChildren(p: SearchParams): (r: SearchParams)
    ensures r.(children := p.children) == p
    ensures r.children >= 0 <==> p.children >= 0
    ensures r.children == p.children - 1 || r == p
    ensures r != p <==> p.children > 0
  {
    if p.children > 0 then p.(children := p.children - 1) else p
  }

  /** Every counter keeps the ranges. */
  lemma CountersKeepRange(p: SearchParams)
    requires TravellersInRange(p)
    ensures TravellersInRange(MoreAdults(p)) && TravellersInRange(FewerAdults(p))
    ensures TravellersInRange(MoreChildren(p)) && TravellersInRange(FewerChildren(p))
  {
  }

  /** A decrease undoes an increase while the ranges hold. */
  lemma DecreaseUndoesIncrease(p: SearchParams)
    requires TravellersInRange(p)
    ensures FewerAdults(MoreAdults(p)) == p
    ensures FewerChildren(MoreChildren(p)) == p
  {
  }

  // ---- traveller summary ---------------------------------------------------

  /** `${n} ${noun}` with an 's' appended when `plural`. */
  function Counted(n: int, noun: string, plural: bool): string {
    IntToString(n) + " " + noun + (if plural then "s" else "")
  }

  /**
   * `getTravellersText` of the results, detail and room screens, for
   * `travellers` the adults plus the children.
   */
  function TravellersText(travellers: int, rooms: int): (r: string)
    ensures ParseInt(Before(r, ' ')) == travellers
  {
    ReadCountedNumber(travellers, "traveller", travellers > 1, ", ", Counted(rooms, "room", rooms > 1));
    Counted(travellers, "traveller", travellers > 1) + ", " + Counted(rooms, "room", rooms > 1)
  }

  /** `getTravellersText` of the search screen: 'room' only for exactly one room. */
  function SearchTravellersText(travellers: int, rooms: int): (r: string)
    ensures ParseInt(Before(r, ' ')) == travellers
  {
    var roomText := if rooms == 1 then "room" else "rooms";
    ReadCountedNumber(travellers, "traveller", travellers > 1, ", ", IntToString(rooms) + " " + roomText);
    Counted(travellers, "traveller", travellers > 1) + ", " + (IntToString(rooms) + " " + roomText)
  }

  /** The number leading a text, up to its first space, reads back as itself. */
  lemma ReadNumber(n: int, tail: string)
    ensures ParseInt(Before(IntToString(n) + [' '] + tail, ' ')) == n
  {
    var digits := IntToString(n);
    var t := digits + [' '] + tail;
    NoSpaceInIntText(n);
    IndexOfAfterPrefix(digits, ' ', tail);
    assert t[..|digits|] == digits;
    assert Before(t, ' ') == digits;
    ParseIntOfIntToString(n);
  }

  /**
   * A number's digits, a space and a noun with an 's' exactly when plural,
   * followed by a separator not starting with 's': after the digits and the
   * space come the noun, then an 's' exactly when the phrase is plural.
   */
  lemma ReadCounted(digits: string, noun: string, plural: bool, sep: string, more: string)
    requires |sep| > 0 && sep[0] != 's'
    ensures var t := digits + " " + noun + (if plural then "s" else "") + sep + more;
            var k := |digits| + 1;
            k + |noun| < |t|
            && t[k..k + |noun|] == noun
            && (t[k + |noun|] == 's' <==> plural)
  {
    var t := digits + " " + noun + (if plural then "s" else "") + sep + more;
    var k := |digits| + 1;
    assert t[k..k + |noun|] == noun;
    if plural { assert t[k + |noun|] == 's'; } else { assert t[k + |noun|] == sep[0]; }
  }

  /** The layout of a phrase followed by more text, split after the number's space. */
  lemma PhraseShape(digits: string, noun: string, plural: bool, sep: string, more: string)
    ensures digits + " " + noun + (if plural then "s" else "") + sep + more
            == digits + [' '] + (noun + (if plural then "s" else "") + sep + more)
  {
  }

  /** A phrase followed by more text opens with its number, read back up to the first space. */
  lemma ReadCountedNumber(n: int, noun: string, plural: bool, sep: string, more: string)
    ensures ParseInt(Before(Counted(n, noun, plural) + sep + more, ' ')) == n
  {
    PhraseShape(IntToString(n), noun, plural, sep, more);
    ReadNumber(n, noun + (if plural then "s" else "") + sep + more);
  }

  /**
   * The summary opens with the number of travellers, read back up to the
   * first space, and then says 'traveller', plural exactly when there is
   * more than one.
   */
  lemma TravellerWordPlural(travellers: int, rooms: int)
    ensures ParseInt(Before(TravellersText(travellers, rooms), ' ')) == travellers
    ensures var t := TravellersText(travellers, rooms);
            var k := |IntToString(travellers)| + 1;
            k + 9 < |t| && t[k..k + 9] == "traveller"
            && (t[k + 9] == 's' <==> travellers > 1)
  {
    ReadCountedNumber(travellers, "traveller", travellers > 1, ", ", Counted(rooms, "room", rooms > 1));
    ReadCounted(IntToString(travellers), "traveller", travellers > 1, ", ", Counted(rooms, "room", rooms > 1));
  }

  /** The same holds for the search screen's summary. */
  lemma SearchTravellerWordPlural(travellers: int, rooms: int)
    ensures ParseInt(Before(SearchTravellersText(travellers, rooms), ' ')) == travellers
    ensures var t := SearchTravellersText(travellers, rooms);
            var k := |IntToString(travellers)| + 1;
            k + 9 < |t| && t[k..k + 9] == "traveller"
            && (t[k + 9] == 's' <==> travellers > 1)
  {
    var roomText := if rooms == 1 then "room" else "rooms";
    ReadCountedNumber(travellers, "traveller", travellers > 1, ", ", IntToString(rooms) + " " + roomText);
    ReadCounted(IntToString(travellers), "traveller", travellers > 1, ", ", IntToString(rooms) + " " + roomText);
  }

  /**
   * The room word, at the end of each summary: plural for more than one
   * room on the results, detail and room screens, but for every count other
   * than one on the search screen.
   */
  lemma RoomWordPlural(travellers: int, rooms: int)
    ensures var t := TravellersText(travellers, rooms); t[|t| - 1] == 's' <==> rooms > 1
    ensures var u := SearchTravellersText(travellers, rooms); u[|u| - 1] == 's' <==> rooms != 1
  {
  }

  /** The two summaries agree exactly when there is at least one room. */
  lemma SummariesAgreeIffRooms(travellers: int, rooms: int)
    ensures TravellersText(travellers, rooms) == SearchTravellersText(travellers, rooms) <==> rooms >= 1
  {
    var head := Counted(travellers, "traveller", travellers > 1) + ", ";
    if rooms < 1 {
      assert |TravellersText(travellers, rooms)| == |head| + |IntToString(rooms)| + 5;
      assert |SearchTravellersText(travellers, rooms)| == |head| + |IntToString(rooms)| + 6;
    }
  }
}
