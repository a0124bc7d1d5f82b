/**
 * The policy list screen (`AllPolicies`): server-side paging and search,
 * the sliding window of page numbers, the selectable renewal types and the
 * client-side renewal filter, the payment-month column and the status and
 * mode badge classes.
 *
 * Every HTTP call the component makes is returned as a `Request` value; each
 * success or failure callback is a method taking the server's answer as
 * parameters.
 */
module AllPolicies {
  import opened Wrappers
  import opened Text
  import opened JsMath
  import opened Seqs
  import opened Dates

  /**
   * A policy record as the list reads it; an absent string field is "".
   * `holderFullName` is `policyHolder.fullName`, `fullName` the top-level field.
   */
  datatype Policy = Policy(policyNumber: string, premiumFrequency: string, holderFullName: string, fullName: string)

  /** One entry of the renewal-type dropdown; `labelText` is the source's `label`, a reserved word here. */
  datatype RenewalType = RenewalType(value: string, labelText: string, selected: bool)

  /** The HTTP calls of the list screen. */
  datatype Request =
    | LoadPage(page: int, limit: int)                  // getAllPolicies for one page
    | SearchPage(query: string, page: int, limit: int) // searchPolicies
    | FetchForFilter(page: int, limit: int)            // getAllPolicies for the client-side filter

  const PageSize: int := 5
  const MaxVisiblePages: int := 5
  const FilterFetchLimit: int := 1000

  const LoadFailedMessage: string := "Failed to load policies. Please try again."
  const SearchFailedMessage: string := "Search failed. Please try again."
  const FilterFailedMessage: string := "Failed to load policies."

  const InitialRenewalTypes: seq<RenewalType> := [
    RenewalType("MONTHLY", "Monthly", false),
    RenewalType("QUARTERLY", "Quarterly", false),
    RenewalType("HALF_YEARLY", "Half Yearly", false),
    RenewalType("YEARLY", "Yearly", false),
    RenewalType("SINGLE", "Single", false)
  ]

  /* ---------- totals ---------- */

  /**
   * `response.total || response.totalCount || policies.length`: the first
   * count that is present and non-zero (0 stands for an absent count).
   */
  function ReportedTotal(total: nat, totalCount: nat, fetched: nat): (r: nat)
    ensures r == 0 <==> total == 0 && totalCount == 0 && fetched == 0
    ensures total != 0 ==> r == total
    ensures total == 0 && totalCount != 0 ==> r == totalCount
    ensures total == 0 && totalCount == 0 ==> r == fetched
  {
    if total != 0 then total else if totalCount != 0 then totalCount else fetched
  }

  /** `Math.ceil(total / PageSize)`: enough pages for every record, none of them empty. */
  lemma PageCountCoversTotal(total: nat)
    ensures var pages := CeilDiv(total, PageSize);
            (total == 0 <==> pages == 0)
            && PageSize * (pages - 1) < total <= PageSize * pages
  {
  }

  /* ---------- renewal types ---------- */

  /** The list with entry `i`'s `selected` flag flipped (`type.selected = !type.selected`). */
  function Toggled(types: seq<RenewalType>, i: nat): (r: seq<RenewalType>)
    requires i < |types|
    ensures |r| == |types|
    ensures r[i].selected == !types[i].selected
    ensures r[i].value == types[i].value && r[i].labelText == types[i].labelText
    ensures forall k :: 0 <= k < |r| && k != i ==> r[k] == types[k]
  {
    types[i := types[i].(selected := !types[i].selected)]
  }

  /** Toggling the same entry twice restores the list. */
  lemma ToggleTwice(types: seq<RenewalType>, i: nat)
    requires i < |types|
    ensures Toggled(Toggled(types, i), i) == types
  {
    var once := Toggled(types, i);
    var twice := Toggled(once, i);
    assert forall k | 0 <= k < |types| :: twice[k] == types[k];
  }

  /** `renewalTypes.filter(t => t.selected).map(t => t.value)`, in list order. */
  function SelectedValues(types: seq<RenewalType>): (r: seq<string>)
    ensures |r| <= |types|
    ensures forall v :: v in r <==> exists k | 0 <= k < |types| :: types[k].selected && types[k].value == v
  {
    if types == [] then []
    else
      var last := types[|types| - 1];
      var rest := SelectedValues(types[..|types| - 1]);
      assert forall k | 0 <= k < |types| - 1 :: types[..|types| - 1][k] == types[k];
      rest + (if last.selected then [last.value] else [])
  }

  /** `renewalTypes.filter(t => t.selected).length`. */
  function SelectedCount(types: seq<RenewalType>): (r: nat)
    ensures r == 0 <==> forall k :: 0 <= k < |types| ==> !types[k].selected
  {
    if types == [] then 0
    else
      var rest := types[..|types| - 1];
      assert forall k | 0 <= k < |types| - 1 :: rest[k] == types[k];
      SelectedCount(rest) + (if types[|types| - 1].selected then 1 else 0)
  }

  /** The count of selected entries is the length of the selected values. */
  lemma {:induction false} SelectedCountIsSelectedValuesLength(types: seq<RenewalType>)
    ensures SelectedCount(types) == |SelectedValues(types)|
  {
    if types != [] {
      SelectedCountIsSelectedValuesLength(types[..|types| - 1]);
    }
  }

  /* ---------- renewal filter ---------- */

  /** The three spellings the HALF_YEARLY type accepts. */
  const HalfYearlySpellings: set<string> := {"HALF_YEARLY", "HALF-YEARLY", "HALFYEARLY"}

  /** Whether an upper-cased frequency matches one selected renewal type. */
  predicate MatchesType(frequency: string, selectedType: string) {
    if selectedType == "HALF_YEARLY" then frequency in HalfYearlySpellings else frequency == selectedType
  }

  /** `selectedTypes.some(...)` on the upper-cased premium frequency. */
  predicate HasSelectedFrequency(p: Policy, selectedTypes: seq<string>) {
    exists k | 0 <= k < |selectedTypes| :: MatchesType(Upper(p.premiumFrequency), selectedTypes[k])
  }

  /** The frequency step of the renewal filter. */
  function FilterByFrequency(data: seq<Policy>, selectedTypes: seq<string>): (r: seq<Policy>)
    ensures |r| <= |data|
    ensures forall p :: p in r ==> HasSelectedFrequency(p, selectedTypes)
  {
    FilterMembership(data, (p: Policy) => HasSelectedFrequency(p, selectedTypes));
    Filter(data, (p: Policy) => HasSelectedFrequency(p, selectedTypes))
  }

  /**
   * A policy passes the frequency step exactly when its upper-cased frequency
   * equals a selected type, or one of the three half-yearly spellings when
   * HALF_YEARLY is selected; the kept policies keep their order and their
   * number of copies.
   */
  lemma FrequencyFilterSpec(data: seq<Policy>, selectedTypes: seq<string>)
    ensures var r := FilterByFrequency(data, selectedTypes);
            IsSubsequence(r, data)
            && (forall p :: p in r <==> p in data && HasSelectedFrequency(p, selectedTypes))
            && (forall k :: 0 <= k < |r| ==> HasSelectedFrequency(r[k], selectedTypes))
            && (forall p :: multiset(r)[p] == if HasSelectedFrequency(p, selectedTypes) then multiset(data)[p] else 0)
  {
    FilterMembership(data, (p: Policy) => HasSelectedFrequency(p, selectedTypes));
  }

  /** With HALF_YEARLY selected, each of its three spellings, in any letter case, is kept. */
  lemma HalfYearlyAcceptsAllSpellings(p: Policy, selectedTypes: seq<string>, k: nat)
    requires k < |selectedTypes| && selectedTypes[k] == "HALF_YEARLY"
    requires Upper(p.premiumFrequency) in HalfYearlySpellings
    ensures HasSelectedFrequency(p, selectedTypes)
  {
    assert MatchesType(Upper(p.premiumFrequency), selectedTypes[k]);
  }

  /** Without HALF_YEARLY in the selection, a frequency is kept only when it equals a selected type. */
  lemma OtherTypesMatchExactly(p: Policy, selectedTypes: seq<string>)
    requires "HALF_YEARLY" !in selectedTypes
    ensures HasSelectedFrequency(p, selectedTypes) <==> Upper(p.premiumFrequency) in selectedTypes
  {
    if Upper(p.premiumFrequency) in selectedTypes {
      var k :| 0 <= k < |selectedTypes| && selectedTypes[k] == Upper(p.premiumFrequency);
      assert MatchesType(Upper(p.premiumFrequency), selectedTypes[k]);
    }
  }

  /** The name the search step reads: `policyHolder?.fullName || fullName || ''`. */
  function SearchName(p: Policy): string {
    if p.holderFullName != "" then p.holderFullName else p.fullName
  }

  /** Whether the lower-cased policy number or name contains `query`. */
  predicate MatchesQuery(p: Policy, query: string) {
    Contains(Lower(p.policyNumber), query) || Contains(Lower(SearchName(p)), query)
  }

  /** A search is in effect when it is active and its trimmed text is non-empty. */
  predicate SearchApplies(isSearchActive: bool, searchQuery: string) {
    isSearchActive && Trim(searchQuery) != ""
  }

  /** The search step of the renewal filter. */
  function NarrowBySearch(data: seq<Policy>, isSearchActive: bool, searchQuery: string): (r: seq<Policy>)
    ensures |r| <= |data|
    ensures forall p :: p in r ==> p in data
  {
    if SearchApplies(isSearchActive, searchQuery) then
      var query := Lower(Trim(searchQuery));
      FilterMembership(data, (p: Policy) => MatchesQuery(p, query));
      Filter(data, (p: Policy) => MatchesQuery(p, query))
    else data
  }

  /**
   * `finalFiltered`: the frequency step followed by the search step; never
   * longer than the fetched data, and every policy in it has a selected
   * frequency.
   */
  function RenewalFiltered(data: seq<Policy>, selectedTypes: seq<string>, isSearchActive: bool, searchQuery: string): (r: seq<Policy>)
    ensures |r| <= |data|
    ensures forall k :: 0 <= k < |r| ==> HasSelectedFrequency(r[k], selectedTypes)
  {
    var r := NarrowBySearch(FilterByFrequency(data, selectedTypes), isSearchActive, searchQuery);
    assert forall k :: 0 <= k < |r| ==> r[k] in r;
    r
  }

  /**
   * The list the renewal filter keeps is an order-preserving subsequence of the
   * fetched data holding exactly the policies with a selected frequency that,
   * while a search is in effect, also match the trimmed, lower-cased query,
   * each as often as the fetched data holds it.
   */
  lemma RenewalFilteredSpec(data: seq<Policy>, selectedTypes: seq<string>, isSearchActive: bool, searchQuery: string)
    ensures var r := RenewalFiltered(data, selectedTypes, isSearchActive, searchQuery);
            IsSubsequence(r, data)
            && (forall p :: p in r <==>
                  p in data && HasSelectedFrequency(p, selectedTypes)
                  && (SearchApplies(isSearchActive, searchQuery) ==> MatchesQuery(p, Lower(Trim(searchQuery)))))
            && forall p :: multiset(r)[p] ==
                 if HasSelectedFrequency(p, selectedTypes)
                    && (SearchApplies(isSearchActive, searchQuery) ==> MatchesQuery(p, Lower(Trim(searchQuery))))
                 then multiset(data)[p] else 0
  {
    var byFrequency := FilterByFrequency(data, selectedTypes);
    FrequencyFilterSpec(data, selectedTypes);
    if SearchApplies(isSearchActive, searchQuery) {
      var query := Lower(Trim(searchQuery));
      FilterMembership(byFrequency, (p: Policy) => MatchesQuery(p, query));
      SubsequenceTransitive(RenewalFiltered(data, selectedTypes, isSearchActive, searchQuery), byFrequency, data);
    }
  }

  /* ---------- payment months ---------- */

  /** The month `i` steps of `step` months after `start`: `(startMonth + i * step) % 12`. */
  function MonthAfter(start: Month, i: nat, step: nat): Month {
    (start + i * step) % 12
  }

  /** The month indices a frequency pays in: `count` of them, `step` months apart. */
  function PaymentMonthIndices(start: Month, count: nat, step: nat): (r: seq<Month>)
    ensures |r| == count
    ensures forall i :: 0 <= i < count ==> r[i] == MonthAfter(start, i, step)
  {
    seq(count, (i: int) requires 0 <= i => MonthAfter(start, i, step))
  }

  /** The names of those months. */
  function PaymentMonthNames(start: Month, count: nat, step: nat): (r: seq<string>)
    ensures |r| == count
    ensures forall i :: 0 <= i < count ==> r[i] == MonthNames[MonthAfter(start, i, step)]
  {
    seq(count, (i: int) requires 0 <= i => MonthNames[MonthAfter(start, i, step)])
  }

  /** The `for` loop that pushes `months[(startMonth + i * step) % 12]` for `i` below `count`. */
  method CollectMonths(start: Month, count: nat, step: nat) returns (names: seq<string>)
    ensures names == PaymentMonthNames(start, count, step)
  {
    names := [];
    for i := 0 to count
      invariant |names| == i
      invariant forall j :: 0 <= j < i ==> names[j] == MonthNames[MonthAfter(start, j, step)]
    {
      names := names + [MonthNames[MonthAfter(start, i, step)]];
    }
  }

  /** The frequencies `getPaymentMonths` knows, upper-cased. */
  const PaymentFrequencies: set<string> :=
    {"YEARLY", "HALF_YEARLY", "HALF-YEARLY", "HALFYEARLY", "QUARTERLY", "MONTHLY", "SINGLE"}

  /**
   * The payment-month column. `startMonth` is the month of the start date, or
   * `None` when the start date is empty; `frequency` is "" when absent.
   */
  method GetPaymentMonths(frequency: string, startMonth: Option<Month>) returns (r: string)
    ensures startMonth == None ==> r == "-"
    ensures startMonth.Some? && Upper(frequency) !in PaymentFrequencies ==> r == "-"
    ensures startMonth.Some? && Upper(frequency) == "YEARLY" ==> r == MonthNames[startMonth.value]
    ensures startMonth.Some? && Upper(frequency) in HalfYearlySpellings ==>
              r == Join(PaymentMonthNames(startMonth.value, 2, 6), ", ")
    ensures startMonth.Some? && Upper(frequency) == "QUARTERLY" ==>
              r == Join(PaymentMonthNames(startMonth.value, 4, 3), ", ")
    ensures startMonth.Some? && Upper(frequency) == "MONTHLY" ==> r == "Every Month"
    ensures startMonth.Some? && Upper(frequency) == "SINGLE" ==> r == MonthNames[startMonth.value] + " (One-time)"
  {
    if startMonth == None {
      return "-";
    }
    var m := startMonth.value;
    var freq := Upper(frequency);
    if freq == "YEARLY" {
      r := MonthNames[m];
    } else if freq == "HALF_YEARLY" || freq == "HALF-YEARLY" || freq == "HALFYEARLY" {
      var names := CollectMonths(m, 2, 6);
      r := Join(names, ", ");
    } else if freq == "QUARTERLY" {
      var names := CollectMonths(m, 4, 3);
      r := Join(names, ", ");
    } else if freq == "MONTHLY" {
      r := "Every Month";
    } else if freq == "SINGLE" {
      r := MonthNames[m] + " (One-time)";
    } else {
      r := "-";
    }
  }

  /** `x % 12` for `0 <= x < 24`. */
  function Wrap(x: int): int { if x >= 12 then x - 12 else x }

  /** The quarterly months are the start month and the months three, six and nine months on. */
  lemma QuarterlyMonthsListed(start: Month)
    ensures PaymentMonthIndices(start, 4, 3) == [start, Wrap(start + 3), Wrap(start + 6), Wrap(start + 9)]
  {
    var months := PaymentMonthIndices(start, 4, 3);
    forall i | 0 <= i < 4
      ensures months[i] == Wrap(start + 3 * i)
    {
      var x := start + 3 * i;
      assert x % 12 == Wrap(x) by {
        if x >= 12 { assert x == 12 + (x - 12); }
      }
    }
  }

  /** A month is a quarterly month of `start` exactly when it is a multiple of three months away. */
  lemma QuarterlyMonth(start: Month, m: Month)
    ensures m in PaymentMonthIndices(start, 4, 3) <==> (m - start) % 3 == 0
  {
    QuarterlyMonthsListed(start);
    var d := m - start;
    if d % 3 == 0 {
      var q := d / 3;
      assert d == 3 * q;
      if q >= 0 {
        assert m == Wrap(start + 3 * q);
      } else {
        assert m == Wrap(start + 3 * (q + 4));
      }
    } else {
      assert m != start && m != Wrap(start + 3) && m != Wrap(start + 6) && m != Wrap(start + 9);
    }
  }

  /** The quarterly months are exactly the months a multiple of three away from the start month. */
  lemma QuarterlyMonthsAreOneResidueClass(start: Month)
    ensures forall m: Month :: m in PaymentMonthIndices(start, 4, 3) <==> (m - start) % 3 == 0
  {
    forall m: Month
      ensures m in PaymentMonthIndices(start, 4, 3) <==> (m - start) % 3 == 0
    {
      QuarterlyMonth(start, m);
    }
  }

  /** The two half-yearly months are six months apart and differ. */
  lemma HalfYearlyMonthsAreSixApart(start: Month)
    ensures var months := PaymentMonthIndices(start, 2, 6);
            months == [start, (start + 6) % 12] && months[0] != months[1]
  {
    var months := PaymentMonthIndices(start, 2, 6);
    assert months[0] == MonthAfter(start, 0, 6) == start;
  }

  /* ---------- badge classes ---------- */

  /** The badge class of each known lower-cased policy status. */
  const StatusClasses: map<string, string> := map[
    "active" := "status-active", "lapsed" := "status-lapsed", "matured" := "status-matured",
    "surrendered" := "status-surrendered", "paid_up" := "status-paid-up", "paid-up" := "status-paid-up",
    "paidup" := "status-paid-up", "pending" := "status-pending"]

  /** The badge class of each known lower-cased premium mode. */
  const ModeClasses: map<string, string> := map[
    "monthly" := "mode-monthly", "quarterly" := "mode-quarterly", "half_yearly" := "mode-half-yearly",
    "half-yearly" := "mode-half-yearly", "halfyearly" := "mode-half-yearly", "yearly" := "mode-yearly",
    "single" := "mode-single"]

  /** `getStatusClass`: '' for an empty status, the table's class for a known one, otherwise the default class. */
  function StatusClass(status: string): (r: string)
    ensures r == "" <==> status == ""
    ensures status != "" && Lower(status) in StatusClasses ==> r == StatusClasses[Lower(status)]
    ensures status != "" && Lower(status) !in StatusClasses ==> r == "status-default"
  {
    if status == "" then ""
    else
      var s := Lower(status);
      if s == "active" then "status-active"
      else if s == "lapsed" then "status-lapsed"
      else if s == "matured" then "status-matured"
      else if s == "surrendered" then "status-surrendered"
      else if s == "paid_up" || s == "paid-up" || s == "paidup" then "status-paid-up"
      else if s == "pending" then "status-pending"
      else "status-default"
  }

  /** `getModeClass`: '' for an empty mode, the table's class for a known one, otherwise the default class. */
  function ModeClass(mode: string): (r: string)
    ensures r == "" <==> mode == ""
    ensures mode != "" && Lower(mode) in ModeClasses ==> r == ModeClasses[Lower(mode)]
    ensures mode != "" && Lower(mode) !in ModeClasses ==> r == "mode-default"
  {
    if mode == "" then ""
    else
      var s := Lower(mode);
      if s == "monthly" then "mode-monthly"
      else if s == "quarterly" then "mode-quarterly"
      else if s == "half_yearly" || s == "half-yearly" || s == "halfyearly" then "mode-half-yearly"
      else if s == "yearly" then "mode-yearly"
      else if s == "single" then "mode-single"
      else "mode-default"
  }

  /** Both class maps ignore letter case. */
  lemma ClassesIgnoreCase(s: string)
    ensures StatusClass(s) == StatusClass(Lower(s)) == StatusClass(Upper(s))
    ensures ModeClass(s) == ModeClass(Lower(s)) == ModeClass(Upper(s))
  {
    LowerIdempotent(s);
    LowerOfUpper(s);
  }

  /* ---------- the component ---------- */

  class PolicyList {
    var policies: seq<Policy>
    var isLoading: bool
    var errorMessage: string
    var searchQuery: string
    var isSearching: bool
    var isSearchActive: bool
    var currentPage: int
    const pageSize: int := PageSize
    var totalPolicies: int
    var totalPages: int
    var isRenewalDropdownOpen: bool
    var renewalTypes: seq<RenewalType>
    var allPoliciesCache: seq<Policy>

    /** The field initialisers. */
    constructor()
      ensures policies == [] && isLoading && errorMessage == "" && searchQuery == ""
      ensures !isSearching && !isSearchActive
      ensures currentPage == 1 && pageSize == PageSize && totalPolicies == 0 && totalPages == 0
      ensures !isRenewalDropdownOpen && renewalTypes == InitialRenewalTypes && allPoliciesCache == []
    {
      policies := [];
      isLoading := true;
      errorMessage := "";
      searchQuery := "";
      isSearching := false;
      isSearchActive := false;
      currentPage := 1;
      totalPolicies := 0;
      totalPages := 0;
      isRenewalDropdownOpen := false;
      renewalTypes := InitialRenewalTypes;
      allPoliciesCache := [];
    }

    /** Whether a page change or an empty renewal selection re-runs the search rather than the plain load. */
    predicate SearchInEffect()
      reads this
    {
      SearchApplies(isSearchActive, searchQuery)
    }

    /** The request a reload of the current page issues. */
    function ReloadRequest(): Request
      reads this
    {
      if SearchInEffect() then SearchPage(Trim(searchQuery), currentPage, pageSize)
      else LoadPage(currentPage, pageSize)
    }

    /** The flags a reload leaves: loading, no error, and searching when it re-runs the search. */
    twostate predicate ReloadStarted()
      reads this
    {
      isLoading && errorMessage == "" && isSearching == (SearchInEffect() || old(isSearching))
    }

    /** `loadPolicies`, up to the request. */
    method LoadPolicies() returns (req: Request)
      modifies this`isLoading, this`errorMessage
      ensures isLoading && errorMessage == ""
      ensures req == LoadPage(currentPage, pageSize)
    {
      isLoading := true;
      errorMessage := "";
      req := LoadPage(currentPage, pageSize);
    }

    /** The success callback of `loadPolicies`. */
    method OnPoliciesLoaded(fetched: seq<Policy>, total: nat, totalCount: nat)
      modifies this`policies, this`totalPolicies, this`totalPages, this`isLoading, this`isSearchActive
      ensures policies == fetched
      ensures totalPolicies == ReportedTotal(total, totalCount, |fetched|)
      ensures totalPages == CeilDiv(totalPolicies, pageSize)
      ensures !isLoading && !isSearchActive
    {
      policies := fetched;
      totalPolicies := ReportedTotal(total, totalCount, |policies|);
      totalPages := CeilDiv(totalPolicies, pageSize);
      isLoading := false;
      isSearchActive := false;
    }

    /** The failure callback of `loadPolicies`. */
    method OnLoadFailed()
      modifies this`errorMessage, this`isLoading
      ensures errorMessage == LoadFailedMessage && !isLoading
    {
      errorMessage := LoadFailedMessage;
      isLoading := false;
    }

    /** `searchPolicies`: an all-blank query clears the search instead. */
    method SearchPolicies() returns (req: Request)
      modifies this`searchQuery, this`currentPage, this`isSearchActive, this`isLoading, this`isSearching, this`errorMessage
      ensures Trim(old(searchQuery)) == "" ==>
                searchQuery == "" && currentPage == 1 && !isSearchActive
                && isLoading && errorMessage == "" && isSearching == old(isSearching)
                && req == LoadPage(1, pageSize)
      ensures Trim(old(searchQuery)) != "" ==>
                searchQuery == old(searchQuery) && currentPage == old(currentPage) && isSearchActive == old(isSearchActive)
                && isLoading && isSearching && errorMessage == ""
                && req == SearchPage(Trim(searchQuery), currentPage, pageSize)
    {
      var query := Trim(searchQuery);
      if query == "" {
        req := ClearSearch();
        return;
      }
      req := StartSearch();
    }

    /** The part of `searchPolicies` past its blank-query guard. */
    method StartSearch() returns (req: Request)
      modifies this`isLoading, this`isSearching, this`errorMessage
      ensures isLoading && isSearching && errorMessage == ""
      ensures req == SearchPage(Trim(searchQuery), currentPage, pageSize)
    {
      isLoading := true;
      isSearching := true;
      errorMessage := "";
      req := SearchPage(Trim(searchQuery), currentPage, pageSize);
    }

    /** The success callback of `searchPolicies`. */
    method OnSearchLoaded(fetched: seq<Policy>, total: nat, totalCount: nat)
      modifies this`policies, this`totalPolicies, this`totalPages, this`isLoading, this`isSearching, this`isSearchActive
      ensures policies == fetched
      ensures totalPolicies == ReportedTotal(total, totalCount, |fetched|)
      ensures totalPages == CeilDiv(totalPolicies, pageSize)
      ensures !isLoading && !isSearching && isSearchActive
    {
      policies := fetched;
      totalPolicies := ReportedTotal(total, totalCount, |policies|);
      totalPages := CeilDiv(totalPolicies, pageSize);
      isLoading := false;
      isSearching := false;
      isSearchActive := true;
    }

    /** The failure callback of `searchPolicies`. */
    method OnSearchFailed()
      modifies this`errorMessage, this`isLoading, this`isSearching
      ensures errorMessage == SearchFailedMessage && !isLoading && !isSearching
    {
      errorMessage := SearchFailedMessage;
      isLoading := false;
      isSearching := false;
    }

    /** `onSearch`: a new search starts on page 1. */
    method OnSearch() returns (req: Request)
      modifies this`searchQuery, this`currentPage, this`isSearchActive, this`isLoading, this`isSearching, this`errorMessage
      ensures currentPage == 1 && isLoading && errorMessage == ""
      ensures Trim(old(searchQuery)) == "" ==> searchQuery == "" && !isSearchActive && req == LoadPage(1, pageSize)
      ensures Trim(old(searchQuery)) != "" ==>
                searchQuery == old(searchQuery) && isSearchActive == old(isSearchActive) && isSearching
                && req == SearchPage(Trim(searchQuery), 1, pageSize)
    {
      currentPage := 1;
      req := SearchPolicies();
    }

    /** `clearSearch`: forget the query and load page 1. */
    method ClearSearch() returns (req: Request)
      modifies this`searchQuery, this`currentPage, this`isSearchActive, this`isLoading, this`errorMessage
      ensures searchQuery == "" && currentPage == 1 && !isSearchActive && isLoading && errorMessage == ""
      ensures req == LoadPage(1, pageSize)
    {
      searchQuery := "";
      currentPage := 1;
      isSearchActive := false;
      req := LoadPolicies();
    }

    /** `refreshPolicies`: the same reset as clearing the search. */
    method RefreshPolicies() returns (req: Request)
      modifies this`searchQuery, this`currentPage, this`isSearchActive, this`isLoading, this`errorMessage
      ensures searchQuery == "" && currentPage == 1 && !isSearchActive && isLoading && errorMessage == ""
      ensures req == LoadPage(1, pageSize)
    {
      currentPage := 1;
      searchQuery := "";
      isSearchActive := false;
      req := LoadPolicies();
    }

    /** The branch shared by the page moves: re-run the search when one is in effect, else load. */
    method ReloadCurrentPage() returns (req: Request)
      modifies this`isLoading, this`isSearching, this`errorMessage
      ensures ReloadStarted() && req == ReloadRequest()
    {
      if SearchInEffect() {
        req := StartSearch();
      } else {
        req := LoadPolicies();
      }
    }

    /** `goToPage`: moves only to a different page within 1..totalPages; otherwise nothing changes. */
    method GoToPage(page: int) returns (req: Option<Request>)
      modifies this`currentPage, this`isLoading, this`isSearching, this`errorMessage
      ensures 1 <= page <= totalPages && page != old(currentPage) ==>
                currentPage == page && ReloadStarted() && req == Some(ReloadRequest())
      ensures !(1 <= page <= totalPages && page != old(currentPage)) ==>
                req == None && currentPage == old(currentPage) && isLoading == old(isLoading)
                && isSearching == old(isSearching) && errorMessage == old(errorMessage)
    {
      req := None;
      if page >= 1 && page <= totalPages && page != currentPage {
        currentPage := page;
        var r := ReloadCurrentPage();
        req := Some(r);
      }
    }

    /** `nextPage`: one page forward while before the last page; never past the last page. */
    method NextPage() returns (req: Option<Request>)
      modifies this`currentPage, this`isLoading, this`isSearching, this`errorMessage
      ensures old(currentPage) < totalPages ==>
                currentPage == old(currentPage) + 1 && ReloadStarted() && req == Some(ReloadRequest())
      ensures old(currentPage) >= totalPages ==>
                req == None && currentPage == old(currentPage) && isLoading == old(isLoading)
                && isSearching == old(isSearching) && errorMessage == old(errorMessage)
      ensures old(currentPage) <= totalPages ==> currentPage <= totalPages
    {
      req := None;
      if currentPage < totalPages {
        currentPage := currentPage + 1;
        var r := ReloadCurrentPage();
        req := Some(r);
      }
    }

    /** `prevPage`: one page back while after page 1; never before page 1. */
    method PrevPage() returns (req: Option<Request>)
      modifies this`currentPage, this`isLoading, this`isSearching, this`errorMessage
      ensures old(currentPage) > 1 ==>
                currentPage == old(currentPage) - 1 && ReloadStarted() && req == Some(ReloadRequest())
      ensures old(currentPage) <= 1 ==>
                req == None && currentPage == old(currentPage) && isLoading == old(isLoading)
                && isSearching == old(isSearching) && errorMessage == old(errorMessage)
      ensures old(currentPage) >= 1 ==> currentPage >= 1
    {
      req := None;
      if currentPage > 1 {
        currentPage := currentPage - 1;
        var r := ReloadCurrentPage();
        req := Some(r);
      }
    }

    /**
     * `getPageNumbers`: at most five consecutive page numbers within
     * 1..totalPages, starting two before the current page (not before 1) and
     * shifted back near the end so that as many as possible show, holding the
     * current page when it is a real page and centred on it away from the ends.
     */
    method GetPageNumbers() returns (pages: seq<int>)
      ensures |pages| <= MaxVisiblePages
      ensures forall k :: 0 <= k < |pages| ==> 1 <= pages[k] <= totalPages
      ensures forall k :: 0 < k < |pages| ==> pages[k] == pages[k - 1] + 1
      ensures totalPages <= 0 ==> pages == []
      ensures 1 <= currentPage <= totalPages ==> currentPage in pages && |pages| == Min(MaxVisiblePages, totalPages)
      ensures var last := Min(totalPages, Max(1, currentPage - MaxVisiblePages / 2) + MaxVisiblePages - 1);
              var first := Max(1, last - MaxVisiblePages + 1);
              |pages| == Max(0, last - first + 1) && forall k :: 0 <= k < |pages| ==> pages[k] == first + k
      ensures 3 <= currentPage <= totalPages - 2 ==> pages == [currentPage - 2, currentPage - 1, currentPage, currentPage + 1, currentPage + 2]
    {
      var startPage := Max(1, currentPage - MaxVisiblePages / 2);
      var endPage := Min(totalPages, startPage + MaxVisiblePages - 1);
      if endPage - startPage + 1 < MaxVisiblePages {
        startPage := Max(1, endPage - MaxVisiblePages + 1);
      }
      pages := [];
      var i := startPage;
      while i <= endPage
        invariant startPage <= i <= Max(startPage, endPage + 1)
        invariant |pages| == i - startPage
        invariant forall k :: 0 <= k < |pages| ==> pages[k] == startPage + k
      {
        pages := pages + [i];
        i := i + 1;
      }
      assert |pages| == Max(0, endPage - startPage + 1);
      if 1 <= currentPage <= totalPages {
        assert pages[currentPage - startPage] == currentPage;
      }
    }

    /** `toggleRenewalDropdown`. */
    method ToggleRenewalDropdown()
      modifies this`isRenewalDropdownOpen
      ensures isRenewalDropdownOpen == !old(isRenewalDropdownOpen)
    {
      isRenewalDropdownOpen := !isRenewalDropdownOpen;
    }

    /** `closeRenewalDropdown`. */
    method CloseRenewalDropdown()
      modifies this`isRenewalDropdownOpen
      ensures !isRenewalDropdownOpen
    {
      isRenewalDropdownOpen := false;
    }

    /** `toggleRenewalType`: flips entry `i` and no other. */
    method ToggleRenewalType(i: nat)
      requires i < |renewalTypes|
      modifies this`renewalTypes
      ensures renewalTypes == Toggled(old(renewalTypes), i)
    {
      renewalTypes := Toggled(renewalTypes, i);
    }

    /** `getSelectedRenewalCount`. */
    function GetSelectedRenewalCount(): (r: nat)
      reads this
      ensures r == 0 <==> forall k :: 0 <= k < |renewalTypes| ==> !renewalTypes[k].selected
      ensures r == |GetSelectedRenewalTypes()|
    {
      SelectedCountIsSelectedValuesLength(renewalTypes);
      SelectedCount(renewalTypes)
    }

    /** `getSelectedRenewalTypes`. */
    function GetSelectedRenewalTypes(): (r: seq<string>)
      reads this
      ensures forall v :: v in r <==> exists k | 0 <= k < |renewalTypes| :: renewalTypes[k].selected && renewalTypes[k].value == v
    {
      SelectedValues(renewalTypes)
    }

    /** `clearRenewalFilters`: every entry deselected, values and labels kept, so nothing is selected. */
    method ClearRenewalFilters()
      modifies this`renewalTypes
      ensures |renewalTypes| == |old(renewalTypes)|
      ensures forall k :: 0 <= k < |renewalTypes| ==> renewalTypes[k] == old(renewalTypes)[k].(selected := false)
      ensures GetSelectedRenewalCount() == 0 && GetSelectedRenewalTypes() == []
    {
      var k := 0;
      while k < |renewalTypes|
        invariant 0 <= k <= |renewalTypes| == |old(renewalTypes)|
        invariant forall j :: 0 <= j < k ==> renewalTypes[j] == old(renewalTypes)[j].(selected := false)
        invariant forall j :: k <= j < |renewalTypes| ==> renewalTypes[j] == old(renewalTypes)[j]
      {
        renewalTypes := renewalTypes[k := renewalTypes[k].(selected := false)];
        k := k + 1;
      }
      SelectedCountIsSelectedValuesLength(renewalTypes);
    }

    /**
     * `applyRenewalFilter`, up to the request: closes the dropdown and returns
     * to page 1; with nothing selected it reloads the search or the plain list,
     * otherwise it fetches up to 1000 policies for the client-side filter.
     * `selectedTypes` is the selection the callback filters by.
     */
    method ApplyRenewalFilter() returns (req: Request, selectedTypes: seq<string>)
      modifies this`isRenewalDropdownOpen, this`currentPage, this`isLoading, this`isSearching, this`errorMessage
      ensures !isRenewalDropdownOpen && currentPage == 1
      ensures selectedTypes == GetSelectedRenewalTypes()
      ensures selectedTypes == [] ==> ReloadStarted() && req == ReloadRequest()
      ensures selectedTypes != [] ==>
                req == FetchForFilter(1, FilterFetchLimit) && isLoading
                && isSearching == old(isSearching) && errorMessage == old(errorMessage)
    {
      isRenewalDropdownOpen := false;
      currentPage := 1;
      selectedTypes := GetSelectedRenewalTypes();
      if |selectedTypes| == 0 {
        req := ReloadCurrentPage();
        return;
      }
      isLoading := true;
      req := FetchForFilter(1, FilterFetchLimit);
    }

    /**
     * The success callback of the renewal filter: keeps the matching policies,
     * counts them, and shows the current page of them.
     */
    method OnRenewalFilterFetched(data: seq<Policy>, selectedTypes: seq<string>)
      modifies this`totalPolicies, this`totalPages, this`policies, this`allPoliciesCache, this`isLoading
      ensures allPoliciesCache == RenewalFiltered(data, selectedTypes, old(isSearchActive), old(searchQuery))
      ensures totalPolicies == |allPoliciesCache|
      ensures totalPages == CeilDiv(totalPolicies, pageSize)
      ensures policies == JsSlice(allPoliciesCache, PageStart(currentPage, pageSize), PageStart(currentPage, pageSize) + pageSize)
      ensures !isLoading
    {
      var finalFiltered := RenewalFiltered(data, selectedTypes, isSearchActive, searchQuery);
      totalPolicies := |finalFiltered|;
      totalPages := CeilDiv(totalPolicies, pageSize);
      allPoliciesCache := finalFiltered;
      ShowCurrentPage();
      isLoading := false;
    }

    /** The pagination step of the renewal callback: the current page of the cached list. */
    method ShowCurrentPage()
      modifies this`policies
      ensures policies == JsSlice(allPoliciesCache, PageStart(currentPage, pageSize), PageStart(currentPage, pageSize) + pageSize)
    {
      var startIndex := PageStart(currentPage, pageSize);
      policies := JsSlice(allPoliciesCache, startIndex, startIndex + pageSize);
    }

    /** The failure callback of the renewal filter. */
    method OnRenewalFilterFailed()
      modifies this`errorMessage, this`isLoading
      ensures errorMessage == FilterFailedMessage && !isLoading
    {
      errorMessage := FilterFailedMessage;
      isLoading := false;
    }
  }

  /**
   * On page 1, where the filter starts, the shown policies are the first five
   * of the filtered list (all of them when fewer), every one passing the filter.
   */
  lemma FilteredFirstPage(data: seq<Policy>, selectedTypes: seq<string>, isSearchActive: bool, searchQuery: string)
    ensures var r := RenewalFiltered(data, selectedTypes, isSearchActive, searchQuery);
            var shown := JsSlice(r, 0, PageSize);
            shown == r[..Min(PageSize, |r|)]
            && forall p :: p in shown ==> p in data && HasSelectedFrequency(p, selectedTypes)
  {
    var r := RenewalFiltered(data, selectedTypes, isSearchActive, searchQuery);
    PageOfSlice(r, 1, PageSize);
    RenewalFilteredSpec(data, selectedTypes, isSearchActive, searchQuery);
  }
}
