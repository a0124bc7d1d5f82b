/**
 * Dates as the components use them, abstracted from JavaScript `Date`:
 * a date field is empty, unparsable (a `Date` whose time is NaN) or an
 * instant in milliseconds; calendar fields come from a supplied conversion.
 */
module Dates {
  import opened Wrappers
  import opened Text

  /** A month index as `Date.prototype.getMonth` returns it. */
  type Month = m: int | 0 <= m < 12

  const MonthNames: seq<string> :=
    ["Jan", "Feb", "Mar", "Apr", "May", "Jun", "Jul", "Aug", "Sep", "Oct", "Nov", "Dec"]

  /** `1000 * 60 * 60 * 24`. */
  const DayMs: int := 86400000

  /** A date field: '' (`NoDate`), a string `new Date` cannot read (`BadDate`), or an instant. */
  datatype DateValue = NoDate | BadDate | At(ms: int)

  /**
   * The date a text field denotes: `NoDate` for '', otherwise what `parse`
   * (`new Date(s).getTime()`, `None` for NaN) makes of it.
   */
  function DateField(s: string, parse: string -> Option<int>): (d: DateValue)
    ensures d == NoDate <==> s == ""
    ensures s != "" ==> (d == BadDate <==> parse(s).None?)
    ensures d.At? ==> parse(s) == Some(d.ms)
  {
    if s == "" then NoDate
    else match parse(s)
      case None => BadDate
      case Some(ms) => At(ms)
  }

  /**
   * `a < b` on two `Date` objects: a comparison of their times, which is
   * false whenever either time is NaN.
   */
  predicate Earlier(a: DateValue, b: DateValue) {
    a.At? && b.At? && a.ms < b.ms
  }

  /** Day of the month and month of an instant in the browser's time zone. */
  datatype CalendarDay = CalendarDay(dayOfMonth: int, month: Month)

  /**
   * `formatDate` of the results and detail screens: '' for an empty field,
   * otherwise `${getDate()} ${months[getMonth()]}`; an unparsable date prints
   * NaN and an undefined month.
   */
  function FormatShortDate(d: DateValue, calendar: int -> CalendarDay): (r: string)
    ensures r == "" <==> d == NoDate
  {
    match d
    case NoDate => ""
    case BadDate => "NaN undefined"
    case At(ms) =>
      var c := calendar(ms);
      IntToString(c.dayOfMonth) + " " + MonthNames[c.month]
  }
}
