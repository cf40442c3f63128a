/**
 * The three-way date filter of the reminder list. The calendar's "is this
 * date in today?" test and the current time are parameters: `isInToday`
 * stands for the device calendar, `now` for the clock.
 */
module Filters {
  import opened ReminderModel

  datatype Filter = Today | Future | All {

    /** The enum's integer raw value. */
    function RawValue(): (n: int)
      ensures 0 <= n < 3
    {
      match this
      case Today => 0
      case Future => 1
      case All => 2
    }
  }

  /** The failable initialiser from a raw value. */
  function FromRawValue(n: int): (f: Option<Filter>)
    ensures f.Some? <==> 0 <= n < 3
    ensures f.Some? ==> f.value.RawValue() == n
  {
    if n == 0 then Some(Today)
    else if n == 1 then Some(Future)
    else if n == 2 then Some(All)
    else None
  }

  /** Raw values are 0, 1, 2 in declaration order, and they round-trip. */
  lemma RawValueRoundTrip(f: Filter)
    ensures FromRawValue(f.RawValue()) == Some(f)
    ensures Today.RawValue() == 0 && Future.RawValue() == 1 && All.RawValue() == 2
  {
  }

  /** Whether a reminder due at `date` is shown under filter `f`. */
  function ShouldInclude(f: Filter, date: int, now: int, isInToday: int -> bool): (b: bool)
    ensures f == Today ==> (b <==> isInToday(date))
    ensures f == Future ==> (b <==> date > now && !isInToday(date))
    ensures f == All ==> b
  {
    match f
    case Today => isInToday(date)
    case Future => date > now && !isInToday(date)
    case All => true
  }

  /** No date passes both the Today and the Future filter. */
  lemma TodayFutureDisjoint(date: int, now: int, isInToday: int -> bool)
    ensures !(ShouldInclude(Today, date, now, isInToday) && ShouldInclude(Future, date, now, isInToday))
  {
  }

  /** Every filter selects a subset of what All selects. */
  lemma AllIncludesEveryFilter(f: Filter, date: int, now: int, isInToday: int -> bool)
    ensures ShouldInclude(f, date, now, isInToday) ==> ShouldInclude(All, date, now, isInToday)
  {
  }

  /**
   * Today and Future split the dates All shows: a date passes exactly one of
   * them unless it is past (not after now) and outside today, in which case
   * it passes neither.
   */
  lemma TodayFuturePartition(date: int, now: int, isInToday: int -> bool)
    ensures ShouldInclude(Today, date, now, isInToday) || ShouldInclude(Future, date, now, isInToday)
            <==> isInToday(date) || date > now
  {
  }
}
