/** Next and previous trading day (Monday to Friday), stepping one calendar
    day at a time as intraday_predictor/trading_days.py does. */
module TradingDays {

  /** A calendar date as its proleptic Gregorian ordinal, as Python's
      `date.toordinal()` gives it: day 1 is Monday, 1 January of year 1. */
  type Day = int

  /** Python's `date.weekday()`: Monday is 0, Saturday 5, Sunday 6. */
  function Weekday(d: Day): (w: int)
    ensures 0 <= w < 7
  {
    (d + 6) % 7
  }

  predicate IsTradingDay(d: Day) {
    Weekday(d) < 5
  }

  /** The first weekday strictly after d, written out from d's weekday. */
  function FirstTradingDayAfter(d: Day): Day {
    if Weekday(d) == 4 then d + 3      // Friday: skip the weekend
    else if Weekday(d) == 5 then d + 2 // Saturday
    else d + 1
  }

  /** The last weekday strictly before d, written out from d's weekday. */
  function LastTradingDayBefore(d: Day): Day {
    if Weekday(d) == 0 then d - 3      // Monday: skip the weekend
    else if Weekday(d) == 6 then d - 2 // Sunday
    else d - 1
  }

  lemma WeekdayStep(d: Day, k: nat)
    requires k < 7
    ensures Weekday(d + k) == (Weekday(d) + k) % 7
  {
  }

  lemma FirstTradingDayAfterIsFirst(d: Day)
    ensures FirstTradingDayAfter(d) > d
    ensures IsTradingDay(FirstTradingDayAfter(d))
    ensures forall e :: d < e < FirstTradingDayAfter(d) ==> !IsTradingDay(e)
    ensures FirstTradingDayAfter(d) - d <= 3
  {
    WeekdayStep(d, 1);
    WeekdayStep(d, 2);
    WeekdayStep(d, 3);
  }

  lemma LastTradingDayBeforeIsLast(d: Day)
    ensures LastTradingDayBefore(d) < d
    ensures IsTradingDay(LastTradingDayBefore(d))
    ensures forall e :: LastTradingDayBefore(d) < e < d ==> !IsTradingDay(e)
    ensures d - LastTradingDayBefore(d) <= 3
  {
    WeekdayStep(d - 3, 1);
    WeekdayStep(d - 3, 2);
    WeekdayStep(d - 3, 3);
  }

  /** `next_trading_day`: step forward one day at a time while on a weekend.
      The loop body runs at most twice (from a Friday: Saturday, Sunday). */
  method NextTradingDay(from: Day) returns (next: Day)
    ensures next > from && IsTradingDay(next)
    ensures forall e :: from < e < next ==> !IsTradingDay(e)
    ensures next - from <= 3
    ensures next == FirstTradingDayAfter(from)
  {
    FirstTradingDayAfterIsFirst(from);
    next := from + 1;
    ghost var steps := 0;
    while Weekday(next) >= 5
      invariant from < next <= FirstTradingDayAfter(from)
      invariant next == from + 1 + steps && steps <= 2
      invariant forall e :: from < e < next ==> !IsTradingDay(e)
      decreases FirstTradingDayAfter(from) - next
    {
      next := next + 1;
      steps := steps + 1;
    }
  }

  /** `prev_trading_day`: step back one day at a time while on a weekend. */
  method PrevTradingDay(from: Day) returns (prev: Day)
    ensures prev < from && IsTradingDay(prev)
    ensures forall e :: prev < e < from ==> !IsTradingDay(e)
    ensures from - prev <= 3
    ensures prev == LastTradingDayBefore(from)
  {
    LastTradingDayBeforeIsLast(from);
    prev := from - 1;
    ghost var steps := 0;
    while Weekday(prev) >= 5
      invariant LastTradingDayBefore(from) <= prev < from
      invariant prev == from - 1 - steps && steps <= 2
      invariant forall e :: prev < e < from ==> !IsTradingDay(e)
      decreases prev - LastTradingDayBefore(from)
    {
      prev := prev - 1;
      steps := steps + 1;
    }
  }

  /** From a trading day, going to the next trading day and back returns it. */
  lemma PrevOfNext(d: Day)
    requires IsTradingDay(d)
    ensures LastTradingDayBefore(FirstTradingDayAfter(d)) == d
  {
    WeekdayStep(d, 1);
    WeekdayStep(d, 3);
  }

  /** And the other way round. */
  lemma NextOfPrev(d: Day)
    requires IsTradingDay(d)
    ensures FirstTradingDayAfter(LastTradingDayBefore(d)) == d
  {
    WeekdayStep(d - 3, 3);
    WeekdayStep(d - 1, 1);
  }
}
