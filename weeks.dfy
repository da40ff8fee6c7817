/** Week bucketing (`getWeekKey` in backend/index.js) on calendar days counted
    from 1970-01-01, which was a Thursday. */
module Weeks {

  /** Day of the week as Date.prototype.getDay numbers it: 0 is Sunday, 1 Monday. */
  function Weekday(d: int): (w: int)
    ensures 0 <= w < 7
  {
    (d + 4) % 7
  }

  /** 1970-01-01, day 0, was a Thursday. */
  lemma EpochThursday()
    ensures Weekday(0) == 4
  {
  }

  /** Each day's weekday follows the previous day's, Saturday wrapping to Sunday. */
  lemma WeekdayNext(d: int)
    ensures Weekday(d + 1) == (Weekday(d) + 1) % 7
  {
  }

  const Monday := 1

  /** The Monday that starts the week of day `d`: Sunday goes back six days,
      any other day goes back (weekday - 1) days. The key is a Monday, on or
      before the day and at most six days earlier. */
  function WeekKey(d: int): (k: int)
    ensures Weekday(k) == Monday
    ensures k <= d <= k + 6
  {
    var day := Weekday(d);
    d - day + (if day == 0 then -6 else 1)
  }

  /** A Monday and the six days after it all have that Monday as their key. */
  lemma WeekKeyOfWeek(k: int, d: int)
    requires Weekday(k) == Monday && k <= d <= k + 6
    ensures WeekKey(d) == k
  {
    var k' := WeekKey(d);
    assert (k' + 4) % 7 == 1 && (k + 4) % 7 == 1;
    assert -6 <= k - k' <= 6;
    assert (k - k') % 7 == 0;
  }

  /** A Monday is its own key, so the week key is idempotent. */
  lemma WeekKeyIdempotent(d: int)
    ensures WeekKey(WeekKey(d)) == WeekKey(d)
  {
    WeekKeyOfWeek(WeekKey(d), WeekKey(d));
  }

  /** Two days share a key exactly when the second lies in the Monday-to-Sunday
      week of the first. */
  lemma SameWeek(d: int, e: int)
    ensures WeekKey(d) == WeekKey(e) <==> WeekKey(d) <= e <= WeekKey(d) + 6
  {
    if WeekKey(d) <= e <= WeekKey(d) + 6 {
      WeekKeyOfWeek(WeekKey(d), e);
    }
  }

  /** Keys of later days are never earlier. */
  lemma WeekKeyMonotonic(d: int, e: int)
    requires d <= e
    ensures WeekKey(d) <= WeekKey(e)
  {
    if WeekKey(e) < WeekKey(d) {
      assert WeekKey(d) <= e <= WeekKey(d) + 6;
      WeekKeyOfWeek(WeekKey(d), e);
    }
  }
}
