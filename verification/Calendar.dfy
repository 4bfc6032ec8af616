/** Calendar months of the Asia/Jakarta zone. A period `YYYY-MM` is the month index `12 * YYYY + MM - 1`,
    a date is a day number, and a moment is a number of seconds; all count from 0000-01-01. */
module Calendar {

  const SECONDS_PER_DAY: int := 86400

  /** Western Indonesia Time is seven hours ahead, so its days begin earlier on the common time line. */
  const WIB_OFFSET: int := 7 * 3600

  predicate IsLeap(year: nat) {
    year % 4 == 0 && (year % 100 != 0 || year % 400 == 0)
  }

  function DaysIn(month: nat): (days: nat)
    ensures 28 <= days <= 31
  {
    var inYear := month % 12;
    if inYear == 1 then (if IsLeap(month / 12) then 29 else 28)
    else if inYear in {3, 5, 8, 10} then 30
    else 31
  }

  function FirstDay(month: nat): nat {
    if month == 0 then 0 else FirstDay(month - 1) + DaysIn(month - 1)
  }

  /** The moment a month begins in Jakarta. */
  function MonthStart(month: nat): int {
    FirstDay(month) * SECONDS_PER_DAY - WIB_OFFSET
  }

  lemma {:induction false} FirstDayIncreases(a: nat, b: nat)
    requires a < b
    ensures FirstDay(a) + 28 * (b - a) <= FirstDay(b)
  {
    if a < b - 1 {
      FirstDayIncreases(a, b - 1);
    }
  }

  lemma MonthStartIncreases(a: nat, b: nat)
    requires a <= b
    ensures MonthStart(a) <= MonthStart(b)
    ensures a < b ==> MonthStart(a) < MonthStart(b)
  {
    if a < b {
      FirstDayIncreases(a, b);
    }
  }

  function MonthFrom(date: nat, month: nat): (m: nat)
    requires FirstDay(month) <= date
    ensures FirstDay(m) <= date < FirstDay(m + 1)
    decreases date - FirstDay(month)
  {
    if date < FirstDay(month + 1) then month else MonthFrom(date, month + 1)
  }

  /** The month a date falls in. */
  function MonthOf(date: nat): (m: nat)
    ensures FirstDay(m) <= date < FirstDay(m + 1)
  {
    MonthFrom(date, 0)
  }

  lemma MonthInYear(year: nat, k: nat)
    requires k < 12
    ensures (12 * year + k) % 12 == k && (12 * year + k) / 12 == year
  {
  }

  /** Days of a year before its month `k`. */
  function DaysBefore(leap: bool, k: nat): nat
    requires k <= 12
  {
    [0, 31, 59, 90, 120, 151, 181, 212, 243, 273, 304, 334, 365][k] + if leap && k >= 2 then 1 else 0
  }

  lemma {:induction false} MonthBegins(year: nat, k: nat)
    requires k <= 12
    ensures FirstDay(12 * year + k) == FirstDay(12 * year) + DaysBefore(IsLeap(year), k)
  {
    if k > 0 {
      MonthBegins(year, k - 1);
      MonthInYear(year, k - 1);
      assert FirstDay(12 * year + k) == FirstDay(12 * year + k - 1) + DaysIn(12 * year + k - 1);
    }
  }

  /** Leap years before the year: those divisible by 4, less those divisible by 100, plus those divisible by 400. */
  function LeapsBefore(year: nat): int {
    (year + 3) / 4 - (year + 99) / 100 + (year + 399) / 400
  }

  lemma LeapsCounted(year: nat)
    ensures LeapsBefore(year + 1) == LeapsBefore(year) + if IsLeap(year) then 1 else 0
  {
    assert (year + 4) / 4 == (year + 3) / 4 + if year % 4 == 0 then 1 else 0;
    assert (year + 100) / 100 == (year + 99) / 100 + if year % 100 == 0 then 1 else 0;
    assert (year + 400) / 400 == (year + 399) / 400 + if year % 400 == 0 then 1 else 0;
    assert year % 100 == 0 ==> year % 4 == 0;
    assert year % 400 == 0 ==> year % 100 == 0;
  }

  lemma NextYear(year: nat)
    ensures FirstDay(12 * (year + 1)) == FirstDay(12 * year) + 365 + if IsLeap(year) then 1 else 0
  {
    MonthBegins(year, 12);
  }

  /** Every year has 365 days, and one more if it is a leap year. */
  lemma {:induction false} YearStart(year: nat)
    ensures FirstDay(12 * year) == 365 * year + LeapsBefore(year)
  {
    if year > 0 {
      YearStart(year - 1);
      NextYear(year - 1);
      LeapsCounted(year - 1);
    }
  }
}
