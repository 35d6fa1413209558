/**
  Business days and settlement dates (`pos/generator.py`, `bank/payments.py`).

  A date is its proleptic Gregorian ordinal, so that day 1 is a Monday. A weekend is a set of
  ISO weekday numbers, Monday being 1 and Sunday 7.
*/
module Calendar {

  function IsoWeekday(d: int): int {
    if d % 7 == 0 then 7 else d % 7
  }

  /** Day 1 is a Monday, and the weekdays follow one another; 738886 is the first of January 2024, a Monday. */
  lemma WeekdaysFollow(d: int)
    ensures IsoWeekday(1) == 1 && IsoWeekday(738886) == 1
    ensures 1 <= IsoWeekday(d) <= 7 && IsoWeekday(d + 1) == (if IsoWeekday(d) == 7 then 1 else IsoWeekday(d) + 1)
  {
  }

  predicate BusinessDay(d: int, weekend: set<int>) {
    IsoWeekday(d) !in weekend
  }

  /** Some weekday is worked; without one neither loop below terminates. */
  ghost predicate Working(weekend: set<int>) {
    exists k | 1 <= k <= 7 :: k !in weekend
  }

  /** The number of business days after d, up to and including e. */
  ghost function BusinessDays(d: int, e: int, weekend: set<int>): nat
    requires d <= e
    decreases e - d
  {
    if d == e then 0
    else BusinessDays(d, e - 1, weekend) + if BusinessDay(e, weekend) then 1 else 0
  }

  /** r is the first date by which n business days after d have passed. */
  ghost predicate IsSettlementDate(d: int, n: int, weekend: set<int>, r: int) {
    && d <= r
    && BusinessDays(d, r, weekend) == n
    && forall e | d <= e < r :: BusinessDays(d, e, weekend) < n
  }

  function FirstBusinessDay(d: int, weekend: set<int>, j: nat): int
    requires 1 <= j <= 7
    decreases 7 - j
  {
    if j == 7 || BusinessDay(d + j, weekend) then d + j else FirstBusinessDay(d, weekend, j + 1)
  }

  function NextBusinessDate(d: int, weekend: set<int>): int {
    FirstBusinessDay(d, weekend, 1)
  }

  function SettlementDate(d: int, n: nat, weekend: set<int>): int {
    if n == 0 then d else NextBusinessDate(SettlementDate(d, n - 1, weekend), weekend)
  }

  // ---- the two loops ----------------------------------------------------

  /** `_expected_settlement_date`; a count of zero or less gives the sale date itself. */
  method ExpectedSettlementDate(simDate: int, settlementDays: int, weekend: set<int>) returns (result: int)
    requires settlementDays > 0 ==> Working(weekend)
    ensures IsSettlementDate(simDate, if settlementDays > 0 then settlementDays else 0, weekend, result)
  {
    result := simDate;
    var added := 0;
    while added < settlementDays
      invariant simDate <= result
      invariant BusinessDays(simDate, result, weekend) == added
      invariant 0 <= added && (settlementDays > 0 ==> added <= settlementDays)
      invariant forall e | simDate <= e < result :: BusinessDays(simDate, e, weekend) < settlementDays
      decreases settlementDays - added, NextBusinessDate(result, weekend) - result
    {
      NextIsNext(result, weekend);
      if !BusinessDay(result + 1, weekend) {
        NextSkips(result, weekend);
      }
      result := result + 1;
      if BusinessDay(result, weekend) {
        added := added + 1;
      }
    }
  }

  /** `_next_business_day` is the one-business-day settlement date. */
  method NextBusinessDay(d: int, weekend: set<int>) returns (result: int)
    requires Working(weekend)
    ensures IsSettlementDate(d, 1, weekend, result)
  {
    result := d + 1;
    while !BusinessDay(result, weekend)
      invariant d < result
      invariant BusinessDays(d, result - 1, weekend) == 0
      invariant forall e | d <= e < result :: BusinessDays(d, e, weekend) == 0
      decreases NextBusinessDate(result - 1, weekend) - result
    {
      NextIsNext(result - 1, weekend);
      NextSkips(result - 1, weekend);
      result := result + 1;
    }
  }

  // ---- the next business day --------------------------------------------

  lemma {:induction false} FirstFound(d: int, weekend: set<int>, j: nat, k: nat)
    requires 1 <= j <= k <= 7 && BusinessDay(d + k, weekend)
    ensures d + j <= FirstBusinessDay(d, weekend, j) <= d + k
    ensures BusinessDay(FirstBusinessDay(d, weekend, j), weekend)
    ensures forall e | d + j <= e < FirstBusinessDay(d, weekend, j) :: !BusinessDay(e, weekend)
    decreases 7 - j
  {
    if j < k && !BusinessDay(d + j, weekend) {
      FirstFound(d, weekend, j + 1, k);
    }
  }

  lemma NextIsNext(d: int, weekend: set<int>)
    requires Working(weekend)
    ensures d < NextBusinessDate(d, weekend) <= d + 7
    ensures BusinessDay(NextBusinessDate(d, weekend), weekend)
    ensures forall e | d < e < NextBusinessDate(d, weekend) :: !BusinessDay(e, weekend)
  {
    var w :| 1 <= w <= 7 && w !in weekend;
    var k := 1 + (w - d - 1) % 7;
    assert (d + k - w) % 7 == 0 by { assert d + k - w == -7 * ((w - d - 1) / 7); }
    assert IsoWeekday(d + k) == w;
    FirstFound(d, weekend, 1, k);
  }

  lemma NextSkips(d: int, weekend: set<int>)
    requires Working(weekend) && !BusinessDay(d + 1, weekend)
    ensures NextBusinessDate(d + 1, weekend) == NextBusinessDate(d, weekend)
  {
    NextIsNext(d, weekend);
    NextIsNext(d + 1, weekend);
  }

  // ---- counting ---------------------------------------------------------

  lemma {:induction false} CountSplits(a: int, b: int, c: int, weekend: set<int>)
    requires a <= b <= c
    ensures BusinessDays(a, c, weekend) == BusinessDays(a, b, weekend) + BusinessDays(b, c, weekend)
    decreases c - b
  {
    if b < c {
      CountSplits(a, b, c - 1, weekend);
    }
  }

  lemma {:induction false} CountNone(a: int, c: int, weekend: set<int>)
    requires a <= c && forall e | a < e <= c :: !BusinessDay(e, weekend)
    ensures BusinessDays(a, c, weekend) == 0
    decreases c - a
  {
    if a < c {
      CountNone(a, c - 1, weekend);
    }
  }

  lemma SettlementUnique(d: int, n: nat, weekend: set<int>, r: int, s: int)
    requires IsSettlementDate(d, n, weekend, r) && IsSettlementDate(d, n, weekend, s)
    ensures r == s
  {
  }

  /** The function the rest of the project uses is the date the loop finds. */
  lemma {:induction false} SettlementDateIs(d: int, n: nat, weekend: set<int>)
    requires n > 0 ==> Working(weekend)
    ensures IsSettlementDate(d, n, weekend, SettlementDate(d, n, weekend))
    decreases n
  {
    if n > 0 {
      var m := SettlementDate(d, n - 1, weekend);
      var r := SettlementDate(d, n, weekend);
      SettlementDateIs(d, n - 1, weekend);
      NextIsNext(m, weekend);
      CountSplits(d, m, r - 1, weekend);
      CountNone(m, r - 1, weekend);
      forall e | d <= e < r ensures BusinessDays(d, e, weekend) < n {
        CountSplits(d, e, r - 1, weekend);
      }
    }
  }

  /** With nothing worked, no date is ever n > 0 business days away. */
  lemma NothingWorked(d: int, n: nat, weekend: set<int>, r: int)
    requires n > 0 && !Working(weekend)
    ensures !IsSettlementDate(d, n, weekend, r)
  {
    if d <= r {
      assert forall e :: 1 <= IsoWeekday(e) <= 7;
      CountNone(d, r, weekend);
    }
  }

  // ---- laws of settlement dates -----------------------------------------

  /** Settling a days and then b days is settling a + b days. */
  lemma {:induction false} SettlementComposes(d: int, a: nat, b: nat, weekend: set<int>)
    ensures SettlementDate(SettlementDate(d, a, weekend), b, weekend) == SettlementDate(d, a + b, weekend)
    decreases b
  {
    if b > 0 {
      SettlementComposes(d, a, b - 1, weekend);
    }
  }

  /** A later sale never settles earlier. */
  lemma {:induction false} SettlementMonotone(d: int, d': int, n: nat, weekend: set<int>)
    requires d <= d' && (n > 0 ==> Working(weekend))
    ensures SettlementDate(d, n, weekend) <= SettlementDate(d', n, weekend)
  {
    SettlementDateIs(d, n, weekend);
    SettlementDateIs(d', n, weekend);
    var r, r' := SettlementDate(d, n, weekend), SettlementDate(d', n, weekend);
    CountSplits(d, d', r', weekend);
  }

  /** How many of the first k ISO weekdays are weekend days. */
  ghost function WeekendDays(weekend: set<int>, k: nat): nat {
    |set j | 1 <= j <= k && j in weekend|
  }

  lemma WeekendDaysStep(weekend: set<int>, k: nat)
    requires k > 0
    ensures WeekendDays(weekend, k) == WeekendDays(weekend, k - 1) + if k in weekend then 1 else 0
  {
    var s, t := set j | 1 <= j <= k && j in weekend, set j | 1 <= j <= k - 1 && j in weekend;
    assert s == if k in weekend then t + {k} else t;
  }

  lemma {:induction false} FirstWeek(weekend: set<int>, k: nat)
    requires k <= 7
    ensures BusinessDays(0, k, weekend) + WeekendDays(weekend, k) == k
  {
    if k == 0 {
      assert (set j | 1 <= j <= 0 && j in weekend) == {};
    } else {
      FirstWeek(weekend, k - 1);
      WeekendDaysStep(weekend, k);
    }
  }

  lemma WeekSlides(d: int, weekend: set<int>)
    ensures BusinessDays(d, d + 7, weekend) == BusinessDays(d + 1, d + 8, weekend)
  {
    CountSplits(d, d + 1, d + 8, weekend);
    assert IsoWeekday(d + 8) == IsoWeekday(d + 1);
  }

  /** Any seven consecutive days hold 7 - w business days, w being the weekend days of a week. */
  lemma {:induction false} WeekCount(d: int, weekend: set<int>)
    ensures BusinessDays(d, d + 7, weekend) + WeekendDays(weekend, 7) == 7
    decreases if d < 0 then -d else d
  {
    if d == 0 {
      FirstWeek(weekend, 7);
    } else if d > 0 {
      WeekCount(d - 1, weekend);
      WeekSlides(d - 1, weekend);
    } else {
      WeekCount(d + 1, weekend);
      WeekSlides(d, weekend);
    }
  }

  /** Closed form: 7 - w further business days are exactly one week later. */
  lemma SettlementWeekly(d: int, n: nat, weekend: set<int>)
    requires n > 0 && Working(weekend)
    ensures WeekendDays(weekend, 7) <= 7
    ensures SettlementDate(d, n + (7 - WeekendDays(weekend, 7)), weekend) == SettlementDate(d, n, weekend) + 7
  {
    var r := SettlementDate(d, n, weekend);
    WeekCount(r, weekend);
    var m := n + (7 - WeekendDays(weekend, 7));
    SettlementDateIs(d, n, weekend);
    SettlementDateIs(d, m, weekend);
    CountSplits(d, r, r + 7, weekend);
    LastIsWorked(d, n, weekend);
    assert IsoWeekday(r + 7) == IsoWeekday(r);
    forall e | d <= e < r + 7 ensures BusinessDays(d, e, weekend) < m {
      CountSplits(d, e, r + 6, weekend);
    }
    SettlementUnique(d, m, weekend, r + 7, SettlementDate(d, m, weekend));
  }

  lemma LastIsWorked(d: int, n: nat, weekend: set<int>)
    requires n > 0 && Working(weekend)
    ensures BusinessDay(SettlementDate(d, n, weekend), weekend)
  {
    NextIsNext(SettlementDate(d, n - 1, weekend), weekend);
  }

  // ---- weekends of at most two consecutive days -------------------------

  /** No three days in a row are all weekend, and of any four in a row at least two are worked. */
  ghost predicate ShortWeekend(weekend: set<int>) {
    exists k | 1 <= k <= 7 :: forall j | 1 <= j <= 7 && j in weekend :: j == k || j == k % 7 + 1
  }

  lemma WeekdayGap(d: int, e: int)
    requires 2 <= e - d <= 5
    ensures 1 <= IsoWeekday(d) <= 7 && 1 <= IsoWeekday(e) <= 7
    ensures IsoWeekday(e) != IsoWeekday(d)
    ensures IsoWeekday(e) != IsoWeekday(d) % 7 + 1
    ensures IsoWeekday(d) != IsoWeekday(e) % 7 + 1
  {
  }

  /** Two weekend days are never two to five days apart. */
  lemma WeekendDaysAdjoin(d: int, e: int, weekend: set<int>)
    requires ShortWeekend(weekend) && 2 <= e - d <= 5
    ensures BusinessDay(d, weekend) || BusinessDay(e, weekend)
  {
    var k :| 1 <= k <= 7 && forall j | 1 <= j <= 7 && j in weekend :: j == k || j == k % 7 + 1;
    WeekdayGap(d, e);
    hide IsoWeekday;
  }

  lemma ShortWeekendWorks(d: int, weekend: set<int>)
    requires ShortWeekend(weekend)
    ensures Working(weekend)
    ensures BusinessDay(d + 1, weekend) || BusinessDay(d + 3, weekend)
    ensures BusinessDay(d + 1, weekend) || BusinessDay(d + 4, weekend)
  {
    WeekendDaysAdjoin(1, 3, weekend);
    assert 1 !in weekend || 3 !in weekend;
    WeekendDaysAdjoin(d + 1, d + 3, weekend);
    WeekendDaysAdjoin(d + 1, d + 4, weekend);
  }

  /** T+1 is at most three days away, and three exactly when tomorrow and the day after are weekend. */
  lemma OneDayReach(d: int, weekend: set<int>)
    requires ShortWeekend(weekend)
    ensures Working(weekend)
    ensures d < SettlementDate(d, 1, weekend) <= d + 3
    ensures SettlementDate(d, 1, weekend) == d + 3 <==>
            !BusinessDay(d + 1, weekend) && !BusinessDay(d + 2, weekend)
  {
    ShortWeekendWorks(d, weekend);
    assert SettlementDate(d, 0, weekend) == d;
    NextIsNext(d, weekend);
  }

  /** T+2 is at most four days away. */
  lemma TwoDayReach(d: int, weekend: set<int>)
    requires ShortWeekend(weekend)
    ensures Working(weekend)
    ensures d + 1 < SettlementDate(d, 2, weekend) <= d + 4
  {
    OneDayReach(d, weekend);
    var m := SettlementDate(d, 1, weekend);
    ShortWeekendWorks(m, weekend);
    ShortWeekendWorks(d, weekend);
    ShortWeekendWorks(d + 1, weekend);
    NextIsNext(m, weekend);
  }
}
