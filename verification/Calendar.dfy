/**
 The two month enumerators: the preview's, which carries month and year, and the orchestrator's,
 which adds 32 days and goes back to the first.
 */
module Calendar {
  import opened Basics

  const MAX_YEAR := 9999

  datatype Date = Date(year: nat, month: nat, day: nat) {
    predicate Valid() {
      1 <= year <= MAX_YEAR && 1 <= month <= 12 && 1 <= day <= DaysIn(year, month)
    }

    predicate AtMost(other: Date) {
      || year < other.year
      || (year == other.year && (month < other.month || (month == other.month && day <= other.day)))
    }

    /** Months are numbered consecutively. */
    function MonthIndex(): int {
      12 * year + month - 1
    }
  }

  /** `date.replace` and date addition raise these. */
  datatype DateError = OutOfRange

  predicate Leap(year: nat) {
    year % 4 == 0 && (year % 100 != 0 || year % 400 == 0)
  }

  function DaysIn(year: nat, month: nat): (n: nat)
    ensures 1 <= month <= 12 ==> 28 <= n <= 31
  {
    if month == 2 then (if Leap(year) then 29 else 28)
    else if month == 4 || month == 6 || month == 9 || month == 11 then 30
    else 31
  }

  // -- Day arithmetic -------------------------------------------------------------------------------

  function NextDay(d: Date): (r: Option<Date>)
    requires d.Valid()
    ensures r.Some? ==> r.value.Valid()
  {
    if d.day < DaysIn(d.year, d.month) then Some(Date(d.year, d.month, d.day + 1))
    else if d.month < 12 then Some(Date(d.year, d.month + 1, 1))
    else if d.year < MAX_YEAR then Some(Date(d.year + 1, 1, 1))
    else None
  }

  function AddDays(d: Date, n: nat): (r: Option<Date>)
    requires d.Valid()
    ensures r.Some? ==> r.value.Valid()
    decreases n
  {
    if n == 0 then Some(d)
    else if NextDay(d).None? then None
    else AddDays(NextDay(d).value, n - 1)
  }

  /** Days before the first of January, counted from year 1. */
  function DaysBeforeYear(year: nat): int
    requires year >= 1
  {
    365 * (year - 1) + (year - 1) / 4 - (year - 1) / 100 + (year - 1) / 400
  }

  function DaysBeforeMonth(year: nat, month: nat): int {
    if month <= 1 then 0 else DaysBeforeMonth(year, month - 1) + DaysIn(year, month - 1)
  }

  /** The proleptic Gregorian ordinal. */
  function Ordinal(d: Date): int
    requires d.Valid()
  {
    DaysBeforeYear(d.year) + DaysBeforeMonth(d.year, d.month) + d.day
  }

  /** Months and leap years are the Gregorian ones. */
  lemma GregorianMonths(year: nat, month: nat)
    requires 1 <= month <= 12
    ensures DaysIn(year, month) ==
            if month == 2 then (if year % 4 == 0 && (year % 100 != 0 || year % 400 == 0) then 29 else 28)
            else if month == 4 || month == 6 || month == 9 || month == 11 then 30 else 31
  {
  }

  /** Ordinals count from the first of January of year 1. */
  lemma OrdinalsStartAtOne()
    ensures Date(1, 1, 1).Valid() && Ordinal(Date(1, 1, 1)) == 1
  {
    assert DaysBeforeYear(1) == 0;
  }

  lemma YearLength(year: nat)
    requires year >= 1
    ensures DaysBeforeYear(year + 1) - DaysBeforeYear(year) == if Leap(year) then 366 else 365
    ensures DaysBeforeMonth(year, 12) + 31 == if Leap(year) then 366 else 365
  {
    LeapDays(year);
    MonthsAddUp(year);
  }

  lemma LeapDays(year: nat)
    requires year >= 1
    ensures DaysBeforeYear(year + 1) - DaysBeforeYear(year) == if Leap(year) then 366 else 365
  {
    NextMultiple(year, 4);
    NextMultiple(year, 100);
    NextMultiple(year, 400);
    CenturiesAreLeapCandidates(year);
  }

  lemma CenturiesAreLeapCandidates(year: nat)
    ensures year % 400 == 0 ==> year % 100 == 0
    ensures year % 100 == 0 ==> year % 4 == 0
  {
    if year % 400 == 0 { Quotient(year, 100, 4 * (year / 400), 0); }
    if year % 100 == 0 { Quotient(year, 4, 25 * (year / 100), 0); }
  }

  lemma NextMultiple(n: nat, d: nat)
    requires n >= 1 && d >= 1
    ensures n / d == (n - 1) / d + if n % d == 0 then 1 else 0
  {
    var q, r := (n - 1) / d, (n - 1) % d;
    assert n == q * d + (r + 1);
    if r + 1 == d { Quotient(n, d, q + 1, 0); } else { Quotient(n, d, q, r + 1); }
  }

  lemma Quotient(n: int, d: int, q: int, r: int)
    requires n == q * d + r && 0 <= r < d
    ensures n / d == q && n % d == r
  {
    var e := n / d - q;
    assert e * d == r - n % d;
    assert e >= 1 ==> e * d >= d;
    assert e <= -1 ==> e * d <= -d;
  }

  lemma {:induction false} MonthsAddUp(year: nat)
    ensures DaysBeforeMonth(year, 12) + 31 == if Leap(year) then 366 else 365
  {
    assert DaysBeforeMonth(year, 2) == 31 && DaysBeforeMonth(year, 3) == 31 + DaysIn(year, 2);
    assert DaysBeforeMonth(year, 4) == DaysBeforeMonth(year, 3) + 31;
    assert DaysBeforeMonth(year, 5) == DaysBeforeMonth(year, 4) + 30;
    assert DaysBeforeMonth(year, 6) == DaysBeforeMonth(year, 5) + 31;
    assert DaysBeforeMonth(year, 7) == DaysBeforeMonth(year, 6) + 30;
    assert DaysBeforeMonth(year, 8) == DaysBeforeMonth(year, 7) + 31;
    assert DaysBeforeMonth(year, 9) == DaysBeforeMonth(year, 8) + 31;
    assert DaysBeforeMonth(year, 10) == DaysBeforeMonth(year, 9) + 30;
    assert DaysBeforeMonth(year, 11) == DaysBeforeMonth(year, 10) + 31;
  }

  /** Stepping through the calendar is counting: the successor's ordinal is one more. */
  lemma {:induction false} AddDaysCounts(d: Date, n: nat)
    requires d.Valid()
    ensures AddDays(d, n).Some? ==> Ordinal(AddDays(d, n).value) == Ordinal(d) + n
    decreases n
  {
    if n > 0 && NextDay(d).Some? {
      if d.day == DaysIn(d.year, d.month) && d.month == 12 { YearLength(d.year); }
      AddDaysCounts(NextDay(d).value, n - 1);
    }
  }

  lemma {:induction false} AddWithinMonth(d: Date, n: nat)
    requires d.Valid() && d.day + n <= DaysIn(d.year, d.month)
    ensures AddDays(d, n) == Some(Date(d.year, d.month, d.day + n))
    decreases n
  {
    if n > 0 { AddWithinMonth(NextDay(d).value, n - 1); }
  }

  lemma {:induction false} AddInTwo(d: Date, a: nat, b: nat)
    requires d.Valid() && AddDays(d, a).Some?
    ensures AddDays(d, a + b) == AddDays(AddDays(d, a).value, b)
    decreases a
  {
    if a > 0 { AddInTwo(NextDay(d).value, a - 1, b); }
  }

  predicate LastMonth(d: Date) {
    d.year == MAX_YEAR && d.month == 12
  }

  /** The first of the next month. */
  function NextMonth(d: Date): (r: Date)
    requires d.Valid() && !LastMonth(d)
    ensures r.Valid() && r.day == 1 && r.MonthIndex() == d.MonthIndex() + 1
  {
    if d.month == 12 then Date(d.year + 1, 1, 1) else Date(d.year, d.month + 1, 1)
  }

  lemma {:induction false} AfterLastDay(last: Date, n: nat)
    requires last.Valid() && last.day == DaysIn(last.year, last.month) && 0 < n <= 5
    ensures AddDays(last, n) == if LastMonth(last) then None else Some(NextMonth(last).(day := n))
  {
    if !LastMonth(last) { AddWithinMonth(NextMonth(last), n - 1); }
  }

  /** 32 days after the first of a month is in the next month, or out of range. */
  lemma {:induction false} ThirtyTwoDaysOn(d: Date)
    requires d.Valid() && d.day == 1
    ensures if LastMonth(d) then AddDays(d, 32).None?
            else AddDays(d, 32).Some? && AddDays(d, 32).value.(day := 1) == NextMonth(d)
  {
    var n := DaysIn(d.year, d.month);
    var last := d.(day := n);
    AddWithinMonth(d, n - 1);
    AddInTwo(d, n - 1, 33 - n);
    AfterLastDay(last, 33 - n);
  }

  // -- The months of a range ------------------------------------------------------------------------

  function FirstOf(index: int): (d: Date)
    requires 12 <= index < 12 * (MAX_YEAR + 1)
    ensures d.Valid() && d.day == 1 && d.MonthIndex() == index
  {
    Date(index / 12, index % 12 + 1, 1)
  }

  function Months(from: int, to: int): (r: seq<Date>)
    requires 12 <= from && to < 12 * (MAX_YEAR + 1)
    ensures |r| == if to < from then 0 else to - from + 1
    ensures forall k :: 0 <= k < |r| ==> r[k] == FirstOf(from + k)
  {
    seq(if to < from then 0 else to - from + 1, k requires 0 <= k < to - from + 1 => FirstOf(from + k))
  }

  /** Both enumerators step past the last month they list, which December 9999 does not allow. */
  function ExpectedMonths(start: Date, end: Date): Result<seq<Date>, DateError>
    requires start.Valid() && end.Valid()
  {
    if LastMonth(end) then Err(OutOfRange) else Ok(Months(start.MonthIndex(), end.MonthIndex()))
  }

  /** What an enumeration lists: each month from the first to the last of the range once, by its first day, in order. */
  lemma ListedMonths(start: Date, end: Date)
    requires start.Valid() && end.Valid()
    ensures ExpectedMonths(start, end).Err? <==> end.year == 9999 && end.month == 12
    ensures ExpectedMonths(start, end).Ok? ==>
              var months := ExpectedMonths(start, end).value;
              && (forall j, k :: 0 <= j < k < |months| ==> months[j].AtMost(months[k]) && months[j] != months[k])
              && forall d: Date :: d in months <==>
                   d.Valid() && d.day == 1 && start.(day := 1).AtMost(d) && d.AtMost(end)
  {
    var months := Months(start.MonthIndex(), end.MonthIndex());
    forall d: Date ensures d in months <==> d.Valid() && d.day == 1 && start.(day := 1).AtMost(d) && d.AtMost(end) {
      if d.Valid() && d.day == 1 && start.MonthIndex() <= d.MonthIndex() <= end.MonthIndex() {
        SameMonth(months[d.MonthIndex() - start.MonthIndex()], d);
      }
    }
  }

  /** A range of one day that holds a month and cannot be enumerated. */
  lemma LastDayRaises() returns (day: Date)
    ensures day.Valid() && Months(day.MonthIndex(), day.MonthIndex()) == [day.(day := 1)]
    ensures ExpectedMonths(day, day) == Err(OutOfRange)
  {
    day := Date(MAX_YEAR, 12, 31);
    OneMoreMonth(day.MonthIndex(), day.(day := 1));
  }

  lemma FirstAtMost(first: Date, end: Date)
    requires first.Valid() && end.Valid() && first.day == 1
    ensures first.AtMost(end) <==> first.MonthIndex() <= end.MonthIndex()
  {
  }

  lemma SameMonth(a: Date, b: Date)
    requires a.Valid() && b.Valid() && a.day == b.day && a.MonthIndex() == b.MonthIndex()
    ensures a == b
  {
  }

  lemma OneMoreMonth(from: int, current: Date)
    requires 12 <= from <= current.MonthIndex() && current.Valid() && current.day == 1
    ensures Months(from, current.MonthIndex() - 1) + [current] == Months(from, current.MonthIndex())
  {
    SameMonth(current, FirstOf(current.MonthIndex()));
  }

  method MonthRange(start: Date, end: Date) returns (r: Result<seq<Date>, DateError>)
    requires start.Valid() && end.Valid()
    ensures r == ExpectedMonths(start, end)
  {
    var months := [];
    var current := start.(day := 1);
    FirstAtMost(current, end);
    while current.AtMost(end)
      invariant current.Valid() && current.day == 1 && start.MonthIndex() <= current.MonthIndex()
      invariant current.MonthIndex() <= end.MonthIndex() + 1 || months == []
      invariant months == Months(start.MonthIndex(), current.MonthIndex() - 1)
      decreases end.MonthIndex() - current.MonthIndex()
    {
      FirstAtMost(current, end);
      OneMoreMonth(start.MonthIndex(), current);
      months := months + [current];
      var year := current.year + current.month / 12;
      var month := current.month % 12 + 1;
      if year > MAX_YEAR { return Err(OutOfRange); }
      current := Date(year, month, current.day);
    }
    FirstAtMost(current, end);
    return Ok(months);
  }

  method StepByDays(current: Date) returns (next: Option<Date>)
    requires current.Valid() && current.day == 1
    ensures next == if LastMonth(current) then None else Some(NextMonth(current))
  {
    ThirtyTwoDaysOn(current);
    var later := AddDays(current, 32);
    return if later.None? then None else Some(later.value.(day := 1));
  }

  method MonthlyRange(start: Date, end: Date) returns (r: Result<seq<Date>, DateError>)
    requires start.Valid() && end.Valid()
    ensures r == ExpectedMonths(start, end)
  {
    var months := [];
    var current := start.(day := 1);
    FirstAtMost(current, end);
    while current.AtMost(end)
      invariant current.Valid() && current.day == 1 && start.MonthIndex() <= current.MonthIndex()
      invariant current.MonthIndex() <= end.MonthIndex() + 1 || months == []
      invariant months == Months(start.MonthIndex(), current.MonthIndex() - 1)
      decreases end.MonthIndex() - current.MonthIndex()
    {
      FirstAtMost(current, end);
      OneMoreMonth(start.MonthIndex(), current);
      months := months + [current];
      var next := StepByDays(current);
      if next.None? { return Err(OutOfRange); }
      current := next.value;
    }
    FirstAtMost(current, end);
    return Ok(months);
  }

  // -- Windows tile the months --------------------------------------------------------------------------

  function LastDay(first: Date): (d: Date)
    requires first.Valid()
    ensures d.Valid()
  {
    first.(day := DaysIn(first.year, first.month))
  }

  predicate InWindow(first: Date, d: Date)
    requires first.Valid()
  {
    first.AtMost(d) && d.AtMost(LastDay(first))
  }

  /** Each window ends on the day before the next one starts. */
  lemma WindowsAreAdjacent(start: Date, end: Date, k: nat)
    requires start.Valid() && end.Valid()
    requires k + 1 < |Months(start.MonthIndex(), end.MonthIndex())|
    ensures var months := Months(start.MonthIndex(), end.MonthIndex());
            NextDay(LastDay(months[k])) == Some(months[k + 1])
  {
    var months := Months(start.MonthIndex(), end.MonthIndex());
    SameMonth(NextMonth(months[k]), months[k + 1]);
  }

  /** A day lies in exactly the window of its own month, so the days of the range lie in one window each. */
  lemma EveryDayInOneWindow(start: Date, end: Date, d: Date, k: nat)
    requires start.Valid() && end.Valid() && d.Valid()
    requires k < |Months(start.MonthIndex(), end.MonthIndex())|
    ensures InWindow(Months(start.MonthIndex(), end.MonthIndex())[k], d) <==> k == d.MonthIndex() - start.MonthIndex()
  {
    var first := Months(start.MonthIndex(), end.MonthIndex())[k];
    if k == d.MonthIndex() - start.MonthIndex() { SameMonth(first, d.(day := 1)); }
  }
}
