/**
 The advisor's date-range rule: the intervals a WHERE condition allows for a partition column, and
 the 13-month limit on each of them. Names are taken as already folded to lower case.
 */
module DateIntervals {
  import opened Basics
  import opened Calendar

  const MAX_MONTHS := 13

  type Day = d: Date | d.Valid() witness Date(1, 1, 1)

  /** `table` is empty for an unqualified column; `origin` is where the column stands in the text. */
  datatype Operand =
    | Column(name: string, table: string, origin: nat)
    | Literal(day: Option<Day>)
    | Computed(id: nat)

  datatype Relation = Lt | Lte | Gt | Gte

  datatype Condition =
    | And(left: Condition, right: Condition)
    | Or(left: Condition, right: Condition)
    | Paren(inner: Condition)
    | Between(subject: Operand, low: Operand, high: Operand)
    | Compare(relation: Relation, lhs: Operand, rhs: Operand)
    | Other(id: nat)

  /** The partition column under test. */
  datatype Target = Target(column: string, table: string) {
    predicate Names(operand: Operand) {
      operand.Column? && operand.name == column && (operand.table == "" || operand.table == table)
    }
  }

  datatype Interval = Interval(low: Option<Day>, high: Option<Day>, origins: set<nat>) {
    predicate Contains(v: Day) {
      (low.Some? ==> low.value.AtMost(v)) && (high.Some? ==> v.AtMost(high.value))
    }

    predicate Bounded() {
      low.Some? && high.Some?
    }
  }

  const UNBOUNDED := Interval(None, None, {})

  // -- The abstract evaluation ----------------------------------------------------------------------

  function DateLiteral(operand: Operand): Option<Day> {
    if operand.Literal? then operand.day else None
  }

  /** The column, the literal and whether it bounds the column from below. */
  function BoundPredicate(relation: Relation, lhs: Operand, rhs: Operand): Option<(Operand, Option<Day>, bool)> {
    if lhs.Column? && rhs.Literal? then Some((lhs, rhs.day, relation.Gte? || relation.Gt?))
    else if rhs.Column? && lhs.Literal? then Some((rhs, lhs.day, relation.Lte? || relation.Lt?))
    else None
  }

  function PredicateInterval(c: Condition, target: Target): Option<Interval> {
    match c
    case Between(subject, low, high) =>
      if DateLiteral(low).None? || DateLiteral(high).None? || !target.Names(subject) then None
      else Some(Interval(DateLiteral(low), DateLiteral(high), {subject.origin}))
    case Compare(relation, lhs, rhs) =>
      var bound := BoundPredicate(relation, lhs, rhs);
      if bound.None? || bound.value.1.None? || !target.Names(bound.value.0) then None
      else if bound.value.2 then Some(Interval(bound.value.1, None, {bound.value.0.origin}))
      else Some(Interval(None, bound.value.1, {bound.value.0.origin}))
    case _ => None
  }

  function Later(a: Option<Day>, b: Option<Day>): Option<Day> {
    if a.None? then b else if b.None? || b.value.AtMost(a.value) then a else b
  }

  function Earlier(a: Option<Day>, b: Option<Day>): Option<Day> {
    if a.None? then b else if b.None? || a.value.AtMost(b.value) then a else b
  }

  function Intersect(a: Interval, b: Interval): Interval {
    Interval(Later(a.low, b.low), Earlier(a.high, b.high), a.origins + b.origins)
  }

  function Intervals(c: Condition, target: Target): set<Interval> {
    match c
    case Paren(inner) => Intervals(inner, target)
    case Or(left, right) => Intervals(left, target) + Intervals(right, target)
    case And(left, right) =>
      set a, b | a in Intervals(left, target) && b in Intervals(right, target) :: Intersect(a, b)
    case _ =>
      var interval := PredicateInterval(c, target);
      {if interval.Some? then interval.value else UNBOUNDED}
  }

  // -- What the condition means -----------------------------------------------------------------------

  predicate Before(a: Day, b: Day) {
    a.AtMost(b) && a != b
  }

  predicate Related(relation: Relation, a: Day, b: Day) {
    match relation
    case Lt => Before(a, b)
    case Lte => a.AtMost(b)
    case Gt => Before(b, a)
    case Gte => b.AtMost(a)
  }

  /** The value of an operand, when it is the target column or a date. */
  function Value(operand: Operand, target: Target, v: Day): Option<Day> {
    if target.Names(operand) then Some(v) else DateLiteral(operand)
  }

  /** The condition on a row whose target column holds `v`; `env` decides everything else about the row. */
  predicate Holds(c: Condition, target: Target, v: Day, env: Condition -> bool) {
    match c
    case And(left, right) => Holds(left, target, v, env) && Holds(right, target, v, env)
    case Or(left, right) => Holds(left, target, v, env) || Holds(right, target, v, env)
    case Paren(inner) => Holds(inner, target, v, env)
    case Between(subject, low, high) =>
      var x, from, to := Value(subject, target, v), Value(low, target, v), Value(high, target, v);
      if x.Some? && from.Some? && to.Some? then from.value.AtMost(x.value) && x.value.AtMost(to.value) else env(c)
    case Compare(relation, lhs, rhs) =>
      var x, y := Value(lhs, target, v), Value(rhs, target, v);
      if x.Some? && y.Some? then Related(relation, x.value, y.value) else env(c)
    case Other(_) => env(c)
  }

  ghost predicate Allowed(intervals: set<Interval>, v: Day) {
    exists i :: i in intervals && i.Contains(v)
  }

  lemma IntersectMeets(a: Interval, b: Interval, v: Day)
    ensures Intersect(a, b).Contains(v) <==> a.Contains(v) && b.Contains(v)
  {
  }

  lemma {:induction false} AndAllows(left: Condition, right: Condition, target: Target, v: Day)
    ensures Allowed(Intervals(And(left, right), target), v) <==>
            Allowed(Intervals(left, target), v) && Allowed(Intervals(right, target), v)
  {
    var both := Intervals(And(left, right), target);
    if Allowed(both, v) {
      var i :| i in both && i.Contains(v);
      var a, b :| a in Intervals(left, target) && b in Intervals(right, target) && i == Intersect(a, b);
      IntersectMeets(a, b, v);
    }
    if Allowed(Intervals(left, target), v) && Allowed(Intervals(right, target), v) {
      var a :| a in Intervals(left, target) && a.Contains(v);
      var b :| b in Intervals(right, target) && b.Contains(v);
      IntersectMeets(a, b, v);
      assert Intersect(a, b) in both;
    }
  }

  lemma {:induction false} OrAllows(left: Condition, right: Condition, target: Target, v: Day)
    ensures Allowed(Intervals(Or(left, right), target), v) <==>
            Allowed(Intervals(left, target), v) || Allowed(Intervals(right, target), v)
  {
  }

  predicate Atom(c: Condition) {
    c.Between? || c.Compare? || c.Other?
  }

  lemma {:induction false} AtomAllows(c: Condition, target: Target, v: Day)
    requires Atom(c)
    ensures Allowed(Intervals(c, target), v) <==>
            PredicateInterval(c, target).None? || PredicateInterval(c, target).value.Contains(v)
  {
    var interval := PredicateInterval(c, target);
    var only := if interval.Some? then interval.value else UNBOUNDED;
    assert Intervals(c, target) == {only};
    assert only in Intervals(c, target);
  }

  /** Every date that satisfies the condition lies in some interval, whatever the rest of the row. */
  lemma {:induction false} IntervalsAreSound(c: Condition, target: Target, v: Day, env: Condition -> bool)
    requires Holds(c, target, v, env)
    ensures Allowed(Intervals(c, target), v)
  {
    match c
    case And(left, right) =>
      IntervalsAreSound(left, target, v, env);
      IntervalsAreSound(right, target, v, env);
      AndAllows(left, right, target, v);
    case Or(left, right) =>
      if Holds(left, target, v, env) { IntervalsAreSound(left, target, v, env); }
      else { IntervalsAreSound(right, target, v, env); }
      OrAllows(left, right, target, v);
    case Paren(inner) => IntervalsAreSound(inner, target, v, env);
    case _ => AtomAllows(c, target, v);
  }

  /** Inclusive bounds and BETWEEN on the target column only. */
  predicate Inclusive(c: Condition, target: Target) {
    match c
    case And(left, right) => Inclusive(left, target) && Inclusive(right, target)
    case Or(left, right) => Inclusive(left, target) && Inclusive(right, target)
    case Paren(inner) => Inclusive(inner, target)
    case Compare(relation, _, _) => (relation.Lte? || relation.Gte?) && PredicateInterval(c, target).Some?
    case _ => PredicateInterval(c, target).Some?
  }

  /** For inclusive conditions the intervals are exactly the solutions. */
  lemma {:induction false} IntervalsAreExact(c: Condition, target: Target, v: Day, env: Condition -> bool)
    requires Inclusive(c, target)
    ensures Holds(c, target, v, env) <==> Allowed(Intervals(c, target), v)
  {
    match c
    case And(left, right) =>
      IntervalsAreExact(left, target, v, env);
      IntervalsAreExact(right, target, v, env);
      AndAllows(left, right, target, v);
    case Or(left, right) =>
      IntervalsAreExact(left, target, v, env);
      IntervalsAreExact(right, target, v, env);
      OrAllows(left, right, target, v);
    case Paren(inner) => IntervalsAreExact(inner, target, v, env);
    case _ => AtomAllows(c, target, v);
  }

  /** What the rule takes a comparison of the column with a date for: strict bounds as inclusive ones. */
  predicate NotAgainst(relation: Relation, v: Day, bound: Day) {
    match relation
    case Lt => v.AtMost(bound)
    case Lte => v.AtMost(bound)
    case Gt => bound.AtMost(v)
    case Gte => bound.AtMost(v)
  }

  function Flipped(relation: Relation): Relation {
    match relation
    case Lt => Gt
    case Lte => Gte
    case Gt => Lt
    case Gte => Lte
  }

  predicate IsColumn(operand: Operand, target: Target) {
    operand.Column? && operand.name == target.column && (operand.table == "" || operand.table == target.table)
  }

  /** The dates that a condition does not rule out, when strictness and everything but plain dates is disregarded. */
  predicate Permits(c: Condition, target: Target, v: Day) {
    match c
    case And(left, right) => Permits(left, target, v) && Permits(right, target, v)
    case Or(left, right) => Permits(left, target, v) || Permits(right, target, v)
    case Paren(inner) => Permits(inner, target, v)
    case Between(subject, Literal(Some(low)), Literal(Some(high))) =>
      IsColumn(subject, target) ==> low.AtMost(v) && v.AtMost(high)
    case Compare(relation, Column(name, table, origin), Literal(Some(day))) =>
      IsColumn(Column(name, table, origin), target) ==> NotAgainst(relation, v, day)
    case Compare(relation, Literal(Some(day)), Column(name, table, origin)) =>
      IsColumn(Column(name, table, origin), target) ==> NotAgainst(Flipped(relation), v, day)
    case _ => true
  }

  /** For every condition the intervals hold exactly the dates that it permits. */
  lemma {:induction false} IntervalsArePermitted(c: Condition, target: Target, v: Day)
    ensures Allowed(Intervals(c, target), v) <==> Permits(c, target, v)
  {
    match c
    case And(left, right) =>
      IntervalsArePermitted(left, target, v);
      IntervalsArePermitted(right, target, v);
      AndAllows(left, right, target, v);
    case Or(left, right) =>
      IntervalsArePermitted(left, target, v);
      IntervalsArePermitted(right, target, v);
      OrAllows(left, right, target, v);
    case Paren(inner) => IntervalsArePermitted(inner, target, v);
    case _ => AtomAllows(c, target, v);
  }

  // -- The 13-month limit ----------------------------------------------------------------------------------

  function Least(a: nat, b: nat): nat {
    if a <= b then a else b
  }

  /** The same day `months` later, or the last day of that month when it is shorter. */
  function AddMonths(d: Day, months: nat): Option<Day> {
    var total := d.month - 1 + months;
    var year, month := d.year + total / 12, total % 12 + 1;
    if year > MAX_YEAR then None else Some(Date(year, month, Least(d.day, DaysIn(year, month))))
  }

  datatype Verdict = Fine | TooWide | Raised

  function ExceedsMonthLimit(start: Day, end: Day, months: nat): Verdict {
    if Before(end, start) then Fine
    else
      var limit := AddMonths(start, months);
      if limit.None? then Raised else if Before(limit.value, end) then TooWide else Fine
  }

  function Judge(i: Interval): Verdict {
    if i.Bounded() then ExceedsMonthLimit(i.low.value, i.high.value, MAX_MONTHS) else Fine
  }

  lemma AddMonthsIndex(d: Day, months: nat)
    ensures AddMonths(d, months).Some? <==> d.MonthIndex() + months < 12 * (MAX_YEAR + 1)
    ensures AddMonths(d, months).Some? ==> AddMonths(d, months).value.MonthIndex() == d.MonthIndex() + months
  {
    var total := d.month - 1 + months;
    assert total == 12 * (total / 12) + total % 12;
  }

  lemma EarlierMonth(a: Day, b: Day)
    requires a.MonthIndex() < b.MonthIndex()
    ensures a.AtMost(b)
  {
  }

  /** Clamped addition keeps the order of dates. */
  lemma AddMonthsMonotone(a: Day, b: Day, months: nat)
    requires a.AtMost(b) && AddMonths(b, months).Some?
    ensures AddMonths(a, months).Some? && AddMonths(a, months).value.AtMost(AddMonths(b, months).value)
  {
    AddMonthsIndex(a, months);
    AddMonthsIndex(b, months);
    if a.MonthIndex() < b.MonthIndex() {
      EarlierMonth(AddMonths(a, months).value, AddMonths(b, months).value);
    } else {
      assert a.year == b.year && a.month == b.month;
    }
  }

  lemma AtMostTrans(a: Day, b: Day, c: Day)
    requires a.AtMost(b) && b.AtMost(c)
    ensures a.AtMost(c)
  {
  }

  lemma AtMostTotal(a: Day, b: Day)
    ensures a.AtMost(b) || Before(b, a)
    ensures !(a.AtMost(b) && Before(b, a))
  {
  }

  /** The limit cannot be computed from December 9998 on. */
  lemma WhenTheLimitRaises(start: Day, end: Day)
    ensures ExceedsMonthLimit(start, end, MAX_MONTHS) == Raised <==>
            start.AtMost(end) && Date(9998, 12, 1).AtMost(start)
  {
    AddMonthsIndex(start, MAX_MONTHS);
    AtMostTotal(start, end);
  }

  /** A single day for which the check raises. */
  lemma OneDayRaises() returns (day: Day)
    ensures ExceedsMonthLimit(day, day, MAX_MONTHS) == Raised
  {
    day := Date(9998, 12, 1);
  }

  /** An interval inside a bounded one that is not too wide is not too wide. */
  lemma NarrowerIsFine(a: Interval, b: Interval)
    requires a.Bounded() && Judge(a) != TooWide
    ensures Intersect(a, b).Bounded() && Judge(Intersect(a, b)) != TooWide
  {
    var i := Intersect(a, b);
    var start, end := i.low.value, i.high.value;
    assert a.low.value.AtMost(start) && end.AtMost(a.high.value);
    if Judge(i) == TooWide {
      AtMostTotal(start, end);
      AtMostTotal(a.low.value, a.high.value);
      AtMostTrans(a.low.value, start, end);
      AtMostTrans(a.low.value, end, a.high.value);
      AddMonthsMonotone(a.low.value, start, MAX_MONTHS);
      var limit := AddMonths(start, MAX_MONTHS).value;
      var aLimit := AddMonths(a.low.value, MAX_MONTHS).value;
      AtMostTotal(aLimit, a.high.value);
      AtMostTotal(a.high.value, aLimit);
      AtMostTrans(end, a.high.value, aLimit);
      AtMostTrans(end, aLimit, limit);
      AtMostTotal(end, limit);
    }
  }

  lemma IntersectCommutes(a: Interval, b: Interval)
    ensures Intersect(a, b) == Intersect(b, a)
  {
  }

  /** All intervals of the condition are bounded and none is flagged. */
  predicate Narrow(c: Condition, target: Target) {
    forall i <- Intervals(c, target) :: i.Bounded() && Judge(i) != TooWide
  }

  /** One conjunct whose intervals are all bounded and within the limit keeps the whole condition from being flagged. */
  lemma OneNarrowConjunctSuffices(left: Condition, right: Condition, target: Target)
    requires Narrow(left, target) || Narrow(right, target)
    ensures Narrow(And(left, right), target)
  {
    forall i | i in Intervals(And(left, right), target) ensures i.Bounded() && Judge(i) != TooWide {
      var a, b :| a in Intervals(left, target) && b in Intervals(right, target) && i == Intersect(a, b);
      if Narrow(left, target) {
        NarrowerIsFine(a, b);
      } else {
        IntersectCommutes(a, b);
        NarrowerIsFine(b, a);
      }
    }
  }

  /**
   No false alarm: for an inclusive condition, both ends of a flagged interval are solutions, more than 13
   months apart.
   */
  lemma {:induction false} FlaggedRangesAreReal(c: Condition, target: Target, i: Interval, env: Condition -> bool)
    requires Inclusive(c, target) && i in Intervals(c, target) && Judge(i) == TooWide
    ensures Holds(c, target, i.low.value, env) && Holds(c, target, i.high.value, env)
    ensures AddMonths(i.low.value, MAX_MONTHS).Some? && Before(AddMonths(i.low.value, MAX_MONTHS).value, i.high.value)
  {
    AtMostTotal(i.low.value, i.high.value);
    IntervalsAreExact(c, target, i.low.value, env);
    IntervalsAreExact(c, target, i.high.value, env);
  }

  /**
   No silent wide range: when nothing is flagged and all is bounded, every solution lies in a stretch within the
   limit.
   */
  lemma {:induction false} UnflaggedRangesAreNarrow(c: Condition, target: Target, v: Day, env: Condition -> bool)
    requires Holds(c, target, v, env)
    requires forall i <- Intervals(c, target) :: i.Bounded() && Judge(i) == Fine
    ensures exists i :: i in Intervals(c, target) && i.Contains(v) && i.Bounded()
              && AddMonths(i.low.value, MAX_MONTHS).Some?
              && i.high.value.AtMost(AddMonths(i.low.value, MAX_MONTHS).value)
  {
    IntervalsAreSound(c, target, v, env);
    var i :| i in Intervals(c, target) && i.Contains(v);
    AtMostTrans(i.low.value, v, i.high.value);
    AtMostTotal(i.low.value, i.high.value);
    AtMostTotal(i.high.value, AddMonths(i.low.value, MAX_MONTHS).value);
  }

  // -- The collection loop --------------------------------------------------------------------------------

  /** The ranges to report, or the error of the first interval whose limit is out of range. */
  method WideDateRanges(c: Condition, target: Target) returns (r: Result<set<(Day, Day)>, DateError>)
    ensures r.Err? <==> exists i :: i in Intervals(c, target) && Judge(i) == Raised
    ensures r.Ok? ==> forall from, to ::
              (from, to) in r.value <==>
              exists i :: i in Intervals(c, target) && Judge(i) == TooWide && i.low == Some(from) && i.high == Some(to)
  {
    var rest, found := Intervals(c, target), {};
    while rest != {}
      invariant rest <= Intervals(c, target)
      invariant forall i :: i in Intervals(c, target) - rest ==> Judge(i) != Raised
      invariant forall from, to ::
        (from, to) in found <==> exists i ::
          i in Intervals(c, target) - rest && Judge(i) == TooWide && i.low == Some(from) && i.high == Some(to)
      decreases |rest|
    {
      var i :| i in rest;
      if Judge(i) == Raised { return Err(OutOfRange); }
      if Judge(i) == TooWide { found := found + {(i.low.value, i.high.value)}; }
      rest := rest - {i};
    }
    return Ok(found);
  }
}
