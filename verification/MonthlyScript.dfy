/**
 The script of a monthly job as a sequence of statements over a table catalog, and the retry driver
 around it. Each statement takes effect as a whole or not at all.
 */
module MonthlyScript {
  import opened Basics
  import opened Calendar
  import opened Decimals
  import opened PoolCycle

  /** Table names and their rows. */
  type Catalog<T> = map<string, seq<T>>

  datatype Query = Month(first: Date, last: Date) | UnionAll(tables: seq<string>)

  datatype Statement = DropIfExists(table: string) | CreateAs(table: string, query: Query)

  datatype Failure = TableExists(table: string) | TableMissing(table: string) | EmptyQuery

  // -- Table names --------------------------------------------------------------------------------

  /** `%Y%m`. */
  function YearMonth(d: Date): string
    requires d.Valid()
  {
    Digits(d.year) + [Digit(d.month / 10), Digit(d.month % 10)]
  }

  function TempName(base: string, d: Date): string
    requires d.Valid()
  {
    base + "_temp_" + YearMonth(d)
  }

  function FinalName(base: string): string {
    base + "_fulljoin"
  }

  /** Different months have different temporary tables. */
  lemma TempNamesDiffer(base: string, a: Date, b: Date)
    requires a.Valid() && b.Valid() && TempName(base, a) == TempName(base, b)
    ensures a.MonthIndex() == b.MonthIndex()
  {
    var x, y, n := TempName(base, a), TempName(base, b), |base| + 6;
    assert x[n..] == YearMonth(a) && y[n..] == YearMonth(b);
    var u, v := YearMonth(a), YearMonth(b);
    assert u[..|u| - 2] == Digits(a.year) && v[..|v| - 2] == Digits(b.year);
    DigitsValue(a.year);
    DigitsValue(b.year);
    assert u[|u| - 2] == v[|v| - 2] && u[|u| - 1] == v[|v| - 1];
  }

  lemma TempIsNotFinal(base: string, d: Date)
    requires d.Valid()
    ensures TempName(base, d) != FinalName(base)
  {
    assert TempName(base, d)[|base| + 1] == 't' && FinalName(base)[|base| + 1] == 'f';
  }

  // -- The script -------------------------------------------------------------------------------------

  ghost predicate AllValid(months: seq<Date>) {
    forall k :: 0 <= k < |months| ==> months[k].Valid()
  }

  function MonthStatements(base: string, first: Date): seq<Statement>
    requires first.Valid()
  {
    [DropIfExists(TempName(base, first)), CreateAs(TempName(base, first), Month(first, LastDay(first)))]
  }

  function Body(base: string, months: seq<Date>): seq<Statement>
    requires AllValid(months)
  {
    if months == [] then []
    else Body(base, months[..|months| - 1]) + MonthStatements(base, months[|months| - 1])
  }

  function Planned(base: string, months: seq<Date>): (r: seq<string>)
    requires AllValid(months)
    ensures |r| == |months| && forall k :: 0 <= k < |r| ==> r[k] == TempName(base, months[k])
  {
    seq(|months|, k requires 0 <= k < |months| && AllValid(months) => TempName(base, months[k]))
  }

  function Join(base: string, months: seq<Date>): seq<Statement>
    requires AllValid(months)
  {
    [DropIfExists(FinalName(base)), CreateAs(FinalName(base), UnionAll(Planned(base, months)))]
  }

  function Drops(tables: seq<string>): seq<Statement> {
    if tables == [] then [] else Drops(tables[..|tables| - 1]) + [DropIfExists(tables[|tables| - 1])]
  }

  function Script(base: string, months: seq<Date>): seq<Statement>
    requires AllValid(months)
  {
    Body(base, months) + Join(base, months) + Drops(Planned(base, months))
  }

  method BuildMonthlyJobQuery(base: string, start: Date, end: Date)
    returns (r: Result<(seq<Statement>, seq<string>, string), DateError>)
    requires start.Valid() && end.Valid()
    ensures if LastMonth(end) then r == Err(OutOfRange)
            else
              var months := Months(start.MonthIndex(), end.MonthIndex());
              r == Ok((Script(base, months), Planned(base, months), FinalName(base)))
  {
    var dates := MonthlyRange(start, end);
    if dates.Err? { return Err(dates.error); }
    var months := dates.value;
    var planned := PlanTables(base, months);
    var statements := MonthTables(base, months);
    statements := statements + [DropIfExists(FinalName(base)), CreateAs(FinalName(base), UnionAll(planned))];
    var script := AppendDrops(statements, planned);
    return Ok((script, planned, FinalName(base)));
  }

  method MonthTables(base: string, months: seq<Date>) returns (statements: seq<Statement>)
    requires AllValid(months)
    ensures statements == Body(base, months)
  {
    statements := [];
    for k := 0 to |months|
      invariant statements == Body(base, months[..k])
    {
      assert months[..k + 1][..k] == months[..k];
      var temp := TempName(base, months[k]);
      statements := statements + [DropIfExists(temp), CreateAs(temp, Month(months[k], LastDay(months[k])))];
    }
    assert months[..|months|] == months;
  }

  method AppendDrops(before: seq<Statement>, planned: seq<string>) returns (statements: seq<Statement>)
    ensures statements == before + Drops(planned)
  {
    statements := before;
    for k := 0 to |planned|
      invariant statements == before + Drops(planned[..k])
    {
      assert planned[..k + 1][..k] == planned[..k];
      statements := statements + [DropIfExists(planned[k])];
    }
    assert planned[..|planned|] == planned;
  }

  method PlanTables(base: string, months: seq<Date>) returns (planned: seq<string>)
    requires AllValid(months)
    ensures planned == Planned(base, months)
  {
    planned := [];
    for k := 0 to |months|
      invariant planned == Planned(base, months[..k])
    {
      planned := planned + [TempName(base, months[k])];
    }
    assert months[..|months|] == months;
  }

  // -- What a script does to a catalog ------------------------------------------------------------------

  /** The rows of a monthly query for a window, given the catalog. */
  type Evaluator<!T> = (Date, Date, Catalog<T>) -> seq<T>

  function UnionRows<T>(tables: seq<string>, cat: Catalog<T>): seq<T>
    requires forall t <- tables :: t in cat
  {
    if tables == [] then []
    else
      var n := |tables| - 1;
      assert tables[n] in tables;
      UnionRows(tables[..n], cat) + cat[tables[n]]
  }

  function FirstMissing<T>(tables: seq<string>, cat: Catalog<T>): (r: Option<string>)
    ensures r.None? <==> forall t <- tables :: t in cat
  {
    if tables == [] then None else if tables[0] !in cat then Some(tables[0]) else FirstMissing(tables[1..], cat)
  }

  function Rows<T>(eval: Evaluator<T>, query: Query, cat: Catalog<T>): Result<seq<T>, Failure> {
    match query
    case Month(first, last) => Ok(eval(first, last, cat))
    case UnionAll(tables) =>
      if tables == [] then Err(EmptyQuery)
      else if FirstMissing(tables, cat).Some? then Err(TableMissing(FirstMissing(tables, cat).value))
      else Ok(UnionRows(tables, cat))
  }

  function Exec<T>(eval: Evaluator<T>, statement: Statement, cat: Catalog<T>): Result<Catalog<T>, Failure> {
    match statement
    case DropIfExists(table) => Ok(cat - {table})
    case CreateAs(table, query) =>
      if table in cat then Err(TableExists(table))
      else
        var rows := Rows(eval, query, cat);
        if rows.Err? then Err(rows.error) else Ok(cat[table := rows.value])
  }

  /** Statements in order up to the first that fails: the catalog left behind, and the failure. */
  function Run<T>(eval: Evaluator<T>, script: seq<Statement>, cat: Catalog<T>): (Catalog<T>, Option<Failure>) {
    if script == [] then (cat, None)
    else
      var done := Exec(eval, script[0], cat);
      if done.Err? then (cat, Some(done.error)) else Run(eval, script[1..], done.value)
  }

  lemma {:induction false} RunConcat<T>(eval: Evaluator<T>, a: seq<Statement>, b: seq<Statement>, cat: Catalog<T>)
    ensures Run(eval, a + b, cat) ==
            if Run(eval, a, cat).1.Some? then Run(eval, a, cat) else Run(eval, b, Run(eval, a, cat).0)
  {
    if a == [] {
      assert a + b == b;
    } else {
      assert (a + b)[1..] == a[1..] + b;
      var done := Exec(eval, a[0], cat);
      if done.Ok? { RunConcat(eval, a[1..], b, done.value); }
    }
  }

  lemma {:induction false} RunTwo<T>(eval: Evaluator<T>, a: Statement, b: Statement, cat: Catalog<T>)
    ensures Run(eval, [a, b], cat) ==
            var first := Exec(eval, a, cat);
            if first.Err? then (cat, Some(first.error))
            else
              var second := Exec(eval, b, first.value);
              if second.Err? then (first.value, Some(second.error)) else (second.value, None)
  {
    assert [a, b][1..] == [b];
    var first := Exec(eval, a, cat);
    if first.Ok? { RunOne(eval, b, first.value); }
  }

  lemma {:induction false} RunOne<T>(eval: Evaluator<T>, a: Statement, cat: Catalog<T>)
    ensures Run(eval, [a], cat) ==
            var done := Exec(eval, a, cat);
            if done.Err? then (cat, Some(done.error)) else (done.value, None)
  {
    assert [a][1..] == [];
  }

  // -- The catalog a full run leaves -----------------------------------------------------------------------

  /** The tables the script creates and drops. */
  function Own(base: string, months: seq<Date>): set<string>
    requires AllValid(months)
  {
    (set t | t in Planned(base, months)) + {FinalName(base)}
  }

  /** The monthly queries do not read the script's own tables. */
  ghost predicate ReadsOnlyOthers<T(!new)>(eval: Evaluator<T>, own: set<string>) {
    forall first, last, cat: Catalog<T> :: eval(first, last, cat) == eval(first, last, cat - own)
  }

  function MonthRows<T>(eval: Evaluator<T>, first: Date, others: Catalog<T>): seq<T>
    requires first.Valid()
  {
    eval(first, LastDay(first), others)
  }

  /** The rows of the months in order. */
  function AllRows<T>(eval: Evaluator<T>, months: seq<Date>, others: Catalog<T>): seq<T>
    requires AllValid(months)
  {
    if months == [] then []
    else
      var n := |months| - 1;
      AllRows(eval, months[..n], others) + MonthRows(eval, months[n], others)
  }

  /** The other tables untouched, no temporary table, and the union of the months. */
  function Goal<T>(eval: Evaluator<T>, base: string, months: seq<Date>, cat: Catalog<T>): Catalog<T>
    requires AllValid(months)
  {
    var others := cat - Own(base, months);
    others[FinalName(base) := AllRows(eval, months, others)]
  }

  ghost predicate DistinctMonths(months: seq<Date>) {
    AllValid(months) && forall i, j :: 0 <= i < j < |months| ==> months[i].MonthIndex() != months[j].MonthIndex()
  }

  /** `cat` after the first `n` months: their tables filled, the other tables as they were. */
  ghost predicate Filled<T>(eval: Evaluator<T>, base: string, months: seq<Date>, n: nat, was: Catalog<T>,
      cat: Catalog<T>)
    requires AllValid(months) && n <= |months|
  {
    && cat - Own(base, months) == was - Own(base, months)
    && forall k :: 0 <= k < n ==>
         && TempName(base, months[k]) in cat
         && cat[TempName(base, months[k])] == MonthRows(eval, months[k], was - Own(base, months))
  }

  lemma SetOwn<T>(cat: Catalog<T>, own: set<string>, t: string, rows: seq<T>)
    requires t in own
    ensures (cat - {t})[t := rows] - own == cat - own
  {
  }

  /** Filling one month's table from any catalog. */
  lemma {:induction false} FillOne<T(!new)>(eval: Evaluator<T>, base: string, months: seq<Date>, n: nat,
      was: Catalog<T>, cat: Catalog<T>)
    requires DistinctMonths(months) && n < |months| && ReadsOnlyOthers(eval, Own(base, months))
    requires Filled(eval, base, months, n, was, cat)
    ensures var r := Run(eval, MonthStatements(base, months[n]), cat);
            r.1.None? && Filled(eval, base, months, n + 1, was, r.0)
  {
    var own, t := Own(base, months), TempName(base, months[n]);
    assert Planned(base, months)[n] == t && t in own;
    var cleared := cat - {t};
    var rows := eval(months[n], LastDay(months[n]), cleared);
    RunTwo(eval, DropIfExists(t), CreateAs(t, Month(months[n], LastDay(months[n]))), cat);
    SetOwn(cat, own, t, rows);
    assert cleared - own == was - own;
    assert rows == MonthRows(eval, months[n], was - own);
    forall k | 0 <= k < n ensures TempName(base, months[k]) != t {
      if TempName(base, months[k]) == t { TempNamesDiffer(base, months[k], months[n]); }
    }
  }

  lemma {:induction false} FillNext<T(!new)>(eval: Evaluator<T>, base: string, months: seq<Date>, n: nat,
      was: Catalog<T>, before: seq<Statement>)
    requires DistinctMonths(months) && n < |months| && ReadsOnlyOthers(eval, Own(base, months))
    requires Run(eval, before, was).1.None? && Filled(eval, base, months, n, was, Run(eval, before, was).0)
    ensures var r := Run(eval, before + MonthStatements(base, months[n]), was);
            r.1.None? && Filled(eval, base, months, n + 1, was, r.0)
  {
    RunConcat(eval, before, MonthStatements(base, months[n]), was);
    FillOne(eval, base, months, n, was, Run(eval, before, was).0);
  }

  lemma {:induction false} FillAll<T(!new)>(eval: Evaluator<T>, base: string, months: seq<Date>, n: nat,
      was: Catalog<T>)
    requires DistinctMonths(months) && n <= |months| && ReadsOnlyOthers(eval, Own(base, months))
    ensures var r := Run(eval, Body(base, months[..n]), was);
            r.1.None? && Filled(eval, base, months, n, was, r.0)
    decreases n
  {
    if n > 0 {
      FillAll(eval, base, months, n - 1, was);
      assert months[..n][..n - 1] == months[..n - 1];
      FillNext(eval, base, months, n - 1, was, Body(base, months[..n - 1]));
    }
  }

  /** Every month's table is in `cat`, with the month's rows. */
  ghost predicate Holding<T>(eval: Evaluator<T>, base: string, months: seq<Date>, others: Catalog<T>, cat: Catalog<T>)
    requires AllValid(months)
  {
    forall k :: 0 <= k < |months| ==>
      TempName(base, months[k]) in cat && cat[TempName(base, months[k])] == MonthRows(eval, months[k], others)
  }

  lemma {:induction false} UnionOfMonths<T>(eval: Evaluator<T>, base: string, months: seq<Date>, n: nat,
      was: Catalog<T>, cat: Catalog<T>)
    requires AllValid(months) && n <= |months| && Holding(eval, base, months, was, cat)
    ensures forall t <- Planned(base, months)[..n] :: t in cat
    ensures UnionRows(Planned(base, months)[..n], cat) == AllRows(eval, months[..n], was)
    decreases n
  {
    if n > 0 {
      UnionOfMonths(eval, base, months, n - 1, was, cat);
      assert Planned(base, months)[..n][..n - 1] == Planned(base, months)[..n - 1];
      assert months[..n][..n - 1] == months[..n - 1];
    }
  }

  /** Dropping and filling the final table once every month is filled. */
  lemma {:induction false} JoinMonths<T(!new)>(eval: Evaluator<T>, base: string, months: seq<Date>, was: Catalog<T>,
      cat: Catalog<T>)
    requires DistinctMonths(months) && months != []
    requires Filled(eval, base, months, |months|, was, cat)
    ensures var others := was - Own(base, months);
            Run(eval, Join(base, months), cat) ==
            ((cat - {FinalName(base)})[FinalName(base) := AllRows(eval, months, others)], None)
  {
    var cleared := cat - {FinalName(base)};
    UnionIsAll(eval, base, months, was, cat);
    RunTwo(eval, DropIfExists(FinalName(base)), CreateAs(FinalName(base), UnionAll(Planned(base, months))), cat);
  }

  lemma {:induction false} UnionIsAll<T>(eval: Evaluator<T>, base: string, months: seq<Date>, was: Catalog<T>,
      cat: Catalog<T>)
    requires AllValid(months) && months != [] && Filled(eval, base, months, |months|, was, cat)
    ensures Rows(eval, UnionAll(Planned(base, months)), cat - {FinalName(base)})
            == Ok(AllRows(eval, months, was - Own(base, months)))
  {
    var cleared, planned := cat - {FinalName(base)}, Planned(base, months);
    ClearingKeepsMonths(eval, base, months, was, cat);
    UnionOfAll(eval, base, months, was - Own(base, months), cleared);
    RowsOfUnion(eval, planned, cleared);
  }

  lemma {:induction false} RowsOfUnion<T>(eval: Evaluator<T>, tables: seq<string>, cat: Catalog<T>)
    requires tables != [] && forall t <- tables :: t in cat
    ensures Rows(eval, UnionAll(tables), cat) == Ok(UnionRows(tables, cat))
  {
    assert FirstMissing(tables, cat) == None;
  }

  lemma {:induction false} UnionOfAll<T>(eval: Evaluator<T>, base: string, months: seq<Date>, others: Catalog<T>,
      cat: Catalog<T>)
    requires AllValid(months) && Holding(eval, base, months, others, cat)
    ensures forall t <- Planned(base, months) :: t in cat
    ensures UnionRows(Planned(base, months), cat) == AllRows(eval, months, others)
  {
    UnionOfMonths(eval, base, months, |months|, others, cat);
    assert Planned(base, months)[..|months|] == Planned(base, months);
    assert months[..|months|] == months;
  }

  lemma ClearingKeepsMonths<T>(eval: Evaluator<T>, base: string, months: seq<Date>, was: Catalog<T>, cat: Catalog<T>)
    requires AllValid(months) && Filled(eval, base, months, |months|, was, cat)
    ensures Holding(eval, base, months, was - Own(base, months), cat - {FinalName(base)})
  {
    forall k | 0 <= k < |months| ensures TempName(base, months[k]) in cat - {FinalName(base)} {
      TempIsNotFinal(base, months[k]);
    }
  }

  lemma {:induction false} DropAll<T>(eval: Evaluator<T>, tables: seq<string>, cat: Catalog<T>)
    ensures Run(eval, Drops(tables), cat) == (cat - (set t | t in tables), None)
  {
    if tables == [] {
      assert cat - (set t | t in tables) == cat;
    } else {
      var n := |tables| - 1;
      DropAll(eval, tables[..n], cat);
      RunConcat(eval, Drops(tables[..n]), [DropIfExists(tables[n])], cat);
      var rest := cat - (set t | t in tables[..n]);
      assert [DropIfExists(tables[n])][1..] == [];
      assert tables == tables[..n] + [tables[n]];
      assert rest - {tables[n]} == cat - (set t | t in tables);
    }
  }

  lemma {:induction false} GoalReached<T>(eval: Evaluator<T>, base: string, months: seq<Date>, was: Catalog<T>,
      cat: Catalog<T>, rows: seq<T>)
    requires AllValid(months) && cat - Own(base, months) == was - Own(base, months)
    requires rows == AllRows(eval, months, was - Own(base, months))
    ensures (cat - {FinalName(base)})[FinalName(base) := rows] - (set t | t in Planned(base, months))
            == Goal(eval, base, months, was)
  {
    var final, temps := FinalName(base), set t | t in Planned(base, months);
    if final in temps {
      var k :| 0 <= k < |months| && Planned(base, months)[k] == final;
      TempIsNotFinal(base, months[k]);
    }
    var got, goal := (cat - {final})[final := rows] - temps, Goal(eval, base, months, was);
    assert got - {final} == cat - Own(base, months);
    assert goal - {final} == was - Own(base, months);
    assert got == (got - {final})[final := rows];
    assert goal == (goal - {final})[final := rows];
  }

  /** A full run from any catalog succeeds, and leaves the goal, exactly when there is a month to join. */
  lemma {:induction false} FullRun<T(!new)>(eval: Evaluator<T>, base: string, months: seq<Date>, cat: Catalog<T>)
    requires DistinctMonths(months) && ReadsOnlyOthers(eval, Own(base, months))
    ensures Run(eval, Script(base, months), cat) ==
            if months == [] then (cat - {FinalName(base)}, Some(EmptyQuery)) else (Goal(eval, base, months, cat), None)
  {
    var body, join, drops := Body(base, months), Join(base, months), Drops(Planned(base, months));
    RunConcat(eval, body + join, drops, cat);
    RunConcat(eval, body, join, cat);
    FillAll(eval, base, months, |months|, cat);
    assert months[..|months|] == months;
    var filled := Run(eval, body, cat).0;
    if months == [] {
      RunTwo(eval, join[0], join[1], filled);
    } else {
      JoinMonths(eval, base, months, cat, filled);
      DropAll(eval, Planned(base, months), Run(eval, join, filled).0);
      GoalReached(eval, base, months, cat, filled, AllRows(eval, months, cat - Own(base, months)));
    }
  }

  // -- Attempts that stop early ---------------------------------------------------------------------------

  ghost predicate Touches(script: seq<Statement>, own: set<string>) {
    forall k :: 0 <= k < |script| ==> script[k].table in own
  }

  lemma {:induction false} RunTouches<T>(eval: Evaluator<T>, script: seq<Statement>, own: set<string>, cat: Catalog<T>)
    requires Touches(script, own)
    ensures Run(eval, script, cat).0 - own == cat - own
  {
    if script != [] {
      var done := Exec(eval, script[0], cat);
      if done.Ok? {
        assert script[0].table in own;
        assert done.value - own == cat - own;
        RunTouches(eval, script[1..], own, done.value);
      }
    }
  }

  lemma {:induction false} BodyTouches(base: string, months: seq<Date>, own: set<string>)
    requires AllValid(months) && forall k :: 0 <= k < |months| ==> TempName(base, months[k]) in own
    ensures Touches(Body(base, months), own)
  {
    if months != [] { BodyTouches(base, months[..|months| - 1], own); }
  }

  lemma {:induction false} DropsTouch(tables: seq<string>, own: set<string>)
    requires forall k :: 0 <= k < |tables| ==> tables[k] in own
    ensures Touches(Drops(tables), own)
  {
    if tables != [] { DropsTouch(tables[..|tables| - 1], own); }
  }

  /** The script names no table but its own. */
  lemma ScriptTouches(base: string, months: seq<Date>)
    requires AllValid(months)
    ensures Touches(Script(base, months), Own(base, months))
  {
    var own, planned := Own(base, months), Planned(base, months);
    assert forall k :: 0 <= k < |planned| ==> planned[k] in planned;
    assert forall k :: 0 <= k < |months| ==> TempName(base, months[k]) == planned[k];
    BodyTouches(base, months, own);
    DropsTouch(planned, own);
  }

  /** One impala-shell process: cut off after some statements, or left to run to its end; a failure may be fatal. */
  datatype Attempt = CutOff(after: nat, fatal: bool) | ToTheEnd(fatal: bool)

  /** The catalog an attempt leaves and whether it counts as finished. */
  function Effect<T>(eval: Evaluator<T>, script: seq<Statement>, attempt: Attempt, cat: Catalog<T>)
    : (Catalog<T>, Verdict)
  {
    var failed := if attempt.fatal then Fatal else Retry;
    match attempt
    case CutOff(after, _) => (Run(eval, if after < |script| then script[..after] else script, cat).0, failed)
    case ToTheEnd(_) => (Run(eval, script, cat).0, if Run(eval, script, cat).1.None? then Success else failed)
  }

  /** An attempt succeeds exactly when it runs to its end without failing, and ends the job exactly when it is fatal. */
  lemma HowAnAttemptEnds<T>(eval: Evaluator<T>, script: seq<Statement>, attempt: Attempt, cat: Catalog<T>)
    ensures var verdict := Effect(eval, script, attempt, cat).1;
            && (verdict == Success <==> attempt.ToTheEnd? && Run(eval, script, cat).1.None?)
            && (verdict == Fatal <==> verdict != Success && attempt.fatal)
    ensures Effect(eval, script, attempt, cat).0 ==
            Run(eval, if attempt.CutOff? && attempt.after < |script| then script[..attempt.after] else script, cat).0
  {
  }

  function Attempts<T>(eval: Evaluator<T>, script: seq<Statement>, attempts: nat -> Attempt): Operation<Catalog<T>> {
    (n: nat, cat: Catalog<T>) => Effect(eval, script, attempts(n), cat)
  }

  lemma EffectTouches<T>(eval: Evaluator<T>, base: string, months: seq<Date>, attempt: Attempt, cat: Catalog<T>)
    requires AllValid(months)
    ensures Effect(eval, Script(base, months), attempt, cat).0 - Own(base, months) == cat - Own(base, months)
  {
    var script, own := Script(base, months), Own(base, months);
    ScriptTouches(base, months);
    RunTouches(eval, script, own, cat);
    if attempt.CutOff? && attempt.after < |script| {
      RunTouches(eval, script[..attempt.after], own, cat);
    }
  }

  lemma {:induction false} AttemptsTouch<T>(eval: Evaluator<T>, base: string, months: seq<Date>,
      attempts: nat -> Attempt, n: nat, cat: Catalog<T>)
    requires AllValid(months)
    ensures After(Attempts(eval, Script(base, months), attempts), n, cat) - Own(base, months) == cat - Own(base, months)
  {
    if n > 0 {
      AttemptsTouch(eval, base, months, attempts, n - 1, cat);
      var was := After(Attempts(eval, Script(base, months), attempts), n - 1, cat);
      EffectTouches(eval, base, months, attempts(n - 1), was);
    }
  }

  /** After any attempts, wherever they stopped, one full run gives the catalog of a single run. */
  lemma {:induction false} RestartsAreHarmless<T(!new)>(eval: Evaluator<T>, base: string, months: seq<Date>,
      attempts: nat -> Attempt, n: nat, cat: Catalog<T>)
    requires DistinctMonths(months) && months != [] && ReadsOnlyOthers(eval, Own(base, months))
    ensures var script := Script(base, months);
            Run(eval, script, After(Attempts(eval, script, attempts), n, cat)) == Run(eval, script, cat)
            == (Goal(eval, base, months, cat), None)
  {
    AttemptsTouch(eval, base, months, attempts, n, cat);
    FullRun(eval, base, months, After(Attempts(eval, Script(base, months), attempts), n, cat));
    FullRun(eval, base, months, cat);
  }

  /** An attempt succeeds exactly when it runs to its end and there is a month to join; then the goal is in place. */
  lemma EffectSucceeds<T(!new)>(eval: Evaluator<T>, base: string, months: seq<Date>, attempt: Attempt, was: Catalog<T>)
    requires DistinctMonths(months) && ReadsOnlyOthers(eval, Own(base, months))
    ensures var (after, verdict) := Effect(eval, Script(base, months), attempt, was);
            && (verdict == Success <==> months != [] && attempt.ToTheEnd?)
            && (verdict == Success ==> after == Goal(eval, base, months, was))
  {
    FullRun(eval, base, months, was);
  }

  /** The last of some attempts, whatever the earlier ones left behind. */
  lemma {:induction false} SuccessMeansGoal<T(!new)>(eval: Evaluator<T>, base: string, months: seq<Date>,
      attempts: nat -> Attempt, used: nat, cat: Catalog<T>)
    requires DistinctMonths(months) && ReadsOnlyOthers(eval, Own(base, months)) && used > 0
    ensures var op := Attempts(eval, Script(base, months), attempts);
            && (VerdictOf(op, used - 1, cat) == Success <==> months != [] && attempts(used - 1).ToTheEnd?)
            && (VerdictOf(op, used - 1, cat) == Success ==> After(op, used, cat) == Goal(eval, base, months, cat))
  {
    var op := Attempts(eval, Script(base, months), attempts);
    var was := After(op, used - 1, cat);
    AttemptsTouch(eval, base, months, attempts, used - 1, cat);
    EffectSucceeds(eval, base, months, attempts(used - 1), was);
    OneAttempt(op, used, cat);
    assert op(used - 1, was) == Effect(eval, Script(base, months), attempts(used - 1), was);
    assert Goal(eval, base, months, was) == Goal(eval, base, months, cat);
  }

  /** What the monthly job's driver leaves behind, however it ends. */
  lemma {:induction false} DriverLeavesTheGoal<T(!new)>(eval: Evaluator<T>, base: string, months: seq<Date>,
      attempts: nat -> Attempt, pools: nat, maxCycles: Option<nat>, watched: nat, cat: Catalog<T>, used: nat,
      outcome: Outcome)
    requires DistinctMonths(months) && ReadsOnlyOthers(eval, Own(base, months))
    requires Reports(Attempts(eval, Script(base, months), attempts), pools, maxCycles, watched, cat, used, outcome)
    ensures var left := After(Attempts(eval, Script(base, months), attempts), used, cat);
            && (outcome == Finished ==> left == Goal(eval, base, months, cat))
            && left - Own(base, months) == cat - Own(base, months)
            && (outcome == Finished <==> months != [] && used > 0 && attempts(used - 1).ToTheEnd?)
  {
    AttemptsTouch(eval, base, months, attempts, used, cat);
    FinishedExactly(Attempts(eval, Script(base, months), attempts), pools, maxCycles, watched, cat, used, outcome);
    if used > 0 { SuccessMeansGoal(eval, base, months, attempts, used, cat); }
  }

  // -- From the dates to the catalog ------------------------------------------------------------------------

  /** The months of a range have different tables. */
  lemma RangeMonthsAreDistinct(start: Date, end: Date)
    requires start.Valid() && end.Valid()
    ensures DistinctMonths(Months(start.MonthIndex(), end.MonthIndex()))
  {
  }

  /** For any range of dates that holds a month, the built script leaves the union of its months, whatever was there. */
  lemma {:induction false} RangeRunsToItsGoal<T(!new)>(eval: Evaluator<T>, base: string, start: Date, end: Date,
      cat: Catalog<T>)
    requires start.Valid() && end.Valid() && start.AtMost(end)
    requires ReadsOnlyOthers(eval, Own(base, Months(start.MonthIndex(), end.MonthIndex())))
    ensures var months := Months(start.MonthIndex(), end.MonthIndex());
            Run(eval, Script(base, months), cat) == (Goal(eval, base, months, cat), None)
  {
    RangeMonthsAreDistinct(start, end);
    FullRun(eval, base, Months(start.MonthIndex(), end.MonthIndex()), cat);
  }

  /** A range without a month: whatever was in the final table is gone and the script fails. */
  lemma NoMonthLosesTheTable<T(!new)>(eval: Evaluator<T>, base: string, cat: Catalog<T>)
    returns (start: Date, end: Date)
    requires ReadsOnlyOthers(eval, Own(base, []))
    ensures start.Valid() && end.Valid() && Months(start.MonthIndex(), end.MonthIndex()) == []
    ensures Run(eval, Script(base, []), cat) == (cat - {FinalName(base)}, Some(EmptyQuery))
  {
    start, end := Date(2024, 2, 1), Date(2024, 1, 31);
    FullRun(eval, base, [], cat);
  }

  const MAX_CYCLES: nat := 10

  /** The whole job: the script for the dates, then attempts on the pools until one runs to its end. */
  method ProcessMonthlyJob<T(!new)>(eval: Evaluator<T>, base: string, start: Date, end: Date, attempts: nat -> Attempt,
                                    pools: nat, before: Catalog<T>)
    returns (r: Result<(Catalog<T>, nat, Outcome), DateError>)
    requires start.Valid() && end.Valid()
    requires ReadsOnlyOthers(eval, Own(base, Months(start.MonthIndex(), end.MonthIndex())))
    ensures r.Err? <==> LastMonth(end)
    ensures r.Ok? ==>
              var months := Months(start.MonthIndex(), end.MonthIndex());
              var (cat, used, outcome) := r.value;
              && cat - Own(base, months) == before - Own(base, months)
              && (outcome == Finished ==> cat == Goal(eval, base, months, before))
              && (outcome == Finished <==> months != [] && used > 0 && attempts(used - 1).ToTheEnd?)
              && outcome != Retrying && used <= pools * 10
  {
    var built := BuildMonthlyJobQuery(base, start, end);
    if built.Err? { return Err(built.error); }
    ghost var months := Months(start.MonthIndex(), end.MonthIndex());
    var script := built.value.0;
    var cat, used, outcome :=
      CycleThroughPools(Attempts(eval, script, attempts), pools, Some(MAX_CYCLES), MAX_CYCLES, before);
    RangeMonthsAreDistinct(start, end);
    DriverLeavesTheGoal(eval, base, months, attempts, pools, Some(MAX_CYCLES), MAX_CYCLES, before, used, outcome);
    return Ok((cat, used, outcome));
  }
}
