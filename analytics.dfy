/**
 * The year-bucketed sales aggregation of back/routes/statistics.py, which
 * back/routes/csv_routes.py repeats line for line: parse each row's
 * `release_date` to a year, drop rows without a year or without `total_sales`,
 * coerce the remaining sales to numbers (non-numeric ones to 0), sum per year
 * and give each year's share of the grand total in percent.
 */
module Analytics {
  import opened Wrappers
  import opened Errors

  /** A field of a stored document: key missing, present but null/NaN, or a value. */
  datatype Field<T> = Absent | Null | Present(value: T)

  /** A `total_sales` cell: a number, or text (which may or may not look numeric). */
  datatype SalesValue = Num(amount: real) | Str(text: string)

  /** One stored row; only the two columns the aggregation reads are modelled. */
  datatype Row = Row(releaseDate: Field<string>, totalSales: Field<SalesValue>)

  /** A row of the filtered frame: the row, its parsed year and its coerced sales. */
  datatype Sale = Sale(row: Row, year: int, amount: real)

  /**
   * The library behaviour the handlers rely on, left abstract:
   * `year(s)` is `pd.to_datetime(s, errors='coerce').dt.year` of one cell (None for NaT),
   * `numeric(s)` is `pd.to_numeric(s, errors='coerce')` of one text cell (None for NaN),
   * `round2` is `round(x, 2)`, `str` renders a float, `table` is
   * `DataFrame.to_string(index=False)` of a slice of the filtered frame.
   */
  datatype Pandas = Pandas(
    year: string -> Option<int>,
    numeric: string -> Option<real>,
    round2: real -> real,
    str: real -> string,
    table: seq<Sale> -> string)

  /** `pd.to_numeric(v, errors='coerce').fillna(0)` of one cell. */
  function Coerce(p: Pandas, v: SalesValue): real {
    match v
    case Num(x) => x
    case Str(t) => if p.numeric(t).Some? then p.numeric(t).value else 0.0
  }

  /** What the filter keeps of one row, if anything. */
  function Survivor(p: Pandas, r: Row): Option<Sale> {
    if r.releaseDate.Present? && r.totalSales.Present? && p.year(r.releaseDate.value).Some? then
      Some(Sale(r, p.year(r.releaseDate.value).value, Coerce(p, r.totalSales.value)))
    else None
  }

  /** The filtered frame: the surviving rows, in row order. */
  function Kept(p: Pandas, rows: seq<Row>): (kept: seq<Sale>)
    ensures |kept| <= |rows|
    ensures forall i :: 0 <= i < |kept| ==> Survivor(p, kept[i].row) == Some(kept[i])
    decreases |rows|
  {
    if rows == [] then []
    else
      var rest := Kept(p, rows[1..]);
      match Survivor(p, rows[0])
      case Some(s) => [s] + rest
      case None => rest
  }

  /**
   * The column pandas cannot find, if any. A DataFrame built from the stored
   * documents has a column exactly when some document has that key; line 16
   * reads `release_date` first, then `dropna` looks up `total_sales`.
   */
  function MissingColumn(rows: seq<Row>): Option<string> {
    if forall i | 0 <= i < |rows| :: rows[i].releaseDate.Absent? then Some("release_date")
    else if forall i | 0 <= i < |rows| :: rows[i].totalSales.Absent? then Some("total_sales")
    else None
  }

  /** Lines 15-19: the filtered frame, or the KeyError pandas raises for a missing column. */
  function PrepareFrame(p: Pandas, rows: seq<Row>): (r: Result<seq<Sale>, Exception>)
    ensures r.Failure? <==> MissingColumn(rows).Some?
    ensures r.Failure? ==> r.error == KeyError(MissingColumn(rows).value)
    ensures r.Success? ==> r.value == Kept(p, rows)
  {
    match MissingColumn(rows)
    case Some(column) => Failure(KeyError(column))
    case None => Success(Kept(p, rows))
  }

  // ---------------------------------------------------------------------------
  // Reference definitions: sums over the filtered frame

  /** The set of years present in the filtered frame. */
  function YearsOf(kept: seq<Sale>): set<int> {
    set i | 0 <= i < |kept| :: kept[i].year
  }

  /** The sum of the coerced sales of the kept rows with year `y`. */
  function SumFor(kept: seq<Sale>, y: int): real
    decreases |kept|
  {
    if kept == [] then 0.0
    else (if kept[0].year == y then kept[0].amount else 0.0) + SumFor(kept[1..], y)
  }

  /** The sum of the coerced sales of all kept rows. */
  function Total(kept: seq<Sale>): real
    decreases |kept|
  {
    if kept == [] then 0.0 else kept[0].amount + Total(kept[1..])
  }

  // ---------------------------------------------------------------------------
  // `groupby('release_year')['total_sales'].sum()`: a year-sorted series

  datatype YearTotal = YearTotal(year: int, sales: real)

  ghost predicate Ascending(g: seq<YearTotal>) {
    forall i, j :: 0 <= i < j < |g| ==> g[i].year < g[j].year
  }

  function YearSet(g: seq<YearTotal>): set<int> {
    set i | 0 <= i < |g| :: g[i].year
  }

  /** The sales the series holds for year `y` (0 when `y` has no entry). */
  function Lookup(g: seq<YearTotal>, y: int): real
    decreases |g|
  {
    if g == [] then 0.0
    else (if g[0].year == y then g[0].sales else 0.0) + Lookup(g[1..], y)
  }

  function SumSales(g: seq<YearTotal>): real
    decreases |g|
  {
    if g == [] then 0.0 else g[0].sales + SumSales(g[1..])
  }

  /** Add `a` to year `y` of a year-sorted series, opening the entry if needed. */
  function Insert(g: seq<YearTotal>, y: int, a: real): seq<YearTotal>
    decreases |g|
  {
    if g == [] then [YearTotal(y, a)]
    else if y == g[0].year then [YearTotal(y, g[0].sales + a)] + g[1..]
    else if y < g[0].year then [YearTotal(y, a)] + g
    else [g[0]] + Insert(g[1..], y, a)
  }

  function GroupByYear(kept: seq<Sale>): seq<YearTotal>
    decreases |kept|
  {
    if kept == [] then [] else Insert(GroupByYear(kept[1..]), kept[0].year, kept[0].amount)
  }

  lemma YearSetCons(x: YearTotal, h: seq<YearTotal>)
    ensures YearSet([x] + h) == {x.year} + YearSet(h)
  {
    var g := [x] + h;
    forall z | z in YearSet(g) ensures z in {x.year} + YearSet(h) {
      var i :| 0 <= i < |g| && g[i].year == z;
      if i > 0 { assert h[i - 1].year == z; }
    }
    forall z | z in YearSet(h) ensures z in YearSet(g) {
      var i :| 0 <= i < |h| && h[i].year == z;
      assert g[i + 1].year == z;
    }
    assert g[0].year == x.year;
  }

  lemma {:induction false} InsertYears(g: seq<YearTotal>, y: int, a: real)
    ensures YearSet(Insert(g, y, a)) == YearSet(g) + {y}
    decreases |g|
  {
    if g == [] {
      assert YearSet([YearTotal(y, a)]) == {y} by { YearSetCons(YearTotal(y, a), []); }
    } else if y == g[0].year {
      YearSetCons(YearTotal(y, g[0].sales + a), g[1..]);
      YearSetCons(g[0], g[1..]);
      assert [g[0]] + g[1..] == g;
    } else if y < g[0].year {
      YearSetCons(YearTotal(y, a), g);
    } else {
      InsertYears(g[1..], y, a);
      YearSetCons(g[0], Insert(g[1..], y, a));
      YearSetCons(g[0], g[1..]);
      assert [g[0]] + g[1..] == g;
    }
  }

  lemma {:induction false} InsertAscending(g: seq<YearTotal>, y: int, a: real)
    requires Ascending(g)
    ensures Ascending(Insert(g, y, a))
    decreases |g|
  {
    if g != [] && y > g[0].year {
      var h := Insert(g[1..], y, a);
      InsertAscending(g[1..], y, a);
      InsertYears(g[1..], y, a);
      forall j | 0 <= j < |h| ensures g[0].year < h[j].year {
        assert h[j].year in YearSet(h);
        if h[j].year != y {
          var k :| 0 <= k < |g[1..]| && g[1..][k].year == h[j].year;
          assert g[k + 1].year == h[j].year;
        }
      }
      assert Insert(g, y, a) == [g[0]] + h;
    }
  }

  lemma {:induction false} InsertLookup(g: seq<YearTotal>, y: int, a: real, z: int)
    ensures Lookup(Insert(g, y, a), z) == Lookup(g, z) + (if z == y then a else 0.0)
    decreases |g|
  {
    if g == [] {
    } else if y == g[0].year {
      assert ([YearTotal(y, g[0].sales + a)] + g[1..])[1..] == g[1..];
    } else if y < g[0].year {
      assert ([YearTotal(y, a)] + g)[1..] == g;
    } else {
      InsertLookup(g[1..], y, a, z);
      assert ([g[0]] + Insert(g[1..], y, a))[1..] == Insert(g[1..], y, a);
    }
  }

  lemma {:induction false} InsertSum(g: seq<YearTotal>, y: int, a: real)
    ensures SumSales(Insert(g, y, a)) == SumSales(g) + a
    decreases |g|
  {
    if g == [] {
    } else if y == g[0].year {
      assert ([YearTotal(y, g[0].sales + a)] + g[1..])[1..] == g[1..];
    } else if y < g[0].year {
      assert ([YearTotal(y, a)] + g)[1..] == g;
    } else {
      InsertSum(g[1..], y, a);
      assert ([g[0]] + Insert(g[1..], y, a))[1..] == Insert(g[1..], y, a);
    }
  }

  lemma YearsOfCons(kept: seq<Sale>)
    requires kept != []
    ensures YearsOf(kept) == {kept[0].year} + YearsOf(kept[1..])
  {
    forall z | z in YearsOf(kept) ensures z in {kept[0].year} + YearsOf(kept[1..]) {
      var i :| 0 <= i < |kept| && kept[i].year == z;
      if i > 0 { assert kept[1..][i - 1].year == z; }
    }
    forall z | z in YearsOf(kept[1..]) ensures z in YearsOf(kept) {
      var i :| 0 <= i < |kept[1..]| && kept[1..][i].year == z;
      assert kept[i + 1].year == z;
    }
  }

  /** The grouped series is year-sorted, has exactly the years of the frame, and sums them. */
  lemma {:induction false} GroupSpec(kept: seq<Sale>)
    ensures Ascending(GroupByYear(kept))
    ensures YearSet(GroupByYear(kept)) == YearsOf(kept)
    ensures forall z :: Lookup(GroupByYear(kept), z) == SumFor(kept, z)
    ensures SumSales(GroupByYear(kept)) == Total(kept)
    decreases |kept|
  {
    if kept != [] {
      var rest := GroupByYear(kept[1..]);
      var s := kept[0];
      GroupSpec(kept[1..]);
      InsertAscending(rest, s.year, s.amount);
      InsertYears(rest, s.year, s.amount);
      InsertSum(rest, s.year, s.amount);
      forall z ensures Lookup(GroupByYear(kept), z) == SumFor(kept, z) {
        InsertLookup(rest, s.year, s.amount, z);
      }
      YearsOfCons(kept);
    }
  }

  lemma {:induction false} LookupAbsent(g: seq<YearTotal>, y: int)
    requires y !in YearSet(g)
    ensures Lookup(g, y) == 0.0
    decreases |g|
  {
    if g != [] {
      assert g[0].year in YearSet(g);
      assert YearSet(g[1..]) <= YearSet(g) by {
        forall z | z in YearSet(g[1..]) ensures z in YearSet(g) {
          var k :| 0 <= k < |g[1..]| && g[1..][k].year == z;
          assert g[k + 1].year == z;
        }
      }
      LookupAbsent(g[1..], y);
    }
  }

  /** In a year-sorted series the lookup of an entry's year is that entry's sales. */
  lemma {:induction false} LookupAt(g: seq<YearTotal>, i: int)
    requires Ascending(g) && 0 <= i < |g|
    ensures Lookup(g, g[i].year) == g[i].sales
    decreases |g|
  {
    if i == 0 {
      forall k | 0 <= k < |g| - 1 ensures g[1..][k].year != g[0].year {
        assert g[1..][k] == g[k + 1];
      }
      LookupAbsent(g[1..], g[0].year);
    } else {
      assert g[0].year < g[i].year;
      assert g[1..][i - 1] == g[i];
      LookupAt(g[1..], i - 1);
    }
  }

  // ---------------------------------------------------------------------------
  // `sales_per_year / total * 100`

  /**
   * A float64 percentage. Pandas divides without a guard: a zero total gives
   * +inf, -inf or NaN according to the sign of the year's sales.
   */
  datatype Share = Finite(value: real) | PosInf | NegInf | NaN

  function Percent(sales: real, total: real): Share {
    if total != 0.0 then Finite(sales / total * 100.0)
    else if sales > 0.0 then PosInf
    else if sales < 0.0 then NegInf
    else NaN
  }

  /** One year of the aggregation, before rounding. */
  datatype YearStat = YearStat(year: int, sales: real, share: Share)

  function StatYears(r: seq<YearStat>): set<int> {
    set i | 0 <= i < |r| :: r[i].year
  }

  /**
   * Lines 21-23 (and 84-86 of csv_routes.py): one entry per distinct year of
   * the filtered frame, ascending, with that year's summed sales and its share
   * of the grand total.
   */
  function YearStats(kept: seq<Sale>): (r: seq<YearStat>)
    ensures forall i, j :: 0 <= i < j < |r| ==> r[i].year < r[j].year
    ensures StatYears(r) == YearsOf(kept) && |r| == |YearsOf(kept)|
    ensures forall i :: 0 <= i < |r| ==> r[i].sales == SumFor(kept, r[i].year)
    ensures forall i :: 0 <= i < |r| ==> r[i].share == Percent(r[i].sales, Total(kept))
  {
    var g := GroupByYear(kept);
    GroupSpec(kept);
    StatsSums(kept);
    StatsYears(kept);
    SharesOf(g, SumSales(g))
  }

  /** Each year of the series with its share of `total`. */
  function SharesOf(g: seq<YearTotal>, total: real): (r: seq<YearStat>)
    ensures |r| == |g|
    ensures forall i :: 0 <= i < |r| ==> r[i].year == g[i].year && r[i].sales == g[i].sales
    ensures forall i :: 0 <= i < |r| ==> r[i].share == Percent(g[i].sales, total)
  {
    seq(|g|, i requires 0 <= i < |g| => YearStat(g[i].year, g[i].sales, Percent(g[i].sales, total)))
  }

  lemma StatsSums(kept: seq<Sale>)
    ensures var g := GroupByYear(kept);
            var r := SharesOf(g, SumSales(g));
            forall i :: 0 <= i < |r| ==> r[i].sales == SumFor(kept, r[i].year)
  {
    var g := GroupByYear(kept);
    var r := SharesOf(g, SumSales(g));
    GroupSpec(kept);
    forall i | 0 <= i < |r| ensures r[i].sales == SumFor(kept, r[i].year) {
      LookupAt(g, i);
    }
  }

  lemma StatsYears(kept: seq<Sale>)
    ensures var g := GroupByYear(kept);
            var r := SharesOf(g, SumSales(g));
            && (forall i, j :: 0 <= i < j < |r| ==> r[i].year < r[j].year)
            && StatYears(r) == YearsOf(kept) && |r| == |YearsOf(kept)|
  {
    var g := GroupByYear(kept);
    var r := SharesOf(g, SumSales(g));
    GroupSpec(kept);
    StatYearsCount(r);
    assert StatYears(r) == YearSet(g) by {
      forall z | z in YearSet(g) ensures z in StatYears(r) {
        var i :| 0 <= i < |g| && g[i].year == z;
        assert r[i].year == z;
      }
    }
  }

  function SumStatSales(r: seq<YearStat>): real
    decreases |r|
  {
    if r == [] then 0.0 else r[0].sales + SumStatSales(r[1..])
  }

  /** The sum of the finite percentages. */
  function SumShares(r: seq<YearStat>): real
    decreases |r|
  {
    if r == [] then 0.0
    else (if r[0].share.Finite? then r[0].share.value else 0.0) + SumShares(r[1..])
  }

  lemma {:induction false} SumsAgree(r: seq<YearStat>, g: seq<YearTotal>)
    requires |r| == |g| && forall i :: 0 <= i < |r| ==> r[i].sales == g[i].sales
    ensures SumStatSales(r) == SumSales(g)
    decreases |r|
  {
    if r != [] {
      SumsAgree(r[1..], g[1..]);
    }
  }

  /** The per-year sums add up to the grand total of the filtered frame. */
  lemma SalesSumToTotal(kept: seq<Sale>)
    ensures SumStatSales(YearStats(kept)) == Total(kept)
  {
    GroupSpec(kept);
    SumsAgree(YearStats(kept), GroupByYear(kept));
  }

  lemma {:induction false} ScaledSum(r: seq<YearStat>, t: real)
    requires t != 0.0
    requires forall i :: 0 <= i < |r| ==> r[i].share == Finite(r[i].sales / t * 100.0)
    ensures SumShares(r) == SumStatSales(r) / t * 100.0
    decreases |r|
  {
    if r != [] {
      ScaledSum(r[1..], t);
      var x, y := r[0].sales, SumStatSales(r[1..]);
      assert x / t * 100.0 + y / t * 100.0 == (x + y) / t * 100.0;
    }
  }

  /** With a nonzero grand total every unrounded percentage is the year's sum over the total times 100. */
  lemma SharesAreRatios(kept: seq<Sale>)
    requires Total(kept) != 0.0
    ensures forall i :: 0 <= i < |YearStats(kept)| ==>
      YearStats(kept)[i].share == Finite(YearStats(kept)[i].sales / Total(kept) * 100.0)
  {
  }

  /** With a nonzero grand total the unrounded percentages add up to exactly 100. */
  lemma SharesSumTo100(kept: seq<Sale>)
    requires Total(kept) != 0.0
    ensures SumShares(YearStats(kept)) == 100.0
  {
    var r, t := YearStats(kept), Total(kept);
    SalesSumToTotal(kept);
    SharesAreRatios(kept);
    ScaledSum(r, t);
    WholeIsHundred(SumStatSales(r), t);
  }

  lemma WholeIsHundred(x: real, t: real)
    requires t != 0.0 && x == t
    ensures x / t * 100.0 == 100.0
  {
  }


  // ---------------------------------------------------------------------------
  // What the filter does to single rows

  lemma {:induction false} KeptConcat(p: Pandas, a: seq<Row>, b: seq<Row>)
    ensures Kept(p, a + b) == Kept(p, a) + Kept(p, b)
    decreases |a|
  {
    if a != [] {
      assert (a + b)[1..] == a[1..] + b;
      KeptConcat(p, a[1..], b);
    } else {
      assert a + b == b;
    }
  }

  lemma {:induction false} SumForConcat(a: seq<Sale>, b: seq<Sale>, z: int)
    ensures SumFor(a + b, z) == SumFor(a, z) + SumFor(b, z)
    decreases |a|
  {
    if a != [] {
      assert (a + b)[1..] == a[1..] + b;
      SumForConcat(a[1..], b, z);
    } else {
      assert a + b == b;
    }
  }

  lemma {:induction false} TotalConcat(a: seq<Sale>, b: seq<Sale>)
    ensures Total(a + b) == Total(a) + Total(b)
    decreases |a|
  {
    if a != [] {
      assert (a + b)[1..] == a[1..] + b;
      TotalConcat(a[1..], b);
    } else {
      assert a + b == b;
    }
  }

  lemma YearsOfConcat(a: seq<Sale>, b: seq<Sale>)
    ensures YearsOf(a + b) == YearsOf(a) + YearsOf(b)
  {
    var ab := a + b;
    forall z | z in YearsOf(ab) ensures z in YearsOf(a) + YearsOf(b) {
      var i :| 0 <= i < |ab| && ab[i].year == z;
      if i >= |a| { assert b[i - |a|].year == z; } else { assert a[i].year == z; }
    }
    forall z | z in YearsOf(a) + YearsOf(b) ensures z in YearsOf(ab) {
      if z in YearsOf(a) {
        var i :| 0 <= i < |a| && a[i].year == z;
        assert ab[i].year == z;
      } else {
        var i :| 0 <= i < |b| && b[i].year == z;
        assert ab[|a| + i].year == z;
      }
    }
  }

  lemma DroppedRow(p: Pandas, a: seq<Row>, r: Row, b: seq<Row>)
    requires Survivor(p, r) == None
    ensures Kept(p, a + [r] + b) == Kept(p, a + b)
  {
    KeptConcat(p, a + [r], b);
    KeptConcat(p, a, [r]);
    KeptConcat(p, a, b);
    assert Kept(p, [r]) == [] by { assert [r][1..] == []; }
  }

  /** A row the filter keeps appears in the frame in its own place, between the frames of its neighbours. */
  lemma KeptRow(p: Pandas, a: seq<Row>, r: Row, b: seq<Row>)
    requires Survivor(p, r).Some?
    ensures Kept(p, a + [r] + b) == Kept(p, a) + [Survivor(p, r).value] + Kept(p, b)
  {
    KeptConcat(p, a + [r], b);
    KeptConcat(p, a, [r]);
    assert Kept(p, [r]) == [Survivor(p, r).value] by { assert [r][1..] == []; }
  }

  /**
   * A row whose `release_date` is missing or does not parse to a date never
   * contributes to the filtered frame nor to any aggregate entry, whatever its sales.
   */
  lemma UnparsedDateNeverContributes(p: Pandas, a: seq<Row>, r: Row, b: seq<Row>)
    requires !r.releaseDate.Present? || p.year(r.releaseDate.value).None?
    ensures Kept(p, a + [r] + b) == Kept(p, a + b)
    ensures YearStats(Kept(p, a + [r] + b)) == YearStats(Kept(p, a + b))
  {
    DroppedRow(p, a, r, b);
  }

  /** A row whose `total_sales` is missing or null is dropped, even with a valid date. */
  lemma MissingSalesDropped(p: Pandas, a: seq<Row>, r: Row, b: seq<Row>)
    requires !r.totalSales.Present?
    ensures Kept(p, a + [r] + b) == Kept(p, a + b)
    ensures YearStats(Kept(p, a + [r] + b)) == YearStats(Kept(p, a + b))
  {
    DroppedRow(p, a, r, b);
  }

  lemma YearsWithOneMore(ka: seq<Sale>, s: Sale, kb: seq<Sale>)
    ensures YearsOf(ka + [s] + kb) == YearsOf(ka + kb) + {s.year}
  {
    assert ka + [s] + kb == ka + ([s] + kb);
    YearsOfConcat(ka, [s] + kb);
    YearsOfConcat([s], kb);
    YearsOfConcat(ka, kb);
    assert [s][0].year == s.year;
    assert YearsOf([s]) == {s.year};
  }

  lemma SumsWithZero(ka: seq<Sale>, s: Sale, kb: seq<Sale>)
    requires s.amount == 0.0
    ensures forall z :: SumFor(ka + [s] + kb, z) == SumFor(ka + kb, z)
    ensures Total(ka + [s] + kb) == Total(ka + kb)
  {
    assert ka + [s] + kb == ka + ([s] + kb);
    assert [s][1..] == [];
    forall z ensures SumFor(ka + [s] + kb, z) == SumFor(ka + kb, z) {
      SumForConcat(ka, [s] + kb, z);
      SumForConcat([s], kb, z);
      SumForConcat(ka, kb, z);
    }
    TotalConcat(ka, [s] + kb);
    TotalConcat([s], kb);
    TotalConcat(ka, kb);
  }

  /**
   * A row with a valid date whose `total_sales` is present but not numeric is
   * kept, with sales 0: its year gets an entry, and no sum changes.
   */
  lemma NonNumericCountsAsZero(p: Pandas, a: seq<Row>, r: Row, b: seq<Row>, y: int)
    requires r.releaseDate.Present? && p.year(r.releaseDate.value) == Some(y)
    requires r.totalSales.Present? && r.totalSales.value.Str?
    requires p.numeric(r.totalSales.value.text).None?
    ensures Kept(p, a + [r] + b) == Kept(p, a) + [Sale(r, y, 0.0)] + Kept(p, b)
    ensures YearsOf(Kept(p, a + [r] + b)) == YearsOf(Kept(p, a + b)) + {y}
    ensures forall z :: SumFor(Kept(p, a + [r] + b), z) == SumFor(Kept(p, a + b), z)
    ensures Total(Kept(p, a + [r] + b)) == Total(Kept(p, a + b))
  {
    var s := Sale(r, y, 0.0);
    KeptConcat(p, a + [r], b);
    KeptConcat(p, a, [r]);
    KeptConcat(p, a, b);
    assert Kept(p, [r]) == [s] by { assert [r][1..] == []; }
    YearsWithOneMore(Kept(p, a), s, Kept(p, b));
    SumsWithZero(Kept(p, a), s, Kept(p, b));
  }

  // ---------------------------------------------------------------------------
  // The GET /sales_stats_by_year handler

  const NoDataDetail := "Nessun dato disponibile."
  const StatsErrorDetail := "Errore durante il calcolo delle statistiche."

  /** One element of the `stats` list, rounded as the handler rounds it. */
  datatype StatEntry = StatEntry(year: int, sales: real, percentage: Share)

  datatype StatsResponse = Stats(stats: seq<StatEntry>) | StatsError(status: int, detail: string)

  /** `round(x, 2)` of a float64; infinities and NaN are left as they are. */
  function RoundShare(p: Pandas, s: Share): Share {
    if s.Finite? then Finite(p.round2(s.value)) else s
  }

  /** Line 26: each year rounded to an entry (the percentage is rounded twice, lines 23 and 26). */
  function Entries(p: Pandas, stats: seq<YearStat>): (s: seq<StatEntry>)
    ensures |s| == |stats|
    ensures forall i :: 0 <= i < |s| ==> s[i].year == stats[i].year
    ensures forall i :: 0 <= i < |s| ==> s[i].sales == p.round2(stats[i].sales)
    ensures forall i :: 0 <= i < |s| ==> s[i].percentage == RoundShare(p, RoundShare(p, stats[i].share))
  {
    seq(|stats|, i requires 0 <= i < |stats| =>
      StatEntry(stats[i].year, p.round2(stats[i].sales), RoundShare(p, RoundShare(p, stats[i].share))))
  }

  /** The entries of a non-empty frame, ascending by year, one per year, with the rounded sums and shares. */
  ghost predicate EntriesFor(p: Pandas, kept: seq<Sale>, s: seq<StatEntry>) {
    && (forall i, j :: 0 <= i < j < |s| ==> s[i].year < s[j].year)
    && (set i | 0 <= i < |s| :: s[i].year) == YearsOf(kept)
    && |s| == |YearsOf(kept)|
    && (forall i :: 0 <= i < |s| ==> s[i].sales == p.round2(SumFor(kept, s[i].year)))
    && (forall i :: 0 <= i < |s| ==>
          s[i].percentage == RoundShare(p, RoundShare(p, Percent(SumFor(kept, s[i].year), Total(kept)))))
  }

  lemma EntriesOfStats(p: Pandas, kept: seq<Sale>)
    ensures EntriesFor(p, kept, Entries(p, YearStats(kept)))
  {
    EntryYears(p, kept);
    EntrySales(p, kept);
    EntryShares(p, kept);
  }

  lemma EntryYears(p: Pandas, kept: seq<Sale>)
    ensures var s := Entries(p, YearStats(kept));
            && (forall i, j :: 0 <= i < j < |s| ==> s[i].year < s[j].year)
            && (set i | 0 <= i < |s| :: s[i].year) == YearsOf(kept)
            && |s| == |YearsOf(kept)|
  {
    var stats := YearStats(kept);
    var s := Entries(p, stats);
    forall z | z in StatYears(stats) ensures z in (set i | 0 <= i < |s| :: s[i].year) {
      var i :| 0 <= i < |stats| && stats[i].year == z;
      assert s[i].year == z;
    }
  }

  lemma EntrySales(p: Pandas, kept: seq<Sale>)
    ensures var s := Entries(p, YearStats(kept));
            forall i :: 0 <= i < |s| ==> s[i].sales == p.round2(SumFor(kept, s[i].year))
  {
  }

  lemma EntryShares(p: Pandas, kept: seq<Sale>)
    ensures var s := Entries(p, YearStats(kept));
            forall i :: 0 <= i < |s| ==>
              s[i].percentage == RoundShare(p, RoundShare(p, Percent(SumFor(kept, s[i].year), Total(kept))))
  {
  }

  /**
   * Lines 10-29, the body of the `try`: no rows raises the 404 exception, a
   * missing column raises KeyError, otherwise one rounded entry per year.
   */
  function ComputeStats(p: Pandas, rows: seq<Row>): (r: Result<seq<StatEntry>, Exception>)
    ensures rows == [] ==> r == Failure(HttpException(404, NoDataDetail))
    ensures rows != [] && MissingColumn(rows).Some? ==> r == Failure(KeyError(MissingColumn(rows).value))
    ensures r.Success? <==> rows != [] && MissingColumn(rows).None?
    ensures r.Success? ==> EntriesFor(p, Kept(p, rows), r.value)
  {
    if rows == [] then Failure(HttpException(404, NoDataDetail))
    else
      match PrepareFrame(p, rows)
      case Failure(e) => Failure(e)
      case Success(kept) =>
        EntriesOfStats(p, kept);
        Success(Entries(p, YearStats(kept)))
  }

  /**
   * The whole handler: every exception raised in the `try`, the 404 for an
   * empty row store included, is replaced by the one generic 500 response.
   */
  function SalesStatsByYear(p: Pandas, rows: seq<Row>): (r: StatsResponse)
    ensures r.StatsError? <==> rows == [] || MissingColumn(rows).Some?
    ensures r.StatsError? ==> r == StatsError(500, StatsErrorDetail)
    ensures r.Stats? ==> r.stats == ComputeStats(p, rows).value
  {
    match ComputeStats(p, rows)
    case Failure(_) => StatsError(500, StatsErrorDetail)
    case Success(s) => Stats(s)
  }

  /** A strictly year-ascending list has as many entries as distinct years. */
  lemma {:induction false} StatYearsCount(s: seq<YearStat>)
    requires forall i, j :: 0 <= i < j < |s| ==> s[i].year < s[j].year
    ensures |StatYears(s)| == |s|
    decreases |s|
  {
    if s != [] {
      var t := s[1..];
      StatYearsCount(t);
      forall k | 0 <= k < |t| ensures t[k].year != s[0].year {
        assert t[k] == s[k + 1];
      }
      assert StatYears(s) == {s[0].year} + StatYears(t) by {
        forall z | z in StatYears(s) ensures z in {s[0].year} + StatYears(t) {
          var i :| 0 <= i < |s| && s[i].year == z;
          if i > 0 { assert t[i - 1].year == z; }
        }
        forall z | z in StatYears(t) ensures z in StatYears(s) {
          var i :| 0 <= i < |t| && t[i].year == z;
          assert s[i + 1].year == z;
        }
      }
    }
  }

  /**
   * A worked example: two 2020 rows with text sales "10" and
   * "30" and one row with an unparseable date give the single entry 2020, 40, 100%.
   */
  lemma SingleYearExample(p: Pandas)
    requires p.year("2020-01-01") == Some(2020) && p.year("2020-06-01") == Some(2020)
    requires p.year("bad") == None
    requires p.numeric("10") == Some(10.0) && p.numeric("30") == Some(30.0)
    ensures var rows := [Row(Present("2020-01-01"), Present(Str("10"))),
                         Row(Present("2020-06-01"), Present(Str("30"))),
                         Row(Present("bad"), Present(Str("5")))];
            YearStats(Kept(p, rows)) == [YearStat(2020, 40.0, Finite(100.0))]
  {
    var r0, r1, r2 := Row(Present("2020-01-01"), Present(Str("10"))),
                      Row(Present("2020-06-01"), Present(Str("30"))),
                      Row(Present("bad"), Present(Str("5")));
    var rows := [r0, r1, r2];
    assert rows[1..] == [r1, r2] && rows[1..][1..] == [r2] && [r2][1..] == [];
    var kept := [Sale(r0, 2020, 10.0), Sale(r1, 2020, 30.0)];
    assert Kept(p, [r2]) == [];
    assert Kept(p, [r1, r2]) == [Sale(r1, 2020, 30.0)];
    assert Kept(p, rows) == kept;
    assert kept[1..] == [Sale(r1, 2020, 30.0)] && kept[1..][1..] == [];
    assert Total(kept[1..]) == 30.0;
    assert SumFor(kept[1..], 2020) == 30.0;
    var s := YearStats(kept);
    assert YearsOf(kept) == {2020} by {
      assert kept[0].year == 2020 && kept[1].year == 2020;
    }
    assert s[0].year == 2020 by { assert s[0].year in YearsOf(kept); }
    assert SumFor(kept, 2020) == 40.0;
    assert Total(kept) == 40.0;
    assert kept[0].year == 2020;
    assert 2020 in YearsOf(kept);
    StatYearsCount(s);
    assert s[0].sales == 40.0;
    assert s[0].share == Finite(40.0 / 40.0 * 100.0);
  }
}
