/**
 * The comparison table `create_dataframe` produces, row by row: the five
 * column lists joined into rows, the day-over-day and month-over-month
 * differences, the sort on the month-over-month difference, rounding to
 * cents, and the Total row. Also the colour rule for the difference cells.
 */
module Report {
  const TotalCostThisMonth := "Total cost this month"
  const TotalCostLastMonth := "Total cost last month"
  const MomCostDiff := "MoM Cost Diff"
  const DodCostDiff := "DoD Cost Diff"
  const TotalLabel := "Total"

  /** The five column lists of `data`, in the order the dictionary lists them. */
  datatype TableData = TableData(
    serviceName: seq<string>,
    thisMonth: seq<real>,
    costOnDay: seq<real>,
    prevDayCost: seq<real>,
    lastMonth: seq<real>)

  predicate WellShaped(data: TableData) {
    |data.thisMonth| == |data.serviceName| && |data.costOnDay| == |data.serviceName|
    && |data.prevDayCost| == |data.serviceName| && |data.lastMonth| == |data.serviceName|
  }

  /** A row of `pd.DataFrame(data)`. */
  datatype ServiceRow = ServiceRow(service: string, thisMonth: real, costOnDay: real, prevDayCost: real, lastMonth: real)

  /** A row of the finished table; its cells follow the column order of the table. */
  datatype ReportRow = ReportRow(name: string, thisMonth: real, lastMonth: real, mom: real, costOnDay: real, dod: real)

  datatype Table = Table(columns: seq<string>, rows: seq<ReportRow>)

  /** `pd.DataFrame(data=data)`: the i-th entries of the column lists form the i-th row. */
  function Rows(data: TableData): (rows: seq<ServiceRow>)
    requires WellShaped(data)
    ensures |rows| == |data.serviceName|
    ensures forall i :: 0 <= i < |rows| ==> rows[i].service == data.serviceName[i]
  {
    seq(|data.serviceName|, i requires 0 <= i < |data.serviceName| =>
      ServiceRow(data.serviceName[i], data.thisMonth[i], data.costOnDay[i], data.prevDayCost[i], data.lastMonth[i]))
  }

  /** The DoD column, the drop of the previous day's column, and the MoM column, for one row. */
  function WithDeltas(r: ServiceRow): (d: ReportRow)
    ensures d.name == r.service && d.thisMonth == r.thisMonth && d.lastMonth == r.lastMonth && d.costOnDay == r.costOnDay
    ensures d.mom > 0.0 <==> r.thisMonth > r.lastMonth
    ensures d.dod > 0.0 <==> r.costOnDay > r.prevDayCost
    ensures d.costOnDay - d.dod == r.prevDayCost
    ensures d.thisMonth - d.mom == r.lastMonth
  {
    ReportRow(r.service, r.thisMonth, r.lastMonth, r.thisMonth - r.lastMonth, r.costOnDay, r.costOnDay - r.prevDayCost)
  }

  function AllWithDeltas(rows: seq<ServiceRow>): (out: seq<ReportRow>)
    ensures |out| == |rows|
  {
    seq(|rows|, i requires 0 <= i < |rows| => WithDeltas(rows[i]))
  }

  /** `reindex(columns=round_columns_titles)`: the column titles of the finished table. */
  function Columns(currentDayDate: string): seq<string> {
    [TotalCostThisMonth, TotalCostLastMonth, MomCostDiff, "Cost on " + currentDayDate, DodCostDiff]
  }

  // ------------------------------------------------------------------ sort

  predicate SortedByMoM(rows: seq<ReportRow>) {
    forall i, j :: 0 <= i < j < |rows| ==> rows[i].mom <= rows[j].mom
  }

  /** Places `x` before the first row whose MoM difference is at least its own. */
  function InsertByMoM(x: ReportRow, rows: seq<ReportRow>): (r: seq<ReportRow>)
    requires SortedByMoM(rows)
    ensures SortedByMoM(r)
    ensures multiset(r) == multiset(rows) + multiset{x}
    ensures |r| == |rows| + 1
  {
    if rows == [] || x.mom <= rows[0].mom then [x] + rows
    else
      var rest := InsertByMoM(x, rows[1..]);
      InsertBehindHead(x, rows, rest);
      [rows[0]] + rest
  }

  /** Putting the head of `rows` back in front of `x` inserted into the tail keeps the order. */
  lemma InsertBehindHead(x: ReportRow, rows: seq<ReportRow>, rest: seq<ReportRow>)
    requires rows != [] && SortedByMoM(rows) && rows[0].mom < x.mom
    requires SortedByMoM(rest) && multiset(rest) == multiset(rows[1..]) + multiset{x}
    ensures SortedByMoM([rows[0]] + rest)
    ensures multiset([rows[0]] + rest) == multiset(rows) + multiset{x}
  {
    assert rows == [rows[0]] + rows[1..];
    forall k | 0 <= k < |rest| ensures rows[0].mom <= rest[k].mom {
      assert rest[k] in multiset(rest);
      if rest[k] != x {
        assert rest[k] in multiset(rows[1..]);
        var j :| 0 <= j < |rows[1..]| && rows[1..][j] == rest[k];
        assert rows[j + 1] == rest[k];
      }
    }
  }

  /**
   * `sort_values(by=['MoM Cost Diff'])`: ascending by the MoM difference.
   * pandas' default quicksort is not stable, so only the order of the keys
   * and the multiset of rows are promised, not the order among equal keys.
   */
  function SortByMoM(rows: seq<ReportRow>): (r: seq<ReportRow>)
    ensures SortedByMoM(r)
    ensures multiset(r) == multiset(rows)
    ensures |r| == |rows|
  {
    if rows == [] then []
    else
      assert rows == [rows[0]] + rows[1..];
      InsertByMoM(rows[0], SortByMoM(rows[1..]))
  }

  // -------------------------------------------------------------- rounding

  /** The integer nearest to `v`, ties to the even one, as numpy's `rint`. */
  function RoundHalfEven(v: real): (n: int)
    ensures -0.5 <= n as real - v <= 0.5
    ensures (n as real - v == 0.5 || v - n as real == 0.5) ==> n % 2 == 0
  {
    var f := v.Floor;
    var frac := v - f as real;
    if frac < 0.5 then f
    else if frac > 0.5 then f + 1
    else if f % 2 == 0 then f
    else f + 1
  }

  /** `round(2)` on exact values: to the nearest cent, ties to the even cent. */
  function Round2(x: real): (r: real)
    ensures -0.005 <= r - x <= 0.005
    ensures (r * 100.0).Floor as real == r * 100.0
  {
    RoundHalfEven(x * 100.0) as real / 100.0
  }

  lemma RoundHalfEvenMonotone(v: real, w: real)
    requires v <= w
    ensures RoundHalfEven(v) <= RoundHalfEven(w)
  {
  }

  /** Rounding never reverses the order of two values. */
  lemma Round2Monotone(x: real, y: real)
    requires x <= y
    ensures Round2(x) <= Round2(y)
  {
    RoundHalfEvenMonotone(x * 100.0, y * 100.0);
  }

  function RoundRow(r: ReportRow): ReportRow {
    ReportRow(r.name, Round2(r.thisMonth), Round2(r.lastMonth), Round2(r.mom), Round2(r.costOnDay), Round2(r.dod))
  }

  function RoundAll(rows: seq<ReportRow>): (out: seq<ReportRow>)
    ensures |out| == |rows|
  {
    seq(|rows|, i requires 0 <= i < |rows| => RoundRow(rows[i]))
  }

  /** Rounding after the sort keeps the rows sorted. */
  lemma RoundKeepsSorted(rows: seq<ReportRow>)
    requires SortedByMoM(rows)
    ensures SortedByMoM(RoundAll(rows))
  {
    forall i, j | 0 <= i < j < |rows| ensures RoundAll(rows)[i].mom <= RoundAll(rows)[j].mom {
      Round2Monotone(rows[i].mom, rows[j].mom);
    }
  }

  // ----------------------------------------------------------------- total

  function AddRows(a: ReportRow, b: ReportRow): ReportRow {
    ReportRow(TotalLabel, a.thisMonth + b.thisMonth, a.lastMonth + b.lastMonth, a.mom + b.mom,
      a.costOnDay + b.costOnDay, a.dod + b.dod)
  }

  /** `sum(numeric_only=True)` labelled Total: every column summed over `rows`. */
  function ColumnSum(rows: seq<ReportRow>): (t: ReportRow)
    ensures t.name == TotalLabel
  {
    if rows == [] then ReportRow(TotalLabel, 0.0, 0.0, 0.0, 0.0, 0.0)
    else AddRows(ColumnSum(rows[..|rows| - 1]), rows[|rows| - 1])
  }

  predicate HasLabel(rows: seq<ReportRow>, name: string) {
    exists i :: 0 <= i < |rows| && rows[i].name == name
  }

  /**
   * `loc['Total'] = total`: appends the row, or, when a row is already
   * labelled Total, overwrites every such row in place.
   */
  function SetTotal(rows: seq<ReportRow>, total: ReportRow): (r: seq<ReportRow>)
    requires total.name == TotalLabel
    ensures |r| == if HasLabel(rows, TotalLabel) then |rows| else |rows| + 1
    ensures forall i :: 0 <= i < |rows| ==> r[i] == if rows[i].name == TotalLabel then total else rows[i]
    ensures |r| > |rows| ==> r[|rows|] == total
  {
    if HasLabel(rows, TotalLabel) then
      seq(|rows|, i requires 0 <= i < |rows| => if rows[i].name == TotalLabel then total else rows[i])
    else rows + [total]
  }

  /** The finished comparison table for the rows built from the two responses. */
  function MakeTable(rows: seq<ServiceRow>, currentDayDate: string): Table {
    var sorted := RoundAll(SortByMoM(AllWithDeltas(rows)));
    Table(Columns(currentDayDate), SetTotal(sorted, ColumnSum(sorted)))
  }

  // ----------------------------------------------------------- permutations

  lemma {:induction false} ColumnSumAppend(a: seq<ReportRow>, b: seq<ReportRow>)
    ensures ColumnSum(a + b) == AddRows(ColumnSum(a), ColumnSum(b))
    decreases |b|
  {
    if b == [] {
      assert a + b == a;
    } else {
      var n := |b| - 1;
      assert (a + b)[..|a + b| - 1] == a + b[..n];
      ColumnSumAppend(a, b[..n]);
    }
  }

  lemma AddRowsSwap(p: ReportRow, x: ReportRow, q: ReportRow)
    ensures AddRows(AddRows(p, x), q) == AddRows(AddRows(p, q), x)
  {
  }

  lemma RoundAllAppend(p: seq<ReportRow>, q: seq<ReportRow>)
    ensures RoundAll(p + q) == RoundAll(p) + RoundAll(q)
  {
  }

  /** Matches the last row of `a` with one occurrence in its permutation `b`; the rest still match. */
  lemma MatchLast(a: seq<ReportRow>, b: seq<ReportRow>) returns (k: int)
    requires a != [] && multiset(a) == multiset(b)
    ensures 0 <= k < |b| && b[k] == a[|a| - 1]
    ensures multiset(a[..|a| - 1]) == multiset(b[..k] + b[k + 1..])
  {
    var n := |a| - 1;
    var x := a[n];
    assert a == a[..n] + [x];
    assert multiset(a) == multiset(a[..n]) + multiset{x};
    assert x in multiset(b);
    k :| 0 <= k < |b| && b[k] == x;
    var b1, b2 := b[..k], b[k + 1..];
    assert b == b1 + [x] + b2;
    assert multiset(b) == multiset(b1) + multiset{x} + multiset(b2);
    assert multiset(b1 + b2) == multiset(b1) + multiset(b2);
    assert multiset(b1 + b2) == multiset(b) - multiset{x};
    assert multiset(a[..n]) == multiset(a) - multiset{x};
  }

  /** The column sum with one row taken out, plus that row. */
  lemma ColumnSumSplit(b: seq<ReportRow>, k: int)
    requires 0 <= k < |b|
    ensures ColumnSum(b) == AddRows(ColumnSum(b[..k] + b[k + 1..]), b[k])
  {
    var b1, b2 := b[..k], b[k + 1..];
    assert b == (b1 + [b[k]]) + b2;
    ColumnSumAppend(b1 + [b[k]], b2);
    assert (b1 + [b[k]])[..|b1|] == b1;
    ColumnSumAppend(b1, b2);
    AddRowsSwap(ColumnSum(b1), b[k], ColumnSum(b2));
  }

  /** The rounded rows with one row taken out, plus that row rounded. */
  lemma RoundAllSplit(b: seq<ReportRow>, k: int)
    requires 0 <= k < |b|
    ensures multiset(RoundAll(b)) == multiset(RoundAll(b[..k] + b[k + 1..])) + multiset{RoundRow(b[k])}
  {
    var b1, b2 := b[..k], b[k + 1..];
    var r1, r2 := RoundAll(b1), RoundAll(b2);
    assert b == b1 + ([b[k]] + b2);
    RoundAllAppend(b1, [b[k]] + b2);
    RoundAllAppend([b[k]], b2);
    assert RoundAll([b[k]]) == [RoundRow(b[k])];
    RoundAllAppend(b1, b2);
    assert RoundAll(b) == r1 + ([RoundRow(b[k])] + r2);
    assert multiset(RoundAll(b)) == multiset(r1) + multiset{RoundRow(b[k])} + multiset(r2);
  }

  /** The Total row does not depend on the order of the rows it sums. */
  lemma {:induction false} ColumnSumPermutation(a: seq<ReportRow>, b: seq<ReportRow>)
    requires multiset(a) == multiset(b)
    ensures ColumnSum(a) == ColumnSum(b)
    decreases |a|
  {
    if a != [] {
      var k := MatchLast(a, b);
      ColumnSumPermutation(a[..|a| - 1], b[..k] + b[k + 1..]);
      ColumnSumSplit(b, k);
    }
  }

  /** Rounding every row of two permutations of each other gives two permutations of each other. */
  lemma {:induction false} RoundAllPermutation(a: seq<ReportRow>, b: seq<ReportRow>)
    requires multiset(a) == multiset(b)
    ensures multiset(RoundAll(a)) == multiset(RoundAll(b))
    decreases |a|
  {
    if a != [] {
      var k := MatchLast(a, b);
      RoundAllPermutation(a[..|a| - 1], b[..k] + b[k + 1..]);
      RoundAllSplit(b, k);
      RoundAllSplit(a, |a| - 1);
      assert a[..|a| - 1] + a[|a|..] == a[..|a| - 1];
    }
  }

  // ------------------------------------------------------------ properties

  /**
   * With no service labelled Total: the table has one row per service row
   * plus a final Total row; the service rows are the built rows with their
   * differences, rounded, in ascending MoM order; the Total row is the
   * column sum of the service rows and equals the column sum of the rounded
   * rows in their original order.
   */
  lemma TableShape(rows: seq<ServiceRow>, currentDayDate: string)
    requires forall i :: 0 <= i < |rows| ==> rows[i].service != TotalLabel
    ensures var t := MakeTable(rows, currentDayDate);
      var n := |rows|;
      |t.rows| == n + 1
      && t.columns == [TotalCostThisMonth, TotalCostLastMonth, MomCostDiff, "Cost on " + currentDayDate, DodCostDiff]
      && SortedByMoM(t.rows[..n])
      && multiset(t.rows[..n]) == multiset(RoundAll(AllWithDeltas(rows)))
      && t.rows[n] == ColumnSum(t.rows[..n])
      && t.rows[n] == ColumnSum(RoundAll(AllWithDeltas(rows)))
  {
    var derived := AllWithDeltas(rows);
    var sorted := SortByMoM(derived);
    var rounded := RoundAll(sorted);
    assert !HasLabel(rounded, TotalLabel) by {
      forall i | 0 <= i < |rounded| ensures rounded[i].name != TotalLabel {
        assert rounded[i].name == sorted[i].name;
        assert sorted[i] in multiset(derived);
        var j :| 0 <= j < |derived| && derived[j] == sorted[i];
      }
    }
    var t := MakeTable(rows, currentDayDate);
    assert t.rows == rounded + [ColumnSum(rounded)];
    assert t.rows[..|rows|] == rounded;
    RoundKeepsSorted(sorted);
    RoundAllPermutation(sorted, derived);
    ColumnSumPermutation(rounded, RoundAll(derived));
  }

  /**
   * Every service row of the table is the rounded, delta-extended form of
   * some built row; `TableShape`'s multiset equation gives the converse.
   */
  lemma TableLabels(rows: seq<ServiceRow>, currentDayDate: string, i: int)
    requires forall k :: 0 <= k < |rows| ==> rows[k].service != TotalLabel
    requires 0 <= i < |rows|
    ensures exists j :: 0 <= j < |rows| && MakeTable(rows, currentDayDate).rows[i] == RoundRow(WithDeltas(rows[j]))
  {
    TableShape(rows, currentDayDate);
    var t := MakeTable(rows, currentDayDate);
    var r := t.rows[i];
    assert r in multiset(t.rows[..|rows|]) by {
      assert t.rows[..|rows|][i] == r;
    }
    var d := RoundAll(AllWithDeltas(rows));
    assert r in multiset(d);
    var j :| 0 <= j < |d| && d[j] == r;
  }

  /**
   * A service named Total is overwritten by `loc['Total']` instead of being
   * followed by an appended Total row: the table has one row per service,
   * every row labelled Total holds the column sum (so that service's own
   * figures appear only inside the sum), and every other row is unchanged.
   */
  lemma ServiceNamedTotalIsOverwritten(rows: seq<ServiceRow>, currentDayDate: string, k: int)
    requires 0 <= k < |rows| && rows[k].service == TotalLabel
    ensures |MakeTable(rows, currentDayDate).rows| == |rows|
    ensures var s := RoundAll(SortByMoM(AllWithDeltas(rows)));
      var t := MakeTable(rows, currentDayDate);
      |t.rows| == |s| && forall i :: 0 <= i < |s| ==> t.rows[i] == if s[i].name == TotalLabel then ColumnSum(s) else s[i]
  {
    var derived := AllWithDeltas(rows);
    var sorted := SortByMoM(derived);
    assert derived[k].name == TotalLabel;
    assert derived[k] in multiset(sorted) by {
      assert derived[k] in multiset(derived);
    }
    var p :| 0 <= p < |sorted| && sorted[p] == derived[k];
    assert RoundAll(sorted)[p].name == TotalLabel;
    assert HasLabel(RoundAll(sorted), TotalLabel);
  }

  // ---------------------------------------------------------------- colour

  /** `color_cell`: red for a cost increase, green for zero or a decrease. */
  function ColorCell(cell: real): (style: string)
    ensures style == "color: red" <==> cell > 0.0
    ensures style == "color: green" <==> cell <= 0.0
  {
    "color: " + (if cell > 0.0 then "red" else "green")
  }
}
