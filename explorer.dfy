/**
 * The `CostExplorer` class: the constructor fixes today's reporting periods
 * and the two cost-and-usage queries; `FormatAsTable` joins the two responses
 * into the comparison table, using `CalculateMonthlyCost` for the month
 * totals and `CreateDataframe` for the table steps.
 */
module Explorer {
  import opened Wrappers
  import opened Dates
  import opened Periods
  import opened Billing
  import opened Report

  /** The `TimePeriod` argument of a query: ISO start (inclusive) and end (exclusive). */
  datatype TimePeriod = TimePeriod(start: string, end: string)

  datatype GroupDefinition = GroupDefinition(key: string, kind: string)

  /** The keyword arguments of one `get_cost_and_usage` call. */
  datatype Query = Query(timePeriod: TimePeriod, metrics: seq<string>, granularity: string, groupBy: seq<GroupDefinition>)

  /** `get_timeperiod`: both dates in ISO form; each string reads back as its date. */
  function GetTimePeriod(start: Date, end: Date): (p: TimePeriod)
    requires Valid(start) && Valid(end)
    ensures FromIsoFormat(p.start) == Some(start)
    ensures FromIsoFormat(p.end) == Some(end)
  {
    IsoRoundTrip(start);
    IsoRoundTrip(end);
    TimePeriod(IsoFormat(start), IsoFormat(end))
  }

  /** Daily unblended cost grouped by service over the window. */
  function DailyByService(w: Window): Query
    requires Valid(w.start) && Valid(w.end)
  {
    Query(GetTimePeriod(w.start, w.end), ["UNBLENDED_COST"], "DAILY", [GroupDefinition("SERVICE", "DIMENSION")])
  }

  /** Whether `calculate_monthly_cost` drops the first day for this `month` argument. */
  predicate DropsLookback(month: string, secondDayOfMonth: bool) {
    month == "current" && secondDayOfMonth
  }

  /**
   * The five column lists `format_as_table` builds: one entry per group of
   * the current response's last day, in that order.
   */
  function BuildData(current: seq<Day>, previous: seq<Day>, secondDayOfMonth: bool): (data: TableData)
    requires |current| >= 2
    ensures WellShaped(data)
    ensures |data.serviceName| == |current[|current| - 1].groups|
    ensures forall i :: 0 <= i < |data.serviceName| ==> data.serviceName[i] == current[|current| - 1].groups[i].key
  {
    var today := current[|current| - 1].groups;
    var yesterday := current[|current| - 2].groups;
    TableData(
      seq(|today|, i requires 0 <= i < |today| => today[i].key),
      seq(|today|, i requires 0 <= i < |today| => MonthlyCost(current, today[i].key, secondDayOfMonth)),
      seq(|today|, i requires 0 <= i < |today| => today[i].amount),
      seq(|today|, i requires 0 <= i < |today| => CostOn(yesterday, today[i].key)),
      seq(|today|, i requires 0 <= i < |today| => MonthlyCost(previous, today[i].key, false)))
  }

  /**
   * The first `i` entries of five column lists agree with the groups of the
   * last day: the loop invariant of `format_as_table`'s column building.
   */
  predicate ColumnsUpTo(current: seq<Day>, previous: seq<Day>, secondDayOfMonth: bool, i: int,
    names: seq<string>, thisMonth: seq<real>, costOnDay: seq<real>, prevDayCost: seq<real>, lastMonth: seq<real>)
    requires |current| >= 2
  {
    var today := current[|current| - 1].groups;
    0 <= i <= |today|
    && |names| == i && |thisMonth| == i && |costOnDay| == i && |prevDayCost| == i && |lastMonth| == i
    && (forall k :: 0 <= k < i ==> names[k] == today[k].key)
    && (forall k :: 0 <= k < i ==> thisMonth[k] == MonthlyCost(current, today[k].key, secondDayOfMonth))
    && (forall k :: 0 <= k < i ==> costOnDay[k] == today[k].amount)
    && (forall k :: 0 <= k < i ==> prevDayCost[k] == CostOn(current[|current| - 2].groups, today[k].key))
    && (forall k :: 0 <= k < i ==> lastMonth[k] == MonthlyCost(previous, today[k].key, false))
  }

  /** Appending the entries for group `i` extends the agreement to `i + 1` groups. */
  lemma ColumnsStep(current: seq<Day>, previous: seq<Day>, secondDayOfMonth: bool, i: int,
    names: seq<string>, thisMonth: seq<real>, costOnDay: seq<real>, prevDayCost: seq<real>, lastMonth: seq<real>)
    requires |current| >= 2
    requires ColumnsUpTo(current, previous, secondDayOfMonth, i, names, thisMonth, costOnDay, prevDayCost, lastMonth)
    requires i < |current[|current| - 1].groups|
    ensures var g := current[|current| - 1].groups[i];
      ColumnsUpTo(current, previous, secondDayOfMonth, i + 1, names + [g.key],
        thisMonth + [MonthlyCost(current, g.key, secondDayOfMonth)], costOnDay + [g.amount],
        prevDayCost + [CostOn(current[|current| - 2].groups, g.key)],
        lastMonth + [MonthlyCost(previous, g.key, false)])
  {
    var today := current[|current| - 1].groups;
    var g := today[i];
    var names', thisMonth' := names + [g.key], thisMonth + [MonthlyCost(current, g.key, secondDayOfMonth)];
    var costOnDay', prevDayCost' := costOnDay + [g.amount], prevDayCost + [CostOn(current[|current| - 2].groups, g.key)];
    var lastMonth' := lastMonth + [MonthlyCost(previous, g.key, false)];
    forall k | 0 <= k < i + 1
      ensures names'[k] == today[k].key
      ensures thisMonth'[k] == MonthlyCost(current, today[k].key, secondDayOfMonth)
      ensures costOnDay'[k] == today[k].amount
      ensures prevDayCost'[k] == CostOn(current[|current| - 2].groups, today[k].key)
      ensures lastMonth'[k] == MonthlyCost(previous, today[k].key, false)
    {
      if k < i {
        assert names'[k] == names[k] && thisMonth'[k] == thisMonth[k] && costOnDay'[k] == costOnDay[k];
        assert prevDayCost'[k] == prevDayCost[k] && lastMonth'[k] == lastMonth[k];
      }
    }
  }

  /** Column lists that agree with every group of the last day are exactly `BuildData`. */
  lemma ColumnsComplete(current: seq<Day>, previous: seq<Day>, secondDayOfMonth: bool,
    names: seq<string>, thisMonth: seq<real>, costOnDay: seq<real>, prevDayCost: seq<real>, lastMonth: seq<real>)
    requires |current| >= 2
    requires ColumnsUpTo(current, previous, secondDayOfMonth, |current[|current| - 1].groups|,
      names, thisMonth, costOnDay, prevDayCost, lastMonth)
    ensures TableData(names, thisMonth, costOnDay, prevDayCost, lastMonth) == BuildData(current, previous, secondDayOfMonth)
  {
  }

  /** The comparison table for the two responses (at least two current days). */
  function ReportFor(current: seq<Day>, previous: seq<Day>, secondDayOfMonth: bool): Table
    requires |current| >= 2
  {
    MakeTable(Rows(BuildData(current, previous, secondDayOfMonth)), current[|current| - 1].start)
  }

  /** The j-th built row joins the j-th group of the last day with its other three figures. */
  lemma BuiltRow(current: seq<Day>, previous: seq<Day>, secondDayOfMonth: bool, j: int)
    requires |current| >= 2 && 0 <= j < |current[|current| - 1].groups|
    ensures var g := current[|current| - 1].groups[j];
      var rows := Rows(BuildData(current, previous, secondDayOfMonth));
      |rows| == |current[|current| - 1].groups|
      && rows[j] == ServiceRow(g.key, MonthlyCost(current, g.key, secondDayOfMonth), g.amount,
        CostOn(current[|current| - 2].groups, g.key), MonthlyCost(previous, g.key, false))
  {
  }

  /**
   * With no service of the last day keyed Total, the table has one service
   * row per group of the current response's last day, plus the Total row
   * last. Each service row belongs to a group of that day: its cost on the
   * day is the group's amount, its DoD difference is that amount less the
   * service's cost on the day before (0 when absent), its month totals come
   * from the two responses, and its MoM difference is their difference, all
   * rounded to cents. Services seen only on earlier days or in the previous
   * month have no row.
   */
  lemma ReportRowsComeFromLastDay(current: seq<Day>, previous: seq<Day>, secondDayOfMonth: bool, i: int)
    requires |current| >= 2
    requires forall g :: g in current[|current| - 1].groups ==> g.key != TotalLabel
    requires 0 <= i < |current[|current| - 1].groups|
    ensures var t := ReportFor(current, previous, secondDayOfMonth);
      var today := current[|current| - 1].groups;
      |t.rows| == |today| + 1
      && t.rows[|today|].name == TotalLabel
      && exists j :: 0 <= j < |today| && t.rows[i] == RoundRow(WithDeltas(ServiceRow(today[j].key,
        MonthlyCost(current, today[j].key, secondDayOfMonth), today[j].amount,
        CostOn(current[|current| - 2].groups, today[j].key), MonthlyCost(previous, today[j].key, false))))
  {
    var today := current[|current| - 1].groups;
    var rows := Rows(BuildData(current, previous, secondDayOfMonth));
    forall k | 0 <= k < |rows| ensures rows[k].service != TotalLabel {
      assert today[k] in today;
    }
    TableShape(rows, current[|current| - 1].start);
    TableLabels(rows, current[|current| - 1].start, i);
    var t := ReportFor(current, previous, secondDayOfMonth);
    var j :| 0 <= j < |rows| && t.rows[i] == RoundRow(WithDeltas(rows[j]));
    BuiltRow(current, previous, secondDayOfMonth, j);
  }

  /**
   * A service keyed Total on the last day is not followed by an appended
   * Total row: `loc['Total']` overwrites it, so the table has one row per
   * group and no more.
   */
  lemma LastDayServiceNamedTotal(current: seq<Day>, previous: seq<Day>, secondDayOfMonth: bool, k: int)
    requires |current| >= 2
    requires 0 <= k < |current[|current| - 1].groups| && current[|current| - 1].groups[k].key == TotalLabel
    ensures |ReportFor(current, previous, secondDayOfMonth).rows| == |current[|current| - 1].groups|
  {
    BuiltRow(current, previous, secondDayOfMonth, k);
    ServiceNamedTotalIsOverwritten(Rows(BuildData(current, previous, secondDayOfMonth)), current[|current| - 1].start, k);
  }

  /**
   * Day-over-day example: yesterday {A: 10.0}, today {A: 12.005, B: 3.0}.
   * A's difference is 2.005, which rounds half to even to 2.00; B is absent
   * yesterday, so its previous-day cost is 0 and its difference is 3.0.
   */
  lemma ExampleDeltas()
    ensures var current := [Day("2021-09-01", [Group("A", 10.0)]), Day("2021-09-02", [Group("A", 12.005), Group("B", 3.0)])];
      var rows := AllWithDeltas(Rows(BuildData(current, [], false)));
      |rows| == 2
      && rows[0].name == "A" && rows[0].dod == 2.005 && Round2(rows[0].dod) == 2.0
      && rows[1].name == "B" && rows[1].dod == 3.0 && Round2(rows[1].dod) == 3.0
  {
    var yesterday := [Group("A", 10.0)];
    var today := [Group("A", 12.005), Group("B", 3.0)];
    assert CostOn(yesterday, "A") == 10.0 by {
      assert yesterday[0].key == "A";
    }
    assert CostOn(yesterday, "B") == 0.0 by {
      assert yesterday[0].key != "B";
    }
    var current := [Day("2021-09-01", yesterday), Day("2021-09-02", today)];
    var rows := AllWithDeltas(Rows(BuildData(current, [], false)));
    assert rows[0].dod == 12.005 - 10.0 == 2.005;
    assert rows[1].dod == 3.0 - 0.0;
    assert 2.005 * 100.0 == 200.5;
    assert (200.5).Floor == 200;
    assert RoundHalfEven(200.5) == 200;
    assert (300.0).Floor == 300;
    assert RoundHalfEven(300.0) == 300;
  }

  /**
   * The inner scan of `format_as_table`: the amount of the first group of the
   * previous day keyed `serviceName`, or 0.0 when the service has none.
   */
  method PreviousDayCost(serviceCostListPrevDay: seq<Group>, serviceName: string) returns (previousDayServiceCost: real)
    ensures previousDayServiceCost == CostOn(serviceCostListPrevDay, serviceName)
  {
    previousDayServiceCost := 0.0;
    var j := 0;
    while j < |serviceCostListPrevDay|
      invariant 0 <= j <= |serviceCostListPrevDay|
      invariant forall k :: 0 <= k < j ==> serviceCostListPrevDay[k].key != serviceName
      invariant previousDayServiceCost == 0.0
    {
      if serviceCostListPrevDay[j].key == serviceName {
        previousDayServiceCost := serviceCostListPrevDay[j].amount;
        break;
      }
      j := j + 1;
    }
  }

  class CostExplorer {
    const secondDayOfMonth: bool
    const dailyReportPreviousMonthKwargs: Query
    const dailyReportCurrentMonthKwargs: Query

    /** `__init__`, with the clock's date passed in as `today`. */
    constructor (today: Date)
      requires InRange(today)
      ensures secondDayOfMonth == SecondDayOfMonth(today)
      ensures dailyReportPreviousMonthKwargs == DailyByService(PreviousWindow(today))
      ensures dailyReportCurrentMonthKwargs == DailyByService(CurrentWindow(today))
    {
      var firstDayOfCurrentMonth := Date(today.year, today.month, 1);
      if today == firstDayOfCurrentMonth {
        firstDayOfCurrentMonth := MinusMonth(firstDayOfCurrentMonth);
      }
      assert firstDayOfCurrentMonth == FirstOfCurrentMonth(today);
      var firstDayOfPreviousMonth := MinusMonth(firstDayOfCurrentMonth);
      secondDayOfMonth := today.day == 2;
      var relativePrevMonthDate := MinusMonth(today);
      assert Window(firstDayOfPreviousMonth, relativePrevMonthDate) == PreviousWindow(today);
      var metrics := ["UNBLENDED_COST"];
      var groupBy := [GroupDefinition("SERVICE", "DIMENSION")];
      dailyReportPreviousMonthKwargs :=
        Query(GetTimePeriod(firstDayOfPreviousMonth, relativePrevMonthDate), metrics, "DAILY", groupBy);
      var start := if today.day == 2 then MinusDay(firstDayOfCurrentMonth) else firstDayOfCurrentMonth;
      assert Window(start, today) == CurrentWindow(today);
      dailyReportCurrentMonthKwargs := Query(GetTimePeriod(start, today), metrics, "DAILY", groupBy);
    }

    /**
     * `calculate_monthly_cost`: the service's total over the response, without
     * the lookback day for the current month on the 2nd. Popping that day
     * from an empty response raises IndexError.
     */
    method CalculateMonthlyCost(costResponse: seq<Day>, serviceName: string, month: string) returns (r: Result<real>)
      ensures DropsLookback(month, secondDayOfMonth) && |costResponse| == 0 ==> r == Err(IndexError)
      ensures !DropsLookback(month, secondDayOfMonth) || |costResponse| > 0 ==>
        r == Ok(MonthlyCost(costResponse, serviceName, DropsLookback(month, secondDayOfMonth)))
    {
      var total := 0.0;
      var resultList: seq<Day>;
      if month == "current" && secondDayOfMonth {
        if |costResponse| == 0 {
          return Err(IndexError);
        }
        // The caller's response is a value: dropping the day leaves it as it was.
        resultList := costResponse[1..];
      } else {
        resultList := costResponse;
      }
      var i := 0;
      while i < |resultList|
        invariant 0 <= i <= |resultList|
        invariant total == SumCost(resultList[..i], serviceName)
      {
        var groups := resultList[i].groups;
        ghost var before := total;
        var j := 0;
        while j < |groups|
          invariant 0 <= j <= |groups|
          invariant forall k :: 0 <= k < j ==> groups[k].key != serviceName
          invariant total == before
        {
          if groups[j].key == serviceName {
            total := total + groups[j].amount;
            break;
          }
          j := j + 1;
        }
        assert total == before + CostOn(groups, serviceName);
        assert resultList[..i + 1][..i] == resultList[..i];
        i := i + 1;
      }
      assert resultList[..i] == resultList;
      return Ok(total);
    }

    /**
     * `format_as_table` without the HTML rendering: the comparison table of
     * the two responses. A current response of fewer than two days raises
     * IndexError.
     */
    method FormatAsTable(currentMonthResponse: seq<Day>, previousMonthResponse: seq<Day>) returns (r: Result<Table>)
      ensures |currentMonthResponse| < 2 ==> r == Err(IndexError)
      ensures |currentMonthResponse| >= 2 ==>
        r == Ok(ReportFor(currentMonthResponse, previousMonthResponse, secondDayOfMonth))
    {
      var n := |currentMonthResponse|;
      if n < 2 {
        return Err(IndexError);
      }
      var serviceCostListCurrDay := currentMonthResponse[n - 1].groups;
      var serviceCostListPrevDay := currentMonthResponse[n - 2].groups;
      var currentDayDate := currentMonthResponse[n - 1].start;
      var previousDayDate := currentMonthResponse[n - 2].start;
      var serviceNameList: seq<string> := [];
      var currDayCostList: seq<real> := [];
      var prevDayCostList: seq<real> := [];
      var totalCostTillDateCurrentMonth: seq<real> := [];
      var totalCostTillRelativeDatePreviousMonth: seq<real> := [];
      var i := 0;
      while i < |serviceCostListCurrDay|
        invariant ColumnsUpTo(currentMonthResponse, previousMonthResponse, secondDayOfMonth, i, serviceNameList,
          totalCostTillDateCurrentMonth, currDayCostList, prevDayCostList, totalCostTillRelativeDatePreviousMonth)
      {
        ColumnsStep(currentMonthResponse, previousMonthResponse, secondDayOfMonth, i, serviceNameList,
          totalCostTillDateCurrentMonth, currDayCostList, prevDayCostList, totalCostTillRelativeDatePreviousMonth);
        var service := serviceCostListCurrDay[i];
        var serviceName := service.key;
        serviceNameList := serviceNameList + [serviceName];
        currDayCostList := currDayCostList + [service.amount];

        var previousDayServiceCost := PreviousDayCost(serviceCostListPrevDay, serviceName);
        prevDayCostList := prevDayCostList + [previousDayServiceCost];

        var thisMonth := CalculateMonthlyCost(currentMonthResponse, serviceName, "current");
        totalCostTillDateCurrentMonth := totalCostTillDateCurrentMonth + [thisMonth.value];

        var lastMonth := CalculateMonthlyCost(previousMonthResponse, serviceName, "previous");
        assert !DropsLookback("previous", secondDayOfMonth) by {
          assert "previous"[0] != "current"[0];
        }
        totalCostTillRelativeDatePreviousMonth := totalCostTillRelativeDatePreviousMonth + [lastMonth.value];
        i := i + 1;
      }
      var data := TableData(serviceNameList, totalCostTillDateCurrentMonth, currDayCostList, prevDayCostList,
        totalCostTillRelativeDatePreviousMonth);
      ColumnsComplete(currentMonthResponse, previousMonthResponse, secondDayOfMonth, serviceNameList,
        totalCostTillDateCurrentMonth, currDayCostList, prevDayCostList, totalCostTillRelativeDatePreviousMonth);
      var df := CreateDataframe(data, currentDayDate, previousDayDate);
      return Ok(df);
    }

    /**
     * `create_dataframe`: the table steps on `df`, in the order the source
     * applies them. `previousDayDate` names the transient column the DoD step
     * reads and the drop removes.
     */
    method CreateDataframe(data: TableData, currentDayDate: string, previousDayDate: string) returns (df: Table)
      requires WellShaped(data)
      ensures df == MakeTable(Rows(data), currentDayDate)
      ensures df.columns == [TotalCostThisMonth, TotalCostLastMonth, MomCostDiff, "Cost on " + currentDayDate, DodCostDiff]
    {
      var rows := Rows(data);
      // DoD difference, drop of the previous day's column, MoM difference.
      var frame := AllWithDeltas(rows);
      frame := SortByMoM(frame);
      frame := RoundAll(frame);
      var total := ColumnSum(frame);
      frame := SetTotal(frame, total);
      df := Table(Columns(currentDayDate), frame);
    }
  }
}
