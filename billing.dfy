/**
 * A cost-and-usage response grouped by service at daily granularity, and the
 * per-service sums the report reads from it.
 */
module Billing {
  /** One entry of a day's `Groups`: the service key and its unblended cost. */
  datatype Group = Group(key: string, amount: real)

  /** One entry of `ResultsByTime`: the ISO start date of the day and its groups. */
  datatype Day = Day(start: string, groups: seq<Group>)

  /**
   * Position of the first group with key `key`, or `|groups|` when there is
   * none: the index at which the source's linear scan breaks.
   */
  function FirstIndex(groups: seq<Group>, key: string): (i: int)
    ensures 0 <= i <= |groups|
    ensures forall j :: 0 <= j < i ==> groups[j].key != key
    ensures i < |groups| ==> groups[i].key == key
  {
    if groups == [] then 0
    else if groups[0].key == key then 0
    else 1 + FirstIndex(groups[1..], key)
  }

  /** A service's cost on a day: the amount of its first group, 0 when the day has none. */
  function CostOn(groups: seq<Group>, key: string): (c: real)
    ensures (forall k :: 0 <= k < |groups| ==> groups[k].key != key) ==> c == 0.0
    ensures forall i :: 0 <= i < |groups| && groups[i].key == key && (forall k :: 0 <= k < i ==> groups[k].key != key) ==>
      c == groups[i].amount
  {
    var i := FirstIndex(groups, key);
    if i < |groups| then groups[i].amount else 0.0
  }

  /** Sum of a service's daily costs over `days`. */
  function SumCost(days: seq<Day>, key: string): real {
    if days == [] then 0.0
    else SumCost(days[..|days| - 1], key) + CostOn(days[|days| - 1].groups, key)
  }

  /**
   * The monthly total `calculate_monthly_cost` computes: the sum over every
   * day, or over every day but the first when the lookback day is dropped.
   */
  function MonthlyCost(days: seq<Day>, key: string, dropFirst: bool): (m: real)
    requires dropFirst ==> |days| > 0
    ensures dropFirst ==> m == SumCost(days, key) - CostOn(days[0].groups, key)
  {
    if dropFirst then
      SumCostFirstDay(days, key);
      SumCost(days[1..], key)
    else SumCost(days, key)
  }

  predicate Absent(days: seq<Day>, key: string) {
    forall d, g :: d in days && g in d.groups ==> g.key != key
  }

  /** A day on which the service appears with no group adds nothing. */
  lemma CostOnAbsent(groups: seq<Group>, key: string)
    requires forall g :: g in groups ==> g.key != key
    ensures CostOn(groups, key) == 0.0
  {
  }

  /** The sum over consecutive stretches of days is the sum of their sums. */
  lemma {:induction false} SumCostAppend(a: seq<Day>, b: seq<Day>, key: string)
    ensures SumCost(a + b, key) == SumCost(a, key) + SumCost(b, key)
    decreases |b|
  {
    if b == [] {
      assert a + b == a;
    } else {
      var n := |b| - 1;
      assert (a + b)[..|a + b| - 1] == a + b[..n];
      SumCostAppend(a, b[..n], key);
    }
  }

  /** A service that never appears totals 0. */
  lemma {:induction false} SumCostAbsent(days: seq<Day>, key: string)
    requires Absent(days, key)
    ensures SumCost(days, key) == 0.0
  {
    if days != [] {
      var last := days[|days| - 1];
      assert last in days;
      CostOnAbsent(last.groups, key);
      assert Absent(days[..|days| - 1], key) by {
        forall d, g | d in days[..|days| - 1] && g in d.groups ensures g.key != key {
          assert d in days;
        }
      }
      SumCostAbsent(days[..|days| - 1], key);
    }
  }

  /** The sum over the days is the first day's cost plus the sum over the rest. */
  lemma SumCostFirstDay(days: seq<Day>, key: string)
    requires |days| > 0
    ensures SumCost(days, key) == CostOn(days[0].groups, key) + SumCost(days[1..], key)
  {
    assert days == [days[0]] + days[1..];
    SumCostAppend([days[0]], days[1..], key);
    assert SumCost([days[0]], key) == CostOn(days[0].groups, key) by {
      assert [days[0]][..0] == [];
    }
  }

  /** Lookback example: 08-31 {A: 5}, 09-01 {A: 10} totals 10 with the lookback dropped, 15 without. */
  lemma ExampleLookback()
    ensures var days := [Day("2021-08-31", [Group("A", 5.0)]), Day("2021-09-01", [Group("A", 10.0)])];
      MonthlyCost(days, "A", true) == 10.0 && MonthlyCost(days, "A", false) == 15.0
  {
    var days := [Day("2021-08-31", [Group("A", 5.0)]), Day("2021-09-01", [Group("A", 10.0)])];
    assert CostOn(days[0].groups, "A") == 5.0;
    assert CostOn(days[1].groups, "A") == 10.0;
    var rest := days[1..];
    assert rest == [days[1]] && rest[..0] == [];
    assert SumCost(rest, "A") == SumCost(rest[..0], "A") + CostOn(rest[0].groups, "A");
    assert MonthlyCost(days, "A", true) == SumCost(rest, "A");
  }
}
