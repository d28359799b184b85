/** The pie chart's slice assembly: one pass over the per-account series that keeps a baseline
    (`inBalance`), a running outflow total (`outBalance`) and the slice and label lists, and then
    appends one residual slice. */
module PieChart {
  import opened Sequences
  import opened AccountPaths

  /** One record of a derived per-account series (`x.account`, `x.balance`). */
  datatype BalancePoint = BalancePoint(account: string, balance: real)

  /** The series the external transform derives for one selected account. */
  type AccountSeries = seq<BalancePoint>

  /** The text `((part / whole) * 100).toFixed(2) + '%'`, kept as the two numbers it is
      formatted from. */
  datatype Label = PercentOf(part: real, whole: real)

  /** The data handed to the pie chart. */
  datatype BalanceRatio = BalanceRatio(labels: seq<Label>, series: seq<real>)

  /** Which branch of the classification chain handles a series. */
  datatype Category = IncomeBaseline | AssetsBaseline | ExpensesSlice | LiabilitiesSlice | Unmatched

  /** `series.filter((x) => x.account.startsWith(prefix))` */
  function RecordsWithPrefix(series: AccountSeries, prefix: string): seq<BalancePoint>
  {
    Filter(series, (x: BalancePoint) => StartsWith(x.account, prefix))
  }

  /** Some record of the series belongs to an account with the prefix. */
  predicate AnyRecordWithPrefix(series: AccountSeries, prefix: string)
  {
    exists i :: 0 <= i < |series| && StartsWith(series[i].account, prefix)
  }

  /** The source's `if / else if` chain: Income, then Assets, then Expenses, then Liabilities,
      each test being "some record's account starts with the prefix" (the source writes it as
      a non-empty filter, see `RecordsWithPrefixNonEmpty`). */
  function Classify(series: AccountSeries): Category
  {
    if AnyRecordWithPrefix(series, INCOME) then IncomeBaseline
    else if AnyRecordWithPrefix(series, ASSETS) then AssetsBaseline
    else if AnyRecordWithPrefix(series, EXPENSES) then ExpensesSlice
    else if AnyRecordWithPrefix(series, LIABILITIES) then LiabilitiesSlice
    else Unmatched
  }

  /** The source's test `series.filter((x) => x.account.startsWith(prefix)).length > 0` holds
      exactly when some record's account has the prefix. */
  lemma RecordsWithPrefixNonEmpty(series: AccountSeries, prefix: string)
    ensures |RecordsWithPrefix(series, prefix)| > 0 <==> AnyRecordWithPrefix(series, prefix)
  {
    FilterEmptyIff(series, (x: BalancePoint) => StartsWith(x.account, prefix));
  }

  function BalanceOf(x: BalancePoint): real
  {
    x.balance
  }

  /** `Math.abs(series.map((x) => x.balance).reduce((partialSum, a) => partialSum + a, 0))` */
  function Magnitude(series: AccountSeries): (r: real)
    ensures r >= 0.0
  {
    Abs(Sum(MapEach(series, BalanceOf)))
  }

  /** What one iteration of the loop uses of a series: the branch that handles it and the
      absolute value of its balance sum. */
  datatype Handling = Handling(category: Category, magnitude: real)

  function Handle(series: AccountSeries): Handling
  {
    Handling(Classify(series), Magnitude(series))
  }

  /** The handling of every series, in order. */
  function HandleAll(data: seq<AccountSeries>): (hs: seq<Handling>)
    ensures |hs| == |data|
    ensures forall i :: 0 <= i < |data| ==> hs[i] == Handle(data[i])
  {
    MapEach(data, Handle)
  }

  /** Income and Assets series set the baseline. */
  predicate IsBaseline(h: Handling)
  {
    h.category.IncomeBaseline? || h.category.AssetsBaseline?
  }

  /** Expenses and Liabilities series become slices. */
  predicate IsOutflow(h: Handling)
  {
    h.category.ExpensesSlice? || h.category.LiabilitiesSlice?
  }

  function MagnitudeOf(h: Handling): real
  {
    h.magnitude
  }

  /** `inBalance` after the loop has handled the first `n` series: every baseline series
      overwrites it, so the last one wins; it is 0 while there has been none. */
  function BaselineAfter(hs: seq<Handling>, n: nat): real
    requires n <= |hs|
  {
    if n == 0 then 0.0
    else if IsBaseline(hs[n - 1]) then hs[n - 1].magnitude
    else BaselineAfter(hs, n - 1)
  }

  /** `balanceRatio.series` after the loop has handled the first `n` series: one slice per
      outflow series. */
  function OutflowsAfter(hs: seq<Handling>, n: nat): (r: seq<real>)
    requires n <= |hs|
    ensures |r| <= n
  {
    if n == 0 then []
    else OutflowsAfter(hs, n - 1) + if IsOutflow(hs[n - 1]) then [hs[n - 1].magnitude] else []
  }

  /** `balanceRatio.labels` after the loop has handled the first `n` series: each label is
      formatted against the baseline in effect when its slice was pushed. */
  function LabelsAfter(hs: seq<Handling>, n: nat): seq<Label>
    requires n <= |hs|
  {
    if n == 0 then []
    else
      LabelsAfter(hs, n - 1)
      + if IsOutflow(hs[n - 1]) then [PercentOf(hs[n - 1].magnitude, BaselineAfter(hs, n - 1))] else []
  }

  /** `outBalance` after the loop has handled the first `n` series: the magnitudes of the
      outflow series added up. */
  function OutBalanceAfter(hs: seq<Handling>, n: nat): real
    requires n <= |hs|
  {
    if n == 0 then 0.0
    else OutBalanceAfter(hs, n - 1) + if IsOutflow(hs[n - 1]) then hs[n - 1].magnitude else 0.0
  }

  /** The baseline `inBalance` once every series of `data` has been handled. */
  function Baseline(data: seq<AccountSeries>): real
  {
    BaselineAfter(HandleAll(data), |data|)
  }

  /** The pie data for `data`: the outflow slices and their labels, followed by the residual
      slice `inBalance - outBalance` and its label. */
  function PieRatio(data: seq<AccountSeries>): BalanceRatio
  {
    var hs := HandleAll(data);
    var inBalance, outBalance := BaselineAfter(hs, |data|), OutBalanceAfter(hs, |data|);
    BalanceRatio(LabelsAfter(hs, |data|) + [PercentOf(inBalance - outBalance, inBalance)],
                 OutflowsAfter(hs, |data|) + [inBalance - outBalance])
  }

  /** The callback the source passes to `forEach`: it handles one series, reading and updating
      the captured `inBalance`, `outBalance` and `balanceRatio`. A baseline series overwrites
      `inBalance`; an outflow series pushes its magnitude as a slice, pushes a label formatted
      against the current `inBalance`, and adds the magnitude to `outBalance`; any other series
      changes nothing. */
  method Visit(account: AccountSeries, inBalance: real, outBalance: real, series: seq<real>, labels: seq<Label>)
    returns (inBalance': real, outBalance': real, series': seq<real>, labels': seq<Label>)
    ensures IsBaseline(Handle(account)) ==>
              inBalance' == Magnitude(account) && outBalance' == outBalance && series' == series && labels' == labels
    ensures IsOutflow(Handle(account)) ==>
              inBalance' == inBalance && outBalance' == outBalance + Magnitude(account)
              && series' == series + [Magnitude(account)]
              && labels' == labels + [PercentOf(Magnitude(account), inBalance)]
    ensures Classify(account) == Unmatched ==>
              inBalance' == inBalance && outBalance' == outBalance && series' == series && labels' == labels
  {
    inBalance', outBalance', series', labels' := inBalance, outBalance, series, labels;
    RecordsWithPrefixNonEmpty(account, INCOME);
    RecordsWithPrefixNonEmpty(account, ASSETS);
    RecordsWithPrefixNonEmpty(account, EXPENSES);
    RecordsWithPrefixNonEmpty(account, LIABILITIES);
    if |RecordsWithPrefix(account, INCOME)| > 0 {
      inBalance' := Abs(Sum(MapEach(account, BalanceOf)));
    } else if |RecordsWithPrefix(account, ASSETS)| > 0 {
      inBalance' := Abs(Sum(MapEach(account, BalanceOf)));
    } else if |RecordsWithPrefix(account, EXPENSES)| > 0 {
      var expense := Abs(Sum(MapEach(account, BalanceOf)));
      series' := series' + [expense];
      labels' := labels' + [PercentOf(expense, inBalance')];
      outBalance' := outBalance' + expense;
    } else if |RecordsWithPrefix(account, LIABILITIES)| > 0 {
      var liability := Abs(Sum(MapEach(account, BalanceOf)));
      series' := series' + [liability];
      labels' := labels' + [PercentOf(liability, inBalance')];
      outBalance' := outBalance' + liability;
    }
  }

  /** The source's pass over the series derived for the selected accounts, followed by the
      residual slice. */
  method AssembleRatio(data: seq<AccountSeries>) returns (ratio: BalanceRatio)
    ensures ratio == PieRatio(data)
  {
    ghost var hs := HandleAll(data);
    var labels: seq<Label> := [];
    var series: seq<real> := [];
    var outBalance: real := 0.0;
    var inBalance: real := 0.0;
    var i := 0;
    while i < |data|
      invariant 0 <= i <= |data|
      invariant inBalance == BaselineAfter(hs, i)
      invariant series == OutflowsAfter(hs, i)
      invariant labels == LabelsAfter(hs, i)
      invariant outBalance == OutBalanceAfter(hs, i)
    {
      inBalance, outBalance, series, labels := Visit(data[i], inBalance, outBalance, series, labels);
      i := i + 1;
    }
    series := series + [inBalance - outBalance];
    labels := labels + [PercentOf(inBalance - outBalance, inBalance)];
    ratio := BalanceRatio(labels, series);
  }

  /** The source's chain of filter tests, read as written: first match wins, so a series with a
      non-empty Income filter is a baseline whatever else it holds, one with a non-empty Assets
      filter but an empty Income filter is a baseline too, and a series is a slice exactly when
      its Income and Assets filters are empty and its Expenses or Liabilities filter is not. No
      series is both a baseline and a slice. */
  lemma ClassifyFirstMatch(series: AccountSeries)
    ensures |RecordsWithPrefix(series, INCOME)| > 0 ==> Classify(series) == IncomeBaseline
    ensures IsBaseline(Handle(series)) <==>
            |RecordsWithPrefix(series, INCOME)| > 0 || |RecordsWithPrefix(series, ASSETS)| > 0
    ensures IsOutflow(Handle(series)) <==>
            |RecordsWithPrefix(series, INCOME)| == 0 && |RecordsWithPrefix(series, ASSETS)| == 0
            && (|RecordsWithPrefix(series, EXPENSES)| > 0 || |RecordsWithPrefix(series, LIABILITIES)| > 0)
    ensures Classify(series) == Unmatched <==>
            |RecordsWithPrefix(series, INCOME)| == 0 && |RecordsWithPrefix(series, ASSETS)| == 0
            && |RecordsWithPrefix(series, EXPENSES)| == 0 && |RecordsWithPrefix(series, LIABILITIES)| == 0
    ensures !(IsBaseline(Handle(series)) && IsOutflow(Handle(series)))
  {
    RecordsWithPrefixNonEmpty(series, INCOME);
    RecordsWithPrefixNonEmpty(series, ASSETS);
    RecordsWithPrefixNonEmpty(series, EXPENSES);
    RecordsWithPrefixNonEmpty(series, LIABILITIES);
  }

  /** A series that matches none of the four prefixes leaves the loop's state as it was. */
  lemma UnmatchedChangesNothing(hs: seq<Handling>, n: nat)
    requires n < |hs| && hs[n].category == Unmatched
    ensures BaselineAfter(hs, n + 1) == BaselineAfter(hs, n)
    ensures OutflowsAfter(hs, n + 1) == OutflowsAfter(hs, n)
    ensures LabelsAfter(hs, n + 1) == LabelsAfter(hs, n)
    ensures OutBalanceAfter(hs, n + 1) == OutBalanceAfter(hs, n)
  {
  }

  /** The baseline is the magnitude of the last baseline series handled so far: earlier ones are
      overwritten, not added up. */
  lemma {:induction false} BaselineIsLastWrite(hs: seq<Handling>, n: nat, j: nat)
    requires j < n <= |hs| && IsBaseline(hs[j])
    requires forall k :: j < k < n ==> !IsBaseline(hs[k])
    ensures BaselineAfter(hs, n) == hs[j].magnitude
  {
    if j < n - 1 {
      BaselineIsLastWrite(hs, n - 1, j);
    }
  }

  /** Without a baseline series the baseline stays at its initial 0. */
  lemma {:induction false} BaselineWithoutBaselineSeries(hs: seq<Handling>, n: nat)
    requires n <= |hs|
    requires forall k :: 0 <= k < n ==> !IsBaseline(hs[k])
    ensures BaselineAfter(hs, n) == 0.0
  {
    if n > 0 {
      BaselineWithoutBaselineSeries(hs, n - 1);
    }
  }

  /** The slices are the magnitudes of the Expenses and Liabilities series, in their order:
      exactly one slice per outflow series. */
  lemma {:induction false} OutflowsAreClassifiedMagnitudes(hs: seq<Handling>, n: nat)
    requires n <= |hs|
    ensures OutflowsAfter(hs, n) == MapEach(Filter(hs[..n], IsOutflow), MagnitudeOf)
    ensures |OutflowsAfter(hs, n)| == |Filter(hs[..n], IsOutflow)|
  {
    if n > 0 {
      OutflowsAreClassifiedMagnitudes(hs, n - 1);
      assert hs[..n] == hs[..n - 1] + [hs[n - 1]];
      FilterAppend(hs[..n - 1], [hs[n - 1]], IsOutflow);
      MapEachAppend(Filter(hs[..n - 1], IsOutflow), Filter([hs[n - 1]], IsOutflow), MagnitudeOf);
    }
  }

  /** Every slice pushed by the loop is non-negative when magnitudes are: they are absolute
      values. */
  lemma {:induction false} OutflowsNonNegative(hs: seq<Handling>, n: nat)
    requires n <= |hs|
    requires forall k :: 0 <= k < n ==> hs[k].magnitude >= 0.0
    ensures forall i :: 0 <= i < |OutflowsAfter(hs, n)| ==> OutflowsAfter(hs, n)[i] >= 0.0
  {
    if n > 0 {
      OutflowsNonNegative(hs, n - 1);
    }
  }

  /** The loop pushes one label per slice, and each label is formatted from its own slice. */
  lemma {:induction false} LabelsDescribeSlices(hs: seq<Handling>, n: nat)
    requires n <= |hs|
    ensures |LabelsAfter(hs, n)| == |OutflowsAfter(hs, n)|
    ensures forall i :: 0 <= i < |OutflowsAfter(hs, n)| ==> LabelsAfter(hs, n)[i].part == OutflowsAfter(hs, n)[i]
  {
    if n > 0 {
      LabelsDescribeSlices(hs, n - 1);
    }
  }

  /** `outBalance` is the sum of the slices pushed so far. */
  lemma {:induction false} OutBalanceIsSliceSum(hs: seq<Handling>, n: nat)
    requires n <= |hs|
    ensures OutBalanceAfter(hs, n) == Sum(OutflowsAfter(hs, n))
  {
    if n > 0 {
      OutBalanceIsSliceSum(hs, n - 1);
      if IsOutflow(hs[n - 1]) {
        SumSnoc(OutflowsAfter(hs, n - 1), hs[n - 1].magnitude);
      } else {
        assert OutflowsAfter(hs, n) == OutflowsAfter(hs, n - 1) + [];
        assert OutflowsAfter(hs, n - 1) + [] == OutflowsAfter(hs, n - 1);
      }
    }
  }

  /** The finished pie data: one slice per Expenses or Liabilities series plus the residual, one
      label per slice formatted from it, every slice but the residual non-negative and their sum
      (`outBalance`) non-negative, the residual `inBalance - outBalance` labelled against the
      final baseline, and all slices summing to that baseline. */
  lemma PieRatioShape(data: seq<AccountSeries>)
    ensures |PieRatio(data).series| == |Filter(HandleAll(data), IsOutflow)| + 1
    ensures |PieRatio(data).labels| == |PieRatio(data).series|
    ensures forall i :: 0 <= i < |PieRatio(data).series| ==> PieRatio(data).labels[i].part == PieRatio(data).series[i]
    ensures forall i :: 0 <= i < |PieRatio(data).series| - 1 ==> PieRatio(data).series[i] >= 0.0
    ensures Sum(Init(PieRatio(data).series)) >= 0.0
    ensures Last(PieRatio(data).series) == Baseline(data) - Sum(Init(PieRatio(data).series))
    ensures Last(PieRatio(data).labels) == PercentOf(Last(PieRatio(data).series), Baseline(data))
    ensures Sum(PieRatio(data).series) == Baseline(data)
  {
    var hs := HandleAll(data);
    var slices := OutflowsAfter(hs, |data|);
    var r := PieRatio(data);
    assert r.series == slices + [BaselineAfter(hs, |data|) - OutBalanceAfter(hs, |data|)];
    assert Init(r.series) == slices;
    OutflowsAreClassifiedMagnitudes(hs, |data|);
    assert hs[..|data|] == hs;
    LabelsDescribeSlices(hs, |data|);
    OutflowsNonNegative(hs, |data|);
    SumNonNegative(slices);
    OutBalanceIsSliceSum(hs, |data|);
    SumSnoc(slices, BaselineAfter(hs, |data|) - OutBalanceAfter(hs, |data|));
  }

  /** Two Income series with balance sums -100 and -50: the later one wins and the baseline is
      50, not 150. */
  lemma TwoIncomesLastWins()
    ensures Baseline([[BalancePoint("Income:Salary", -100.0)], [BalancePoint("Income:Bonus", -50.0)]]) == 50.0
  {
    var salary, bonus := [BalancePoint("Income:Salary", -100.0)], [BalancePoint("Income:Bonus", -50.0)];
    var hs := HandleAll([salary, bonus]);
    assert StartsWith(bonus[0].account, INCOME) by {
      assert bonus[0].account[..|INCOME|] == INCOME;
    }
    assert Classify(bonus) == IncomeBaseline;
    assert MapEach(bonus, BalanceOf) == [-50.0];
    assert Sum([-50.0]) == -50.0 by {
      assert Init([-50.0]) == [];
    }
    BaselineIsLastWrite(hs, 2, 1);
  }

  /** An Expenses series handled before any Income or Assets series is labelled against the
      baseline 0 then in effect, while the residual slice uses the Income series that follows it. */
  lemma ExpenseBeforeIncome()
    ensures PieRatio([[BalancePoint("Expenses:Rent", 30.0)], [BalancePoint("Income:Salary", -100.0)]])
            == BalanceRatio([PercentOf(30.0, 0.0), PercentOf(70.0, 100.0)], [30.0, 70.0])
  {
    var rent, salary := [BalancePoint("Expenses:Rent", 30.0)], [BalancePoint("Income:Salary", -100.0)];
    var data := [rent, salary];
    var hs := HandleAll(data);
    assert StartsWith(rent[0].account, EXPENSES) by {
      assert rent[0].account[..|EXPENSES|] == EXPENSES;
    }
    assert !StartsWith(rent[0].account, INCOME) by {
      assert rent[0].account[..|INCOME|][0] != INCOME[0];
    }
    assert !StartsWith(rent[0].account, ASSETS) by {
      assert rent[0].account[..|ASSETS|][0] != ASSETS[0];
    }
    assert StartsWith(salary[0].account, INCOME) by {
      assert salary[0].account[..|INCOME|] == INCOME;
    }
    assert Classify(rent) == ExpensesSlice;
    assert Classify(salary) == IncomeBaseline;
    assert MapEach(rent, BalanceOf) == [30.0];
    assert MapEach(salary, BalanceOf) == [-100.0];
    assert Sum([30.0]) == 30.0 by {
      assert Init([30.0]) == [];
    }
    assert Sum([-100.0]) == -100.0 by {
      assert Init([-100.0]) == [];
    }
    assert hs[0] == Handling(ExpensesSlice, 30.0);
    assert hs[1] == Handling(IncomeBaseline, 100.0);
    assert BaselineAfter(hs, 1) == 0.0 && BaselineAfter(hs, 2) == 100.0;
    assert OutflowsAfter(hs, 1) == [] + [30.0];
    assert OutflowsAfter(hs, 2) == [30.0] + [];
    assert LabelsAfter(hs, 1) == [] + [PercentOf(30.0, 0.0)];
    assert LabelsAfter(hs, 2) == [PercentOf(30.0, 0.0)] + [];
    assert OutBalanceAfter(hs, 1) == 0.0 + 30.0;
    assert OutBalanceAfter(hs, 2) == 30.0 + 0.0;
  }
}
