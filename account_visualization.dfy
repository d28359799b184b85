/** The component itself: the chart-mode selector, the three renderers (balance line chart,
    profit-and-loss bar chart, pie chart) and the dispatch between them. */
module AccountVisualization {
  import opened Sequences
  import opened PieChart
  import opened DefaultCategory

  /** `dailyAccountBalanceMap`: date bucket to account path to balance. */
  type BalanceMap = map<string, map<string, real>>

  /** What the renderers receive besides the account list. `dateBuckets` is the output of
      `makeBucketNames(interval, startDate, endDate)` and `previousBucket` the string
      `startDate.clone().subtract(1, interval).format('YYYY-MM-DD')`; both come from the date
      library and are inputs here. */
  datatype ChartInputs = ChartInputs(
    dailyAccountBalanceMap: BalanceMap,
    allAccounts: seq<string>,
    dateBuckets: seq<string>,
    previousBucket: string)

  /** The balance-utils functions the component calls; their bodies are not part of this model,
      so they are parameters. */
  datatype Transforms = Transforms(
    removeDuplicateAccounts: seq<string> -> seq<string>,
    makeBalanceData: (BalanceMap, seq<string>, string, seq<string>) -> seq<real>,
    makeDeltaData: (BalanceMap, string, seq<string>, string, seq<string>) -> seq<real>,
    makePercentData: (BalanceMap, string, seq<string>, string, seq<string>) -> AccountSeries)

  /** The chart element handed to the charting library. */
  datatype Visualization =
    | Line(labels: seq<string>, lines: seq<seq<real>>)
    | Bar(labels: seq<string>, bars: seq<seq<real>>)
    | Pie(ratio: BalanceRatio)

  datatype ChartKind = LineKind | BarKind | PieKind

  function KindOf(v: Visualization): ChartKind
  {
    match v
    case Line(_, _) => LineKind
    case Bar(_, _) => BarKind
    case Pie(_) => PieKind
  }

  /** The value `mode` holds before the user picks anything. */
  const INITIAL_MODE: string := "balance"

  /** The option values of the mode `<select>`. */
  const MODE_OPTIONS: seq<string> := ["balance", "pnl", "percent"]

  /** The chart a mode value selects: the dispatch's `if / else if` chain; any other value
      leaves `visualization` undefined. */
  function SelectedChart(mode: string): Option<ChartKind>
  {
    if mode == "balance" then Some(LineKind)
    else if mode == "pnl" then Some(BarKind)
    else if mode == "percent" then Some(PieKind)
    else None
  }

  /** The initial mode shows the balance line chart; each option of the selector shows a chart
      and the three show different ones; a mode that is not an option shows none. */
  lemma ModeSelection(mode: string)
    ensures SelectedChart(INITIAL_MODE) == Some(LineKind)
    ensures SelectedChart(mode).Some? <==> mode in MODE_OPTIONS
    ensures SelectedChart(MODE_OPTIONS[0]) == Some(LineKind)
    ensures SelectedChart(MODE_OPTIONS[1]) == Some(BarKind)
    ensures SelectedChart(MODE_OPTIONS[2]) == Some(PieKind)
  {
    assert MODE_OPTIONS[0] == "balance" && MODE_OPTIONS[1] == "pnl" && MODE_OPTIONS[2] == "percent";
    if mode in MODE_OPTIONS {
      var i :| 0 <= i < 3 && MODE_OPTIONS[i] == mode;
    }
  }

  /** The line chart's series: `makeBalanceData` for each account, one series per account in the
      accounts' order. */
  function BalanceSeries(inputs: ChartInputs, accounts: seq<string>, t: Transforms): (r: seq<seq<real>>)
    ensures |r| == |accounts|
    ensures forall i :: 0 <= i < |accounts| ==>
              r[i] == t.makeBalanceData(inputs.dailyAccountBalanceMap, inputs.dateBuckets, accounts[i], inputs.allAccounts)
  {
    MapEach(accounts, (account: string) =>
      t.makeBalanceData(inputs.dailyAccountBalanceMap, inputs.dateBuckets, account, inputs.allAccounts))
  }

  /** The bar chart's series: `makeDeltaData` for each account, one series per account in the
      accounts' order, all measured from the bucket before the start date. */
  function DeltaSeries(inputs: ChartInputs, accounts: seq<string>, t: Transforms): (r: seq<seq<real>>)
    ensures |r| == |accounts|
    ensures forall i :: 0 <= i < |accounts| ==>
              r[i] == t.makeDeltaData(inputs.dailyAccountBalanceMap, inputs.previousBucket, inputs.dateBuckets,
                                      accounts[i], inputs.allAccounts)
  {
    MapEach(accounts, (account: string) =>
      t.makeDeltaData(inputs.dailyAccountBalanceMap, inputs.previousBucket, inputs.dateBuckets, account,
                      inputs.allAccounts))
  }

  /** The pie chart's per-account series: `makePercentData` for each account, one series per
      account in the accounts' order. */
  function PercentSeries(inputs: ChartInputs, accounts: seq<string>, t: Transforms): (r: seq<AccountSeries>)
    ensures |r| == |accounts|
    ensures forall i :: 0 <= i < |accounts| ==>
              r[i] == t.makePercentData(inputs.dailyAccountBalanceMap, inputs.previousBucket, inputs.dateBuckets,
                                        accounts[i], inputs.allAccounts)
  {
    MapEach(accounts, (account: string) =>
      t.makePercentData(inputs.dailyAccountBalanceMap, inputs.previousBucket, inputs.dateBuckets, account,
                        inputs.allAccounts))
  }

  /** The pie renderer: it first extends the caller's account array in place, then derives one
      series per account of the extended list and assembles the slices. */
  method PercentVisualization(inputs: ChartInputs, accounts: AccountList, t: Transforms) returns (v: Visualization)
    modifies accounts
    ensures accounts.items == WithDefaultCategory(old(accounts.items))
    ensures v == Pie(PieRatio(PercentSeries(inputs, accounts.items, t)))
  {
    InsertDefaultCategory(accounts);
    var data := PercentSeries(inputs, accounts.items, t);
    var ratio := AssembleRatio(data);
    v := Pie(ratio);
  }

  /** One render of the component in mode `mode`: deduplicate the selected accounts into a fresh
      array and dispatch on the mode. The pie renderer sees, and extends, that fresh array. */
  method Render(mode: string, inputs: ChartInputs, selectedAccounts: seq<string>, t: Transforms)
    returns (visualization: Option<Visualization>)
    ensures visualization.None? <==> SelectedChart(mode).None?
    ensures visualization.Some? ==> Some(KindOf(visualization.value)) == SelectedChart(mode)
    ensures var filtered := t.removeDuplicateAccounts(selectedAccounts);
            mode == "balance" ==> visualization == Some(Line(inputs.dateBuckets, BalanceSeries(inputs, filtered, t)))
    ensures var filtered := t.removeDuplicateAccounts(selectedAccounts);
            mode == "pnl" ==> visualization == Some(Bar(inputs.dateBuckets, DeltaSeries(inputs, filtered, t)))
    ensures var filtered := t.removeDuplicateAccounts(selectedAccounts);
            mode == "percent" ==>
              visualization == Some(Pie(PieRatio(PercentSeries(inputs, WithDefaultCategory(filtered), t))))
  {
    var filteredAccounts := new AccountList(t.removeDuplicateAccounts(selectedAccounts));
    visualization := None;
    if mode == "balance" {
      visualization := Some(Line(inputs.dateBuckets, BalanceSeries(inputs, filteredAccounts.items, t)));
    } else if mode == "pnl" {
      visualization := Some(Bar(inputs.dateBuckets, DeltaSeries(inputs, filteredAccounts.items, t)));
    } else if mode == "percent" {
      var pie := PercentVisualization(inputs, filteredAccounts, t);
      visualization := Some(pie);
    }
  }

  /** In every mode the derived series are one per account of the list the renderer works on,
      in the same order: the deduplicated selection for the line and bar charts, and that
      selection with its default category appended for the pie chart. */
  lemma SeriesFollowAccounts(inputs: ChartInputs, filtered: seq<string>, t: Transforms)
    ensures |BalanceSeries(inputs, filtered, t)| == |DeltaSeries(inputs, filtered, t)| == |filtered|
    ensures |PercentSeries(inputs, WithDefaultCategory(filtered), t)| == |WithDefaultCategory(filtered)|
    ensures forall i :: 0 <= i < |filtered| ==>
              PercentSeries(inputs, WithDefaultCategory(filtered), t)[i]
              == PercentSeries(inputs, filtered, t)[i]
  {
    assert forall i :: 0 <= i < |filtered| ==> WithDefaultCategory(filtered)[i] == filtered[i];
  }
}
