# Account visualization: a verified model

This project models the chart component of the ledger UI, `src/ui/AccountVisualization.tsx`. The
component shows the selected accounts in one of three charts, and the user picks the chart with a
mode selector:

- `balance`: a line chart with one series of balances per account;
- `pnl`: a bar chart with one series of per-bucket deltas per account;
- `percent`: a pie chart.

The pie chart holds most of the logic, in two steps:

1. It first extends the caller's account array in place. It appends a synthetic `Income` when
   expenses are selected without any income account. Failing that, it appends `Assets` when
   liabilities are selected without any assets account.
2. It then derives one series of `{account, balance}` records per account. It makes one pass
   over them, the slice loop:
   - an Income or Assets series overwrites the baseline `inBalance`;
   - an Expenses or Liabilities series becomes a slice `abs(sum)` with a label, and adds to
     `outBalance`;
   - after the pass, a residual slice `inBalance - outBalance` is appended.

Modules, one per file:

- `Sequences` (`sequences.dfy`): `filter`, `map` and `reduce` as sequence functions, with their
  facts.
- `AccountPaths` (`account_paths.dfy`): the four category names and `startsWith` matching.
- `DefaultCategory` (`default_category.dfy`): the in-place default-category push, on a class
  `AccountList` that holds the caller's array.
- `PieChart` (`pie_chart.dfy`):
  - the slice loop as a method (`AssembleRatio`, with the `forEach` callback as `Visit`);
  - the loop's state after `n` series as functions (`BaselineAfter`, `OutflowsAfter`,
    `LabelsAfter`, `OutBalanceAfter`);
  - the finished pie data as `PieRatio`.
- `AccountVisualization` (`account_visualization.dfy`): the mode dispatch, the
  one-series-per-account mappings, the pie renderer and `Render`.

Balances are exact `real` numbers. A label is `PercentOf(part, whole)`: the two numbers its
percentage text is formatted from. The four balance-utils functions, whose bodies are not part of
this model, are function-valued fields of `Transforms`:

- `removeDuplicateAccounts`
- `makeBalanceData`
- `makeDeltaData`
- `makePercentData`

Two behaviours of the code as written are part of the model and stated as lemmas:

- When expenses and liabilities are both selected with neither income nor assets, the `else if`
  appends only `Income`. A second run over the same mutated array then appends `Assets` (see
  `ReinsertionIff`).
- A slice's label is formatted against the baseline in effect when the slice is pushed. An
  Expenses series that comes before every Income and Assets series (before any baseline series)
  is therefore labelled against 0 (see `ExpenseBeforeIncome`).

## Model

| member | source | states |
|---|---|---|
| DefaultCategory.InsertDefaultCategory | src/ui/AccountVisualization.tsx:210-223 | The in-place push leaves the caller's array equal to `WithDefaultCategory` of its old contents |
| DefaultCategory.WithDefaultCategory | src/ui/AccountVisualization.tsx:210-223 | The insertion only appends: the old list is a prefix of the new one, and it grows by at most one entry |
| DefaultCategory.DefaultForPresence | src/ui/AccountVisualization.tsx:210-219 | The filter-length tests decide `Income`, `Assets` or nothing, exactly by which prefixes are present, with the Income rule first |
| DefaultCategory.IncomeAppendedIff | src/ui/AccountVisualization.tsx:210-214 | Exactly one `Income` is appended at the end iff no account starts with `Income` and some account starts with `Expenses` |
| DefaultCategory.AssetsAppendedIff | src/ui/AccountVisualization.tsx:215-219 | Exactly one `Assets` is appended iff the Income rule fails, no account starts with `Assets` and some account starts with `Liabilities` |
| DefaultCategory.UnchangedIff | src/ui/AccountVisualization.tsx:210-223 | The list is unchanged iff neither rule holds |
| DefaultCategory.DenominatorPresent | src/ui/AccountVisualization.tsx:210-219 | After the insertion a selected Expenses account always has an Income account beside it; a Liabilities account has an Assets account beside it unless the Income rule fired |
| DefaultCategory.ExpensesOutrankLiabilities | src/ui/AccountVisualization.tsx:210-219 | When both rules hold, only `Income` is added and the list still has no Assets account |
| DefaultCategory.ReinsertionIff | src/ui/AccountVisualization.tsx:210-219 | A second insertion over the mutated array changes nothing iff the two rules did not both hold; if they did, it adds `Assets` after `Income` |
| DefaultCategory.InsertionSettles | src/ui/AccountVisualization.tsx:210-219 | A third insertion changes nothing |
| DefaultCategory.SingleExpenseGetsIncome | src/ui/AccountVisualization.tsx:210-214 | `["Expenses:Rent"]` becomes `["Expenses:Rent", "Income"]` |
| AccountPaths.WithPrefixEmptyIff | src/ui/AccountVisualization.tsx:211-217 | `accounts.filter(startsWith(p)).length === 0` iff no account starts with `p` |
| AccountPaths.AnyWithPrefixSnoc | src/ui/AccountVisualization.tsx:214 | After a push, some account starts with `p` iff some account did before or the pushed one does |
| AccountPaths.CategoryPrefixes | src/ui/AccountVisualization.tsx:214-219 | The pushed `Income` and `Assets` match their own prefix and no other category's |
| PieChart.RecordsWithPrefixNonEmpty | src/ui/AccountVisualization.tsx:263 | A series' filter test `.length > 0` holds iff some record's account has the prefix |
| PieChart.ClassifyFirstMatch | src/ui/AccountVisualization.tsx:262-310 | First match wins: an Income record makes a series a baseline whatever else it holds; a series is a slice iff its Income and Assets filters are empty and its Expenses or Liabilities filter is not; no series is both |
| PieChart.Visit | src/ui/AccountVisualization.tsx:262-310 | One callback: a baseline series overwrites `inBalance` with `abs(sum)`; an outflow series pushes one slice and one label formatted against the current `inBalance`, and adds the slice to `outBalance`; a series matching no prefix changes nothing |
| PieChart.AssembleRatio | src/ui/AccountVisualization.tsx:255-316 | The loop and the residual push compute exactly `PieRatio(data)` |
| PieChart.HandleAll | src/ui/AccountVisualization.tsx:262 | The loop handles every series, in order |
| PieChart.Magnitude | src/ui/AccountVisualization.tsx:265-268 | `Math.abs` of the balance sum is non-negative |
| PieChart.UnmatchedChangesNothing | src/ui/AccountVisualization.tsx:262-311 | A series of no known category leaves the baseline, slices, labels and `outBalance` unchanged |
| PieChart.BaselineIsLastWrite | src/ui/AccountVisualization.tsx:263-280 | The baseline is the magnitude of the last baseline series so far; earlier ones are overwritten, not summed |
| PieChart.BaselineWithoutBaselineSeries | src/ui/AccountVisualization.tsx:260 | Without an Income or Assets series the baseline stays at 0 |
| PieChart.TwoIncomesLastWins | src/ui/AccountVisualization.tsx:263-269 | Income series with sums -100 then -50 leave a baseline of 50 |
| PieChart.OutflowsAreClassifiedMagnitudes | src/ui/AccountVisualization.tsx:281-310 | The slices are the magnitudes of the Expenses and Liabilities series in order: one slice per outflow series |
| PieChart.OutflowsNonNegative | src/ui/AccountVisualization.tsx:286-305 | Every pushed slice is non-negative |
| PieChart.LabelsDescribeSlices | src/ui/AccountVisualization.tsx:292-308 | One label per slice, each formatted from its own slice |
| PieChart.OutBalanceIsSliceSum | src/ui/AccountVisualization.tsx:294-309 | `outBalance` is the sum of the slices pushed |
| PieChart.PieRatioShape | src/ui/AccountVisualization.tsx:313-316 | The result has (number of outflow series) + 1 slices and as many labels, each label formed from its slice. The non-residual slices are non-negative. The residual is the baseline minus the other slices and is labelled against the baseline. The slices other than the residual sum to `outBalance`, which is non-negative, and all slices sum to the baseline |
| PieChart.ExpenseBeforeIncome | src/ui/AccountVisualization.tsx:292-316 | An expense of 30 before an income of -100 gives slices `[30, 70]`, and the expense's label is taken against the baseline 0 then in effect |
| AccountVisualization.ModeSelection | src/ui/AccountVisualization.tsx:48-109 | The initial mode `balance` selects the line chart; each selector option selects a chart, the three differ, and any other mode selects none |
| AccountVisualization.BalanceSeries | src/ui/AccountVisualization.tsx:148-158 | One `makeBalanceData` series per account, in the accounts' order |
| AccountVisualization.DeltaSeries | src/ui/AccountVisualization.tsx:178-192 | One `makeDeltaData` series per account, in the accounts' order, all from the previous bucket |
| AccountVisualization.PercentSeries | src/ui/AccountVisualization.tsx:224-238 | One `makePercentData` series per account, in the accounts' order |
| AccountVisualization.PercentVisualization | src/ui/AccountVisualization.tsx:209-316 | The pie renderer extends the account array with its default category, then its pie data is `PieRatio` of one series per account of the extended list |
| AccountVisualization.Render | src/ui/AccountVisualization.tsx:52-109 | The dispatch renders no chart iff the mode is not one of the three, and otherwise the chart that mode selects. `balance` gives the line chart and `pnl` the bar chart, both over the deduplicated selection; `percent` gives the pie chart over that selection with its default category |
| AccountVisualization.SeriesFollowAccounts | src/ui/AccountVisualization.tsx:150-157 | There is one series per account of the list each renderer uses. The pie chart's series for the original accounts are unchanged by the pushed default |
| Sequences.FilterMembers | src/ui/AccountVisualization.tsx:211 | `filter` keeps exactly the elements that pass |
| Sequences.FilterEmptyIff | src/ui/AccountVisualization.tsx:211 | A filter is empty iff no element passes |
| Sequences.FilterAppend | src/ui/AccountVisualization.tsx:263 | Filtering distributes over concatenation |
| Sequences.MapEach | src/ui/AccountVisualization.tsx:150 | `map` gives one result per element, in order |
| Sequences.MapEachAppend | src/ui/AccountVisualization.tsx:267 | Mapping distributes over concatenation |
| Sequences.SumSnoc | src/ui/AccountVisualization.tsx:268 | The left-fold sum of a list extended by `x` is the old sum plus `x` |
| Sequences.SumNonNegative | src/ui/AccountVisualization.tsx:268 | A sum of non-negative numbers is non-negative |

## Left out

- The React parts are not modelled: rendering, the `useState` hook, the styled-components CSS,
  the legend markup and the `<select>` element. The selector's three option values are kept as
  `MODE_OPTIONS`.
- Chartist rendering and the chart options are not modelled; the model stops at the data it is
  handed.
- The date library is not modelled. `makeBucketNames(...)` and
  `startDate.clone().subtract(1, interval).format('YYYY-MM-DD')` are inputs, as
  `ChartInputs.dateBuckets` and `ChartInputs.previousBucket`.
- The bodies of `removeDuplicateAccounts`, `makeBalanceData`, `makeDeltaData` and
  `makePercentData` are not part of this model. They are function parameters in `Transforms`.
- The label text `((x / inBalance) * 100).toFixed(2) + '%'` is not modelled, nor JavaScript's
  division by zero when `inBalance` is 0. A label is kept as the pair `PercentOf(x, inBalance)`.
- JavaScript floating-point arithmetic is not modelled. Balances are exact reals, so "the slices
  sum to the baseline" holds exactly in the model, and in the source only up to rounding.
- `console.log` and the commented-out code are not modelled; neither affects the result.
- Render: every render rebuilds the deduplicated array, and that render's legend is built
  before the pie renderer runs, so the legend lists the accounts from before the push. The push
  is seen only by a later reader of the same array object: the pie renderer's body run again on
  the same props, or a `removeDuplicateAccounts` that returns its own argument, which would then
  change the parent's `selectedAccounts`. `ReinsertionIff` and `InsertionSettles` model that
  repeated insertion on values. The model gives each render a fresh `AccountList`, so it does not
  capture that aliasing.
