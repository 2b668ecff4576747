# Personal budget dashboard — a Dafny model of its budget derivation

The dashboard is a single Streamlit script. It keeps a budget table of nine
categories with an amount each. It reads a monthly income and one amount per
category from the sidebar, and writes the amounts into the table. Then it
recomputes each category's percentage of the income and displays values derived
from the table:

- the total expenses and the savings rate (100 minus the sum of the percentages);
- a bar chart of the categories ranked by amount, largest first;
- the table itself, also offered as a CSV download;
- a group-by-category breakdown with each category's share of the expenses;
- a warning when the savings rate is below 20, a success message otherwise.

This project models that derivation and proves what it promises.

- `budget.dfy` (module `Budget`) holds the pure derivations as functions over a
  sequence of rows, with lemmas about them: percentages, total, savings rate,
  advice, ranking, breakdown, breakdown shares and the seed table.
- `dashboard.dfy` (module `Dashboard`) holds the parts that change state.
  `BudgetTable` is a class over an array of rows. Its constructor builds the seed
  table. `ApplyInputs` is the sidebar loop that overwrites the amounts in place,
  position by position. `SetPercentages` is the column assignment that recomputes
  the Percentage column. `Rerun` is one run of the script, from the sidebar inputs
  to every displayed value. `DefaultRun` is the first run, with untouched inputs.

Amounts and the income are whole currency units, because the sidebar inputs are
integer number inputs. Percentages are exact `real`s, so identities such as
"the percentages and the savings rate add up to 100" hold exactly.

The seed table counts its "Savings" category (1500) among the expenses. The seed
amounts add up to 7500, which is also the default income. So the first run shows
a savings rate of 0 and the warning (`DefaultRun`).

Three points about the code shape the model:

- The code raises no error for an income of zero or less. The sidebar never
  accepts an income below 1000, so `Rerun` requires `income >= MinIncome`, and
  the pure functions require a non-zero base for their divisions.
- The code uses the library's default sort for the bar chart, so the model
  promises order and permutation only, not stability.
- The per-category percentages are the Percentage column of the table, the
  `percentage` field of `Row`.

## Model

| member | source | states |
|---|---|---|
| `Budget.SeedRows` | budget_dashboard.py:6-12 | the seed table: the nine seed categories in their order, each with its seed amount |
| `Budget.Percentage` | budget_dashboard.py:26 | the percentage p of a non-zero base satisfies p × base = amount × 100; it is non-negative for a non-negative amount of a positive base, and at most 100 when the amount does not exceed that base |
| `Budget.Total` | budget_dashboard.py:31 | when no amount is negative, the total expenses are non-negative and no smaller than any single amount |
| `Budget.WithPercentages` | budget_dashboard.py:26 | recomputing the Percentage column keeps length, categories and amounts, and gives each row amount / base × 100 |
| `Budget.WithAmounts` | budget_dashboard.py:23-24 | entering the sidebar amounts replaces only the amounts, position by position; length, categories, order and percentages are kept |
| `Budget.PercentageSumNonNegative` | budget_dashboard.py:32 | the sum of the Percentage column is non-negative when no percentage is negative |
| `Budget.SavingsRate` | budget_dashboard.py:32 | the savings rate, 100 minus the sum of the Percentage column, is at most 100 when no percentage is negative; `SavingsRateIdentity` relates it to the total |
| `Budget.Advise` | budget_dashboard.py:75-78 | the advice is the success message exactly when the savings rate is at least 20, and the warning below it; `AdviceMatchesExpenseShare` states it in terms of the total and the income |
| `Budget.TotalIsSum` | budget_dashboard.py:31 | the total expenses depend only on the amounts: they equal the sum of the amounts entered for the rows |
| `Budget.PercentageSumIsShareOfTotal` | budget_dashboard.py:26-32 | the recomputed percentages add up to total / base × 100 |
| `Budget.SavingsRateIdentity` | budget_dashboard.py:32 | the savings rate 100 − Σ percentages equals 100 − total / income × 100 |
| `Budget.SavingsRateAtMost100` | budget_dashboard.py:24-32 | with no negative amount and a positive income the savings rate is at most 100 |
| `Budget.AdviceMatchesExpenseShare` | budget_dashboard.py:75-78 | the advice is the warning if and only if 5 × total > 4 × income, that is, if and only if the savings rate is below 20; at 5 × total = 4 × income the rate is exactly 20 and the advice is healthy |
| `Budget.BelowThreshold` | budget_dashboard.py:75 | 100 − total / income × 100 is below 20 exactly when 5 × total > 4 × income, and equals 20 exactly when 5 × total = 4 × income |
| `Budget.Insert` | budget_dashboard.py:43 | inserting a row into a ranked sequence keeps it ranked (non-increasing amounts) and adds exactly that row |
| `Budget.Rank` | budget_dashboard.py:43 | the bar-chart order has non-increasing amounts and is a permutation (same multiset) of the table's rows |
| `Budget.RankIdempotent` | budget_dashboard.py:43 | ranking a sequence that is already ranked returns it unchanged |
| `Budget.CategorySum` | budget_dashboard.py:70 | a category name that does not occur in the table has group sum 0 |
| `Budget.Breakdown` | budget_dashboard.py:70 | the breakdown has one entry per distinct category name, and each entry is the sum of that name's amounts |
| `Budget.CategoryList` | budget_dashboard.py:70 | the distinct category names can be listed without repetition; no order is promised (the breakdown's row order is left out) |
| `Budget.CategorySumsCoverTotal` | budget_dashboard.py:70 | summing the group sums over any duplicate-free list of names that covers every category gives the total expenses |
| `Budget.BreakdownTotal` | budget_dashboard.py:70 | grouping preserves the total: in whatever order the breakdown's categories are listed, its amounts add up to the total expenses |
| `Budget.BreakdownShares` | budget_dashboard.py:71 | the shares are undefined (None) exactly when the total is 0; otherwise each category's share is its group sum / total × 100 |
| `Budget.BreakdownSharesSumTo100` | budget_dashboard.py:71 | for a non-zero total the breakdown shares exist and add up to 100, in whatever order the categories are listed |
| `Budget.CategorySumOfDistinct` | budget_dashboard.py:70 | when all category names differ, a category's group sum is that row's amount |
| `Budget.SeedTotal` | budget_dashboard.py:6-9 | no seed amount is negative, and the seed amounts add up to the default income 7500 |
| `Budget.SeedCategoriesDistinct` | budget_dashboard.py:7 | the nine seed category names are pairwise different |
| `Budget.SeedScenario` | budget_dashboard.py:6-21 | the seed total is the default income 7500; the seed percentages, taken against the seed total, add up to 100; with the default income the savings rate is 0 and the advice is the warning |
| `Dashboard.BudgetTable.constructor` | budget_dashboard.py:6-13 | the new table holds the seed rows, with percentages taken against the seed total, and satisfies the table invariant |
| `Dashboard.BudgetTable.ApplyInputs` | budget_dashboard.py:23-24 | the loop leaves the table equal to the old table with the amounts replaced by the inputs, position by position, and keeps the invariant (seed categories in order, no negative amount) |
| `Dashboard.BudgetTable.SetPercentages` | budget_dashboard.py:26 | the table becomes the old table with its Percentage column recomputed against the base, and keeps the invariant |
| `Dashboard.BudgetTable.Rows` | budget_dashboard.py:53-58 | the rows shown in the data table and written to the CSV: for a valid table, the nine seed categories in order, with no negative amount |
| `Dashboard.Summarise` | budget_dashboard.py:31-78 | the views of a table: the table itself, the bars ordered by amount and a permutation of the rows, one breakdown entry per category, shares that exist unless the total is 0, and the warning exactly below a savings rate of 20 |
| `Dashboard.EnteredRows` | budget_dashboard.py:23-26 | entering the amounts into a table of the seed categories and recomputing its percentages leaves the seed categories in order, the entered amounts and each amount's percentage of the income |
| `Dashboard.EnteredTotals` | budget_dashboard.py:31-32 | for a table of the entered amounts and their income percentages: total = Σ inputs ≥ 0, savings rate = 100 − Σ inputs / income × 100 ≤ 100, and the advice is the warning if and only if 5 × Σ inputs > 4 × income |
| `Dashboard.EnteredBreakdown` | budget_dashboard.py:70 | for a table of pairwise different names, the breakdown's keys are exactly those names and each maps to its entered amount |
| `Dashboard.EnteredShares` | budget_dashboard.py:70-71 | for a table of pairwise different names whose amounts do not add up to 0, the shares' keys are exactly those names, each maps to its amount / Σ amounts × 100, and the shares add up to 100 |
| `Dashboard.EnteredGroup` | budget_dashboard.py:70 | in a table of pairwise different names, each row's name is a breakdown key whose sum is that row's amount |
| `Dashboard.EnteredKeys` | budget_dashboard.py:70 | the breakdown's categories are exactly the table's names |
| `Dashboard.Rerun` | budget_dashboard.py:21-78 | one run: the table and CSV rows are the seed categories in order with the entered amounts and their percentages of the income; total = Σ inputs; savings rate = 100 − Σ inputs / income × 100 ≤ 100; the bars are ordered and a permutation of the rows; the breakdown maps each seed category to its input; the shares are None exactly when Σ inputs = 0, and otherwise map each seed category to its input / Σ inputs × 100 and add up to 100; the warning exactly when 5 × Σ inputs > 4 × income; every view is `Summarise` of the final table |
| `Dashboard.DefaultRun` | budget_dashboard.py:6-32 | with the seed amounts and the default income, the total expenses are 7500, the savings rate is 0 and the advice is the warning |

## Left out

- Page set-up, titles, metric widgets, data-frame widgets, the download button and the two messages (lines 16-21, 29-32, 52-53, 61-66, 72-78) are presentation. Only the numbers they show and the choice between warning and success are modelled.
- The sidebar inputs are I/O. They become the parameters `income` and `inputs` of `Rerun`. Their lower bounds (1000 and 0) become its preconditions. Their step sizes only affect the widgets' buttons and are not modelled.
- The pie chart, the bar chart, their labels and the `autopct` formatting (lines 35-49) are drawn by a plotting library. Only the order of the bars (`Rank`) is modelled.
- The cache decorator and the CSV encoding (lines 56-58) are not modelled. The exported rows are the final table, `View.table` in `Rerun`. The column header Category, Amount, Percentage is the row layout of `Row`.
- Floating point is not modelled. Percentages are exact reals, so any rounding gap between 100 − Σ percentages and 100 − total / income × 100 is not captured. The two-decimal formatting of the savings rate is not modelled either.
- Budget.Rank: promises non-increasing amounts and a permutation only. The relative order of rows with equal amounts is the library sort's own, and the model does not fix it.
- Budget.Breakdown: a map keyed by category. The order of the breakdown's rows is chosen by the data-frame library and is not modelled. Sums over the breakdown are stated for every duplicate-free listing of its categories.
- Budget.BreakdownShares: the divisor is the breakdown's own amount sum in the code. The model writes it as the table total, which `BreakdownTotal` proves equal. A zero total, where the code would show undefined (NaN) shares, is the `None` result.
- The script runs again from the top on every input change. `Rerun` models one such run, and the state kept between runs belongs to the widgets, which are not modelled.
