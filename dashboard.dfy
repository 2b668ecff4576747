/** One run of the dashboard script: the budget table is built from the seed rows,
    the sidebar inputs overwrite its amounts in place, its Percentage column is
    recomputed against the income, and every view (metrics, charts, table, CSV
    rows, breakdown, advice) is derived from the result. */
module Dashboard {
  import opened Budget

  /** The budget table: the DataFrame the script mutates in place, one row per category. */
  class BudgetTable {
    var rows: array<Row>

    /** The categories are the seed categories, in seed order, and no amount is negative. */
    ghost predicate Valid()
      reads this, rows
    {
      rows.Length == |SeedCategories| &&
      forall i :: 0 <= i < rows.Length ==> rows[i].category == SeedCategories[i] && rows[i].amount >= MinAmount
    }

    /** The table's rows, in order: what the data table shows and the CSV export writes. */
    function Rows(): (r: seq<Row>)
      reads this, rows
      ensures Valid() ==> |r| == |SeedCategories| && AmountsNonNegative(r)
      ensures Valid() ==> forall i :: 0 <= i < |r| ==> r[i].category == SeedCategories[i]
    {
      rows[..]
    }

    /** Builds the seed table and computes its Percentage column against the sum
        of the seed amounts. */
    constructor ()
      ensures Valid() && fresh(rows)
      ensures Total(SeedRows()) == DefaultIncome
      ensures Rows() == WithPercentages(SeedRows(), Total(SeedRows()))
    {
      var seed := SeedRows();
      var a := new Row[|seed|](i requires 0 <= i < |seed| => seed[i]);
      assert a[..] == seed;
      rows := a;
      new;
      SeedTotal();
      assert Rows() == seed;
      SetPercentages(Total(seed));
    }

    /** Overwrites each row's amount with the sidebar input for its category, one
        position at a time; names, order and percentages stay as they were. */
    method ApplyInputs(inputs: seq<int>)
      requires Valid()
      requires |inputs| == rows.Length
      requires forall i :: 0 <= i < |inputs| ==> inputs[i] >= MinAmount
      modifies rows
      ensures Valid()
      ensures Rows() == WithAmounts(old(Rows()), inputs)
    {
      var i := 0;
      while i < rows.Length
        invariant 0 <= i <= rows.Length
        invariant forall k :: 0 <= k < i ==> rows[k] == old(rows[k]).(amount := inputs[k])
        invariant forall k :: i <= k < rows.Length ==> rows[k] == old(rows[k])
      {
        rows[i] := rows[i].(amount := inputs[i]);
        i := i + 1;
      }
    }

    /** Recomputes the whole Percentage column as each amount's share of `base`. */
    method SetPercentages(base: int)
      requires Valid()
      requires base > 0
      modifies rows
      ensures Valid()
      ensures Rows() == WithPercentages(old(Rows()), base)
    {
      forall i | 0 <= i < rows.Length {
        rows[i] := rows[i].(percentage := Percentage(rows[i].amount, base));
      }
    }
  }

  /** Everything the script displays, derived from the final table. */
  datatype View = View(
    table: seq<Row>,                              // the data table and the CSV rows
    totalExpenses: int,                           // the "Total Expenses" metric
    savingsRate: real,                            // the "Savings Rate" metric
    ranked: seq<Row>,                             // the bars, largest amount first
    breakdown: map<string, int>,                  // the categories breakdown amounts
    breakdownShares: Option<map<string, real>>,   // its Percentage column
    advisory: Advisory)                           // the savings advice

  /** The views of a table: the ranking is the table ordered by amount, the
      breakdown has one entry per category, its shares exist unless the total is
      zero, and the advice is the warning exactly below the healthy savings rate. */
  function Summarise(table: seq<Row>): (v: View)
    ensures v.table == table
    ensures NonIncreasing(v.ranked) && multiset(v.ranked) == multiset(table)
    ensures v.breakdown.Keys == Categories(table)
    ensures v.breakdownShares.None? <==> v.totalExpenses == 0
    ensures v.advisory == Warning <==> v.savingsRate < HealthySavingsRate
  {
    View(table, Total(table), SavingsRate(table), Rank(table), Breakdown(table),
         BreakdownShares(table), Advise(SavingsRate(table)))
  }

  /** One run of the script with the given sidebar income and category amounts. */
  method Rerun(income: int, inputs: seq<int>) returns (view: View)
    requires income >= MinIncome
    requires |inputs| == |SeedCategories|
    requires forall i :: 0 <= i < |inputs| ==> inputs[i] >= MinAmount
    ensures |view.table| == |SeedCategories|
    ensures forall i :: 0 <= i < |inputs| ==>
      view.table[i].category == SeedCategories[i] && view.table[i].amount == inputs[i] &&
      view.table[i].percentage == Percentage(inputs[i], income)
    ensures view.totalExpenses == Sum(inputs) >= 0
    ensures view.savingsRate == 100.0 - Percentage(Sum(inputs), income) <= 100.0
    ensures view.advisory == Warning <==> 5 * Sum(inputs) > 4 * income
    ensures NonIncreasing(view.ranked) && multiset(view.ranked) == multiset(view.table)
    ensures view.breakdown.Keys == set c | c in SeedCategories
    ensures forall i :: 0 <= i < |inputs| ==> view.breakdown[SeedCategories[i]] == inputs[i]
    ensures view.breakdownShares.None? <==> Sum(inputs) == 0
    ensures view.breakdownShares.Some? ==>
      view.breakdownShares.value.Keys == (set c | c in SeedCategories) &&
      (forall i :: 0 <= i < |inputs| ==>
        view.breakdownShares.value[SeedCategories[i]] == Percentage(inputs[i], Sum(inputs))) &&
      ShareSumOver(SeedCategories, view.breakdownShares.value) == 100.0
    ensures view == Summarise(view.table)
  {
    var table := new BudgetTable();
    ghost var seeded := table.Rows();
    table.ApplyInputs(inputs);
    ghost var entered := table.Rows();
    table.SetPercentages(income);
    var rows := table.Rows();
    EnteredRows(seeded, inputs, income);
    EnteredTotals(rows, income, inputs);
    SeedCategoriesDistinct();
    EnteredBreakdown(rows, SeedCategories, inputs);
    EnteredShares(rows, SeedCategories, inputs);
    view := Summarise(rows);
  }

  /** Entering the amounts and recomputing the percentages of a table that holds
      the seed categories gives the seed categories, the entered amounts and their
      percentages of the income. */
  lemma EnteredRows(seeded: seq<Row>, inputs: seq<int>, income: int)
    requires income > 0
    requires |seeded| == |inputs| == |SeedCategories|
    requires forall i :: 0 <= i < |seeded| ==> seeded[i].category == SeedCategories[i]
    ensures var rows := WithPercentages(WithAmounts(seeded, inputs), income);
      |rows| == |inputs| &&
      forall i :: 0 <= i < |rows| ==>
        rows[i].category == SeedCategories[i] && rows[i].amount == inputs[i] &&
        rows[i].percentage == Percentage(inputs[i], income)
  {
  }

  /** The metrics and the advice for a table holding the entered amounts and their
      percentages of the income. */
  lemma EnteredTotals(rows: seq<Row>, income: int, inputs: seq<int>)
    requires income > 0
    requires |rows| == |inputs|
    requires forall i :: 0 <= i < |inputs| ==> inputs[i] >= MinAmount
    requires forall i :: 0 <= i < |rows| ==>
      rows[i].amount == inputs[i] && rows[i].percentage == Percentage(inputs[i], income)
    ensures Total(rows) == Sum(inputs) >= 0
    ensures SavingsRate(rows) == 100.0 - Percentage(Sum(inputs), income) <= 100.0
    ensures Advise(SavingsRate(rows)) == Warning <==> 5 * Sum(inputs) > 4 * income
  {
    assert rows == WithPercentages(rows, income);
    TotalIsSum(rows, inputs);
    SavingsRateIdentity(rows, income);
    SavingsRateAtMost100(rows, income);
    AdviceMatchesExpenseShare(rows, income);
  }

  /** The breakdown of a table whose category names are pairwise different maps
      each name to its entered amount. */
  lemma EnteredBreakdown(rows: seq<Row>, names: seq<string>, inputs: seq<int>)
    requires |rows| == |inputs| == |names|
    requires forall j, k :: 0 <= j < k < |names| ==> names[j] != names[k]
    requires forall i :: 0 <= i < |rows| ==> rows[i].category == names[i] && rows[i].amount == inputs[i]
    ensures Breakdown(rows).Keys == set c | c in names
    ensures forall i :: 0 <= i < |inputs| ==> Breakdown(rows)[names[i]] == inputs[i]
  {
    assert forall j, k :: 0 <= j < k < |rows| ==> rows[j].category != rows[k].category;
    forall i | 0 <= i < |inputs|
      ensures names[i] in Breakdown(rows) && Breakdown(rows)[names[i]] == inputs[i]
    {
      EnteredGroup(rows, i);
    }
    EnteredKeys(rows, names);
  }

  /** The breakdown shares of a table whose category names are pairwise different:
      when the entered amounts do not add up to zero, the keys are those names, each
      maps to its amount's percentage of the sum of the amounts, and the shares add
      up to 100. */
  lemma EnteredShares(rows: seq<Row>, names: seq<string>, inputs: seq<int>)
    requires |rows| == |inputs| == |names|
    requires forall j, k :: 0 <= j < k < |names| ==> names[j] != names[k]
    requires forall i :: 0 <= i < |rows| ==> rows[i].category == names[i] && rows[i].amount == inputs[i]
    ensures BreakdownShares(rows).Some? ==>
      Sum(inputs) != 0 &&
      BreakdownShares(rows).value.Keys == (set c | c in names) &&
      (forall i :: 0 <= i < |inputs| ==>
        BreakdownShares(rows).value[names[i]] == Percentage(inputs[i], Sum(inputs))) &&
      ShareSumOver(names, BreakdownShares(rows).value) == 100.0
  {
    TotalIsSum(rows, inputs);
    if BreakdownShares(rows).Some? {
      EnteredKeys(rows, names);
      assert forall j, k :: 0 <= j < k < |rows| ==> rows[j].category != rows[k].category;
      forall i | 0 <= i < |inputs|
        ensures BreakdownShares(rows).value[names[i]] == Percentage(inputs[i], Sum(inputs))
      {
        assert rows[i].category in Categories(rows);
        CategorySumOfDistinct(rows, i);
      }
      BreakdownSharesSumTo100(rows, names);
    }
  }

  lemma EnteredGroup(rows: seq<Row>, i: int)
    requires 0 <= i < |rows|
    requires forall j, k :: 0 <= j < k < |rows| ==> rows[j].category != rows[k].category
    ensures rows[i].category in Breakdown(rows) && Breakdown(rows)[rows[i].category] == rows[i].amount
  {
    assert rows[i].category in Categories(rows);
    CategorySumOfDistinct(rows, i);
  }

  lemma EnteredKeys(rows: seq<Row>, names: seq<string>)
    requires |rows| == |names|
    requires forall i :: 0 <= i < |rows| ==> rows[i].category == names[i]
    ensures Categories(rows) == set c | c in names
  {
    forall c | c in names ensures c in Categories(rows) {
      var i :| 0 <= i < |names| && names[i] == c;
      assert rows[i].category == c;
    }
  }

  /** The first run, before any input is changed: the seed amounts add up to the
      default income, so nothing is saved and the advice is the warning. */
  method DefaultRun() returns (view: View)
    ensures view.totalExpenses == DefaultIncome
    ensures view.savingsRate == 0.0 && view.advisory == Warning
  {
    view := Rerun(DefaultIncome, SeedAmounts);
    TotalIsSum(SeedRows(), SeedAmounts);
    SeedScenario();
    WholeIsHundred(DefaultIncome);
  }
}
