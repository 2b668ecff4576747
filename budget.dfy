/** The derived values of the personal budget dashboard: each category's share of
    the income, the total of the expenses, the savings rate and the advice given for
    it, the categories ranked by amount for the bar chart, and the per-category
    breakdown with each category's share of the expenses.

    Amounts and income are whole currency units (the sidebar inputs are integer
    number inputs); percentages are exact reals. */
module Budget {

  datatype Option<T> = None | Some(value: T)

  /** One line of the budget table: its Category, Amount and Percentage columns. */
  datatype Row = Row(category: string, amount: int, percentage: real)

  /** The two savings messages: the warning below the healthy rate, the success message otherwise. */
  datatype Advisory = Warning | Healthy

  /** The lowest monthly income the sidebar accepts, and the income it starts with. */
  const MinIncome: int := 1000
  const DefaultIncome: int := 7500
  /** The lowest amount the sidebar accepts for a category. */
  const MinAmount: int := 0
  /** The savings rate, in percent, from which on the savings are called healthy. */
  const HealthySavingsRate: real := 20.0

  const SeedCategories: seq<string> :=
    ["Housing", "Utilities", "Transportation", "Food", "Savings", "Debt Repayment",
     "Insurance", "Entertainment & Recreation", "Miscellaneous"]
  const SeedAmounts: seq<int> := [2250, 375, 750, 750, 1500, 750, 375, 375, 375]

  /** The table as the script first builds it, before any Percentage column is
      computed (the placeholder 0.0 is overwritten before anything reads it). */
  function SeedRows(): (rows: seq<Row>)
    ensures |rows| == |SeedCategories|
    ensures forall i :: 0 <= i < |rows| ==> rows[i].category == SeedCategories[i] && rows[i].amount == SeedAmounts[i]
  {
    seq(|SeedCategories|, i requires 0 <= i < |SeedCategories| => Row(SeedCategories[i], SeedAmounts[i], 0.0))
  }

  predicate AmountsNonNegative(rows: seq<Row>) {
    forall i :: 0 <= i < |rows| ==> rows[i].amount >= MinAmount
  }

  predicate PercentagesNonNegative(rows: seq<Row>) {
    forall i :: 0 <= i < |rows| ==> rows[i].percentage >= 0.0
  }

  // ---------------------------------------------------------------------------
  // Percentages, totals and the savings rate
  // ---------------------------------------------------------------------------

  /** `amount` as a percentage of `base`: the p with p% of base equal to amount. */
  function Percentage(amount: int, base: int): (p: real)
    requires base != 0
    ensures p * (base as real) == (amount as real) * 100.0
    ensures base > 0 && amount >= 0 ==> p >= 0.0
    ensures base > 0 && amount <= base ==> p <= 100.0
  {
    (amount as real / base as real) * 100.0
  }

  /** Sum of a sequence of whole amounts. */
  function Sum(xs: seq<int>): int {
    if xs == [] then 0 else xs[0] + Sum(xs[1..])
  }

  /** The sum of the Amount column: the total expenses. */
  function Total(rows: seq<Row>): (t: int)
    ensures AmountsNonNegative(rows) ==> t >= 0
    ensures AmountsNonNegative(rows) ==> forall i :: 0 <= i < |rows| ==> rows[i].amount <= t
  {
    if rows == [] then 0 else rows[0].amount + Total(rows[1..])
  }

  /** The sum of the Percentage column. */
  function PercentageSum(rows: seq<Row>): real {
    if rows == [] then 0.0 else rows[0].percentage + PercentageSum(rows[1..])
  }

  /** The Percentage column of a table without negative percentages has a
      non-negative sum. */
  lemma {:induction false} PercentageSumNonNegative(rows: seq<Row>)
    requires PercentagesNonNegative(rows)
    ensures PercentageSum(rows) >= 0.0
  {
    if rows != [] {
      PercentageSumNonNegative(rows[1..]);
    }
  }

  /** The savings rate shown in the metrics strip and compared with the threshold for the advice:
      100 minus the sum of the Percentage column. */
  function SavingsRate(rows: seq<Row>): (rate: real)
    ensures PercentagesNonNegative(rows) ==> rate <= 100.0
  {
    if PercentagesNonNegative(rows) then PercentageSumNonNegative(rows); 100.0 - PercentageSum(rows)
    else 100.0 - PercentageSum(rows)
  }

  /** The table with its Percentage column recomputed against `base`, row by row. */
  function WithPercentages(rows: seq<Row>, base: int): (r: seq<Row>)
    requires base != 0
    ensures |r| == |rows|
    ensures forall i :: 0 <= i < |r| ==>
      r[i].category == rows[i].category && r[i].amount == rows[i].amount &&
      r[i].percentage == Percentage(rows[i].amount, base)
  {
    seq(|rows|, i requires 0 <= i < |rows| => rows[i].(percentage := Percentage(rows[i].amount, base)))
  }

  /** The table with its Amount column replaced, position by position, by `amounts`. */
  function WithAmounts(rows: seq<Row>, amounts: seq<int>): (r: seq<Row>)
    requires |amounts| == |rows|
    ensures |r| == |rows|
    ensures forall i :: 0 <= i < |r| ==>
      r[i].category == rows[i].category && r[i].amount == amounts[i] && r[i].percentage == rows[i].percentage
  {
    seq(|rows|, i requires 0 <= i < |rows| => rows[i].(amount := amounts[i]))
  }

  /** The savings advice for a savings rate: the warning below the healthy rate,
      the success message from the healthy rate on. */
  function Advise(savingsRate: real): (a: Advisory)
    ensures a == Healthy <==> savingsRate >= HealthySavingsRate
  {
    if savingsRate < HealthySavingsRate then Warning else Healthy
  }

  lemma PercentageAdds(a: int, b: int, base: int)
    requires base != 0
    ensures Percentage(a, base) + Percentage(b, base) == Percentage(a + b, base)
  {
    var bs := base as real;
    assert (a as real) / bs + (b as real) / bs == ((a + b) as real) / bs;
  }

  /** The total of a table depends only on its amounts. */
  lemma {:induction false} TotalIsSum(rows: seq<Row>, amounts: seq<int>)
    requires |amounts| == |rows|
    requires forall i :: 0 <= i < |rows| ==> rows[i].amount == amounts[i]
    ensures Total(rows) == Sum(amounts)
  {
    if rows != [] {
      TotalIsSum(rows[1..], amounts[1..]);
    }
  }

  /** Summing the recomputed Percentage column gives the total's percentage of the
      base: the per-row percentages add up to total / base × 100. */
  lemma {:induction false} PercentageSumIsShareOfTotal(rows: seq<Row>, base: int)
    requires base != 0
    ensures PercentageSum(WithPercentages(rows, base)) == Percentage(Total(rows), base)
  {
    if rows == [] {
      assert WithPercentages(rows, base) == [];
    } else {
      PercentagesOfTail(rows, base);
      PercentageSumIsShareOfTotal(rows[1..], base);
      PercentageAdds(rows[0].amount, Total(rows[1..]), base);
    }
  }

  /** The recomputed column's sum is the first row's percentage plus the sum of
      the rest's recomputed column. */
  lemma PercentagesOfTail(rows: seq<Row>, base: int)
    requires base != 0
    requires rows != []
    ensures PercentageSum(WithPercentages(rows, base)) ==
      Percentage(rows[0].amount, base) + PercentageSum(WithPercentages(rows[1..], base))
  {
    var r := WithPercentages(rows, base);
    assert r[1..] == WithPercentages(rows[1..], base);
  }

  /** The savings rate computed from the percentages (100 − Σ percentages) equals
      the one computed from the total (100 − total / income × 100). */
  lemma SavingsRateIdentity(rows: seq<Row>, income: int)
    requires income != 0
    ensures SavingsRate(WithPercentages(rows, income)) == 100.0 - Percentage(Total(rows), income)
  {
    PercentageSumIsShareOfTotal(rows, income);
  }

  /** With no negative amount and a positive income the savings rate is at most 100. */
  lemma SavingsRateAtMost100(rows: seq<Row>, income: int)
    requires income > 0
    requires AmountsNonNegative(rows)
    ensures SavingsRate(WithPercentages(rows, income)) <= 100.0
  {
    SavingsRateIdentity(rows, income);
  }

  /** The advice is the warning exactly when the expenses exceed 80% of the income
      (5 × total > 4 × income), i.e. exactly when the savings rate is below 20; a
      savings rate of exactly 20 is healthy. */
  lemma AdviceMatchesExpenseShare(rows: seq<Row>, income: int)
    requires income > 0
    ensures Advise(SavingsRate(WithPercentages(rows, income))) == Warning <==> 5 * Total(rows) > 4 * income
    ensures 5 * Total(rows) == 4 * income ==> SavingsRate(WithPercentages(rows, income)) == HealthySavingsRate
  {
    SavingsRateIdentity(rows, income);
    BelowThreshold(income, Total(rows));
  }

  /** 100 − total / income × 100 is below 20 exactly when 5 × total > 4 × income,
      and equal to 20 exactly when 5 × total = 4 × income. */
  lemma BelowThreshold(income: int, total: int)
    requires income > 0
    ensures 100.0 - Percentage(total, income) < HealthySavingsRate <==> 5 * total > 4 * income
    ensures 100.0 - Percentage(total, income) == HealthySavingsRate <==> 5 * total == 4 * income
  {
    ScaledComparison(Percentage(total, income), income as real, total as real);
  }

  /** For p × base = part × 100 with a positive base, p compares with 80 as
      5 × part compares with 4 × base. */
  lemma ScaledComparison(p: real, base: real, part: real)
    requires base > 0.0
    requires p * base == part * 100.0
    ensures p > 80.0 <==> 5.0 * part > 4.0 * base
    ensures p == 80.0 <==> 5.0 * part == 4.0 * base
  {
    var d := p - 80.0;
    assert d * base == 20.0 * (5.0 * part - 4.0 * base);
    if d > 0.0 {
      assert d * base > 0.0;
    } else if d < 0.0 {
      assert d * base < 0.0;
    }
  }

  // ---------------------------------------------------------------------------
  // Ranking for the bar chart
  // ---------------------------------------------------------------------------

  /** Amounts do not increase from left to right. */
  predicate NonIncreasing(rows: seq<Row>) {
    forall i, j :: 0 <= i < j < |rows| ==> rows[i].amount >= rows[j].amount
  }

  function Insert(row: Row, ranked: seq<Row>): (r: seq<Row>)
    requires NonIncreasing(ranked)
    ensures NonIncreasing(r)
    ensures multiset(r) == multiset(ranked) + multiset{row}
  {
    if ranked == [] || row.amount >= ranked[0].amount then
      [row] + ranked
    else
      var rest := Insert(row, ranked[1..]);
      InsertBelowHead(row, ranked, rest);
      [ranked[0]] + rest
  }

  /** Putting the head of a ranked sequence in front of a ranked sequence of rows
      that are no larger keeps it ranked. */
  lemma InsertBelowHead(row: Row, ranked: seq<Row>, rest: seq<Row>)
    requires ranked != [] && row.amount < ranked[0].amount
    requires NonIncreasing(ranked) && NonIncreasing(rest)
    requires multiset(rest) == multiset(ranked[1..]) + multiset{row}
    ensures NonIncreasing([ranked[0]] + rest)
    ensures multiset([ranked[0]] + rest) == multiset(ranked) + multiset{row}
  {
    var r := [ranked[0]] + rest;
    assert ranked == [ranked[0]] + ranked[1..];
    forall k | 0 <= k < |rest| ensures rest[k].amount <= ranked[0].amount {
      assert rest[k] in multiset(rest);
      if rest[k] != row {
        assert rest[k] in multiset(ranked[1..]);
        var j :| 0 <= j < |ranked[1..]| && ranked[1..][j] == rest[k];
        assert ranked[j + 1] == rest[k];
      }
    }
    forall i, j | 0 <= i < j < |r| ensures r[i].amount >= r[j].amount {
      assert r[j] == rest[j - 1];
      if i > 0 {
        assert r[i] == rest[i - 1];
      }
    }
  }

  /** The rows sorted by amount, largest first: the order of the bars. */
  function Rank(rows: seq<Row>): (r: seq<Row>)
    ensures NonIncreasing(r)
    ensures multiset(r) == multiset(rows)
  {
    if rows == [] then []
    else
      assert rows == [rows[0]] + rows[1..];
      Insert(rows[0], Rank(rows[1..]))
  }

  /** Ranking rows that are already ranked leaves them as they are. */
  lemma {:induction false} RankIdempotent(rows: seq<Row>)
    requires NonIncreasing(rows)
    ensures Rank(rows) == rows
  {
    if rows != [] {
      RankIdempotent(rows[1..]);
      assert rows == [rows[0]] + rows[1..];
    }
  }

  // ---------------------------------------------------------------------------
  // The expense categories breakdown (group by category, sum the amounts)
  // ---------------------------------------------------------------------------

  /** The category names that occur in the table. */
  function Categories(rows: seq<Row>): set<string> {
    set i | 0 <= i < |rows| :: rows[i].category
  }

  lemma CategoriesOfTail(rows: seq<Row>)
    requires rows != []
    ensures Categories(rows) == {rows[0].category} + Categories(rows[1..])
  {
    forall i | 0 < i < |rows| ensures rows[i].category in Categories(rows[1..]) {
      assert rows[1..][i - 1] == rows[i];
    }
  }

  /** The sum of the amounts of the rows named `c`. */
  function CategorySum(rows: seq<Row>, c: string): (s: int)
    ensures c !in Categories(rows) ==> s == 0
  {
    if rows == [] then 0
    else
      CategoriesOfTail(rows);
      (if rows[0].category == c then rows[0].amount else 0) + CategorySum(rows[1..], c)
  }

  /** The group-by-category sum: one entry per category name, with the sum of that
      name's amounts. */
  function Breakdown(rows: seq<Row>): (m: map<string, int>)
    ensures m.Keys == Categories(rows)
    ensures forall c :: c in m ==> m[c] == CategorySum(rows, c)
  {
    if rows == [] then map[]
    else
      var m0 := Breakdown(rows[1..]);
      var c := rows[0].category;
      CategoriesOfTail(rows);
      m0[c := rows[0].amount + (if c in m0 then m0[c] else 0)]
  }

  /** Each category's share, in percent, of the total expenses; None when the
      total is zero, where the division has no value. */
  function BreakdownShares(rows: seq<Row>): (r: Option<map<string, real>>)
    ensures r.None? <==> Total(rows) == 0
    ensures r.Some? ==> r.value.Keys == Categories(rows)
    ensures r.Some? ==> forall c :: c in r.value ==> r.value[c] == Percentage(CategorySum(rows, c), Total(rows))
  {
    var total := Total(rows);
    if total == 0 then None
    else
      var m := Breakdown(rows);
      Some(map c | c in m :: Percentage(m[c], total))
  }

  predicate Distinct(ks: seq<string>) {
    forall i, j :: 0 <= i < j < |ks| ==> ks[i] != ks[j]
  }

  /** `ks` lists every element of `s` exactly once, in some order. */
  predicate Enumerates(ks: seq<string>, s: set<string>) {
    Distinct(ks) && (forall k :: k in ks ==> k in s) && (forall k :: k in s ==> k in ks)
  }

  /** The category names, each once: a witness that the breakdown's categories can
      be enumerated, so `BreakdownTotal` and `BreakdownSharesSumTo100` apply to
      every table. */
  function CategoryList(rows: seq<Row>): (ks: seq<string>)
    ensures Enumerates(ks, Categories(rows))
  {
    if rows == [] then []
    else
      var rest := CategoryList(rows[1..]);
      CategoriesOfTail(rows);
      if rows[0].category in rest then rest else [rows[0].category] + rest
  }

  /** The sum of a breakdown's amounts, taken over the keys `ks`. */
  function SumOver(ks: seq<string>, m: map<string, int>): int
    requires forall k :: k in ks ==> k in m
  {
    if ks == [] then 0 else m[ks[0]] + SumOver(ks[1..], m)
  }

  /** The sum of breakdown shares, taken over the keys `ks`. */
  function ShareSumOver(ks: seq<string>, m: map<string, real>): real
    requires forall k :: k in ks ==> k in m
  {
    if ks == [] then 0.0 else m[ks[0]] + ShareSumOver(ks[1..], m)
  }

  /** The sum, over `ks`, of each name's category sum. */
  function CategorySums(rows: seq<Row>, ks: seq<string>): int {
    if ks == [] then 0 else CategorySum(rows, ks[0]) + CategorySums(rows, ks[1..])
  }

  /** Removing the first row takes its amount off exactly one name's sum, if its
      name is listed at all. */
  lemma {:induction false} CategorySumsDropFirst(rows: seq<Row>, ks: seq<string>)
    requires rows != []
    requires Distinct(ks)
    ensures CategorySums(rows, ks) ==
      CategorySums(rows[1..], ks) + (if rows[0].category in ks then rows[0].amount else 0)
  {
    if ks != [] {
      CategorySumsDropFirst(rows, ks[1..]);
    }
  }

  /** Summing the category sums over names that cover every category gives the total. */
  lemma {:induction false} CategorySumsCoverTotal(rows: seq<Row>, ks: seq<string>)
    requires Distinct(ks)
    requires forall k :: k in Categories(rows) ==> k in ks
    ensures CategorySums(rows, ks) == Total(rows)
  {
    if rows == [] {
      CategorySumsOfEmpty(ks);
    } else {
      assert rows[0].category in Categories(rows);
      assert forall k :: k in Categories(rows[1..]) ==> k in Categories(rows) by {
        forall i | 0 <= i < |rows[1..]| ensures rows[1..][i].category in Categories(rows) {
          assert rows[1..][i] == rows[i + 1];
        }
      }
      CategorySumsDropFirst(rows, ks);
      CategorySumsCoverTotal(rows[1..], ks);
    }
  }

  lemma {:induction false} CategorySumsOfEmpty(ks: seq<string>)
    ensures CategorySums([], ks) == 0
  {
    if ks != [] {
      CategorySumsOfEmpty(ks[1..]);
    }
  }

  lemma {:induction false} SumOverBreakdown(rows: seq<Row>, ks: seq<string>)
    requires forall k :: k in ks ==> k in Categories(rows)
    ensures SumOver(ks, Breakdown(rows)) == CategorySums(rows, ks)
  {
    if ks != [] {
      SumOverBreakdown(rows, ks[1..]);
    }
  }

  /** Grouping preserves the total: whatever order the breakdown's categories are
      listed in, their amounts add up to the total expenses. */
  lemma BreakdownTotal(rows: seq<Row>, ks: seq<string>)
    requires Enumerates(ks, Categories(rows))
    ensures SumOver(ks, Breakdown(rows)) == Total(rows)
  {
    SumOverBreakdown(rows, ks);
    CategorySumsCoverTotal(rows, ks);
  }

  lemma {:induction false} ShareSumIsShareOfSum(ks: seq<string>, m: map<string, int>, total: int)
    requires total != 0
    requires forall k :: k in ks ==> k in m
    ensures ShareSumOver(ks, map c | c in m :: Percentage(m[c], total)) == Percentage(SumOver(ks, m), total)
  {
    if ks != [] {
      ShareSumIsShareOfSum(ks[1..], m, total);
      PercentageAdds(m[ks[0]], SumOver(ks[1..], m), total);
    }
  }

  /** When the total is not zero the breakdown's shares add up to 100, whatever
      order its categories are listed in. */
  lemma BreakdownSharesSumTo100(rows: seq<Row>, ks: seq<string>)
    requires Total(rows) != 0
    requires Enumerates(ks, Categories(rows))
    ensures BreakdownShares(rows).Some?
    ensures ShareSumOver(ks, BreakdownShares(rows).value) == 100.0
  {
    var total := Total(rows);
    var m := Breakdown(rows);
    assert BreakdownShares(rows).value == map c | c in m :: Percentage(m[c], total);
    ShareSumIsShareOfSum(ks, m, total);
    BreakdownTotal(rows, ks);
    WholeIsHundred(total);
  }

  lemma WholeIsHundred(base: int)
    requires base != 0
    ensures Percentage(base, base) == 100.0
  {
  }

  /** In a table whose category names are all different, a category's group is
      that one row's amount. */
  lemma {:induction false} CategorySumOfDistinct(rows: seq<Row>, i: int)
    requires 0 <= i < |rows|
    requires forall j, k :: 0 <= j < k < |rows| ==> rows[j].category != rows[k].category
    ensures CategorySum(rows, rows[i].category) == rows[i].amount
  {
    if i == 0 {
      assert rows[0].category !in Categories(rows[1..]);
    } else {
      CategorySumOfDistinct(rows[1..], i - 1);
    }
  }

  // ---------------------------------------------------------------------------
  // The seed table
  // ---------------------------------------------------------------------------

  /** The seed amounts are not negative and add up to 7500, the default income. */
  lemma SeedTotal()
    ensures AmountsNonNegative(SeedRows())
    ensures Total(SeedRows()) == DefaultIncome
  {
    SeedAmountsSum();
    SeedAmountsNonNegative();
    TotalIsSum(SeedRows(), SeedAmounts);
  }

  lemma SeedAmountsSum()
    ensures Sum(SeedAmounts) == DefaultIncome
  {
  }

  lemma SeedAmountsNonNegative()
    ensures forall i :: 0 <= i < |SeedAmounts| ==> SeedAmounts[i] >= MinAmount
  {
    assert forall x :: x in SeedAmounts ==> x >= MinAmount;
  }

  /** The seed category names are pairwise different (their initials already are). */
  lemma SeedCategoriesDistinct()
    ensures forall j, k :: 0 <= j < k < |SeedCategories| ==> SeedCategories[j] != SeedCategories[k]
  {
    var initials := "HUTFSDIEM";
    assert forall j :: 0 <= j < |SeedCategories| ==> |SeedCategories[j]| > 0 && SeedCategories[j][0] == initials[j];
  }

  /** With the default income the seed table saves nothing and gets the warning.
      As the seed total is the default income, this also says that the seed
      percentages, taken against the seed total, add up to 100. */
  lemma SeedScenario()
    ensures Total(SeedRows()) == DefaultIncome
    ensures PercentageSum(WithPercentages(SeedRows(), Total(SeedRows()))) == 100.0
    ensures SavingsRate(WithPercentages(SeedRows(), DefaultIncome)) == 0.0
    ensures Advise(SavingsRate(WithPercentages(SeedRows(), DefaultIncome))) == Warning
  {
    SeedTotal();
    PercentageSumIsShareOfTotal(SeedRows(), DefaultIncome);
    WholeIsHundred(DefaultIncome);
  }
}
