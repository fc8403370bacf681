/**
 * The statistics page: the month's income/expense split, and
 * `getLabeledSlices`, which groups a list of transactions by category
 * and gives each group its share of the total and a palette colour.
 */
module StatsScreen {
  import opened Seqs
  import opened Dates
  import opened Transactions
  import opened TransactionViewModel

  /** The pie chart palette has twelve colours; a slice keeps only its index into it. */
  const PaletteSize: nat := 12

  /** `LabeledSlice`; its `label` (here `category`, since `label` is a reserved word) is the group's category, `value` is the share of the total, `amount` the group's sum of absolute amounts. */
  datatype LabeledSlice = LabeledSlice(category: string, value: real, amount: nat, color: nat)

  /** `sumOf { abs(it.amount) }`. */
  function TotalAbs(xs: seq<Transaction>): (r: nat)
    ensures r == 0 <==> forall i :: 0 <= i < |xs| ==> xs[i].amount == 0
  {
    if xs == [] then 0
    else
      var init := xs[..|xs| - 1];
      assert forall i :: 0 <= i < |init| ==> init[i] == xs[i];
      TotalAbs(init) + Abs(xs[|xs| - 1].amount)
  }

  /** Some transaction of `xs` has category `c`. */
  predicate HasCategory(xs: seq<Transaction>, c: string) {
    exists i :: 0 <= i < |xs| && xs[i].category == c
  }

  predicate Distinct(cs: seq<string>) {
    forall i, j :: 0 <= i < j < |cs| ==> cs[i] != cs[j]
  }

  /** The keys of `groupBy { it.category }`: each category once, in the order it is first met. */
  function Categories(xs: seq<Transaction>): (cs: seq<string>)
    ensures Distinct(cs)
    ensures forall c :: c in cs <==> HasCategory(xs, c)
  {
    if xs == [] then []
    else
      var init := Categories(xs[..|xs| - 1]);
      var c := xs[|xs| - 1].category;
      assert forall d :: HasCategory(xs, d) <==> HasCategory(xs[..|xs| - 1], d) || d == c by {
        forall d | HasCategory(xs, d) && d != c ensures HasCategory(xs[..|xs| - 1], d) {
          var i :| 0 <= i < |xs| && xs[i].category == d;
          assert xs[..|xs| - 1][i].category == d;
        }
        forall d | HasCategory(xs[..|xs| - 1], d) ensures HasCategory(xs, d) {
          var i :| 0 <= i < |xs| - 1 && xs[..|xs| - 1][i].category == d;
          assert xs[i].category == d;
        }
      }
      if c in init then init else init + [c]
  }

  /** The index of the first transaction of `xs` with category `c`. */
  function FirstIndex(xs: seq<Transaction>, c: string): (k: nat)
    requires HasCategory(xs, c)
    ensures k < |xs| && xs[k].category == c
    ensures forall i :: 0 <= i < k ==> xs[i].category != c
  {
    var init := xs[..|xs| - 1];
    if HasCategory(init, c) then
      var k := FirstIndex(init, c);
      assert xs[k] == init[k];
      k
    else
      assert forall i :: 0 <= i < |xs| - 1 ==> xs[i] == init[i];
      |xs| - 1
  }

  /** The value `groupBy` then `mapValues { sumOf { abs(it.amount) } }` gives category `c`. */
  function GroupAbs(xs: seq<Transaction>, c: string): nat {
    if xs == [] then 0
    else GroupAbs(xs[..|xs| - 1], c) + (if xs[|xs| - 1].category == c then Abs(xs[|xs| - 1].amount) else 0)
  }

  /**
   * `mapIndexed` over the groups: the slice at position `i` carries the
   * `i`-th category, its sum, its share of `total` and palette entry
   * `i mod 12`.
   */
  function BuildSlices(cs: seq<string>, xs: seq<Transaction>, total: nat): (r: seq<LabeledSlice>)
    requires total > 0
    ensures |r| == |cs|
    ensures forall i :: 0 <= i < |r| ==>
              && r[i].category == cs[i]
              && r[i].amount == GroupAbs(xs, cs[i])
              && r[i].value == GroupAbs(xs, cs[i]) as real / total as real
              && r[i].color == i % PaletteSize
  {
    if cs == [] then []
    else
      var n := |cs| - 1;
      var g := GroupAbs(xs, cs[n]);
      BuildSlices(cs[..n], xs, total) + [LabeledSlice(cs[n], g as real / total as real, g, n % PaletteSize)]
  }

  /** `getLabeledSlices(transactions)`. */
  function LabeledSlices(xs: seq<Transaction>): (r: seq<LabeledSlice>)
    ensures TotalAbs(xs) == 0 ==> r == []
    ensures TotalAbs(xs) > 0 ==> |r| == |Categories(xs)|
    ensures forall i :: 0 <= i < |r| ==> r[i].category == Categories(xs)[i]
    ensures forall i :: 0 <= i < |r| ==> r[i].amount == GroupAbs(xs, r[i].category)
    ensures forall i :: 0 <= i < |r| ==> r[i].value == r[i].amount as real / TotalAbs(xs) as real
    ensures forall i :: 0 <= i < |r| ==> r[i].color == i % PaletteSize && r[i].color < PaletteSize
  {
    var total := TotalAbs(xs);
    if total == 0 then [] else BuildSlices(Categories(xs), xs, total)
  }

  /** A transaction with no category `c` contributes nothing to group `c`. */
  lemma {:induction false} GroupAbsAbsent(xs: seq<Transaction>, c: string)
    requires !HasCategory(xs, c)
    ensures GroupAbs(xs, c) == 0
  {
    if xs != [] {
      GroupAbsAbsent(xs[..|xs| - 1], c);
    }
  }

  /** No group sums to more than the whole list. */
  lemma {:induction false} GroupAbsBounded(xs: seq<Transaction>, c: string)
    ensures GroupAbs(xs, c) <= TotalAbs(xs)
  {
    if xs != [] {
      GroupAbsBounded(xs[..|xs| - 1], c);
    }
  }

  /** When no amount is zero, every category that occurs has a positive sum. */
  lemma {:induction false} GroupAbsPositive(xs: seq<Transaction>, c: string)
    requires HasCategory(xs, c)
    requires forall i :: 0 <= i < |xs| ==> xs[i].amount != 0
    ensures GroupAbs(xs, c) > 0
  {
    var init := xs[..|xs| - 1];
    if xs[|xs| - 1].category != c {
      var i :| 0 <= i < |xs| && xs[i].category == c;
      assert init[i].category == c;
      GroupAbsPositive(init, c);
    }
  }

  /** The sum of the group sums of the categories `cs`. */
  function SumGroups(cs: seq<string>, xs: seq<Transaction>): nat {
    if cs == [] then 0 else SumGroups(cs[..|cs| - 1], xs) + GroupAbs(xs, cs[|cs| - 1])
  }

  /** Appending one transaction adds its absolute amount to the group sums exactly when its category is among `cs`. */
  lemma {:induction false} SumGroupsSnoc(cs: seq<string>, ys: seq<Transaction>, t: Transaction)
    requires Distinct(cs)
    ensures SumGroups(cs, ys + [t]) == SumGroups(cs, ys) + (if t.category in cs then Abs(t.amount) else 0)
  {
    if cs != [] {
      var init := cs[..|cs| - 1];
      var c := cs[|cs| - 1];
      assert Distinct(init);
      SumGroupsSnoc(init, ys, t);
      assert (ys + [t])[..|ys|] == ys;
      assert t.category in cs <==> t.category in init || t.category == c;
      assert c !in init;
    }
  }

  /** The group sums of all the categories add up to the total: every transaction is in exactly one group. */
  lemma {:induction false} SumGroupsTotal(xs: seq<Transaction>)
    ensures SumGroups(Categories(xs), xs) == TotalAbs(xs)
  {
    if xs != [] {
      var ys := xs[..|xs| - 1];
      var t := xs[|xs| - 1];
      assert xs == ys + [t];
      var cs := Categories(ys);
      SumGroupsTotal(ys);
      SumGroupsSnoc(cs, ys, t);
      if t.category !in cs {
        GroupAbsAbsent(ys, t.category);
        assert (cs + [t.category])[..|cs|] == cs;
      }
    }
  }

  function SumSliceAmounts(r: seq<LabeledSlice>): nat {
    if r == [] then 0 else SumSliceAmounts(r[..|r| - 1]) + r[|r| - 1].amount
  }

  function SumSliceValues(r: seq<LabeledSlice>): real {
    if r == [] then 0.0 else SumSliceValues(r[..|r| - 1]) + r[|r| - 1].value
  }

  /** Shares of one total add like their amounts. */
  lemma SharesAdd(a: nat, b: nat, total: nat)
    requires total > 0
    ensures a as real / total as real + b as real / total as real == (a + b) as real / total as real
  {
  }

  /** A part of a positive total has a share in [0, 1], positive when the part is, and the whole has share 1. */
  lemma ShareBounds(part: nat, total: nat)
    requires 0 < total && part <= total
    ensures 0.0 <= part as real / total as real <= 1.0
    ensures part > 0 ==> part as real / total as real > 0.0
    ensures part == total ==> part as real / total as real == 1.0
  {
  }

  /** The slice amounts and shares add up to the group sums of `cs`. */
  lemma {:induction false} BuildSlicesSums(cs: seq<string>, xs: seq<Transaction>, total: nat)
    requires total > 0
    ensures SumSliceAmounts(BuildSlices(cs, xs, total)) == SumGroups(cs, xs)
    ensures SumSliceValues(BuildSlices(cs, xs, total)) == SumGroups(cs, xs) as real / total as real
  {
    if cs != [] {
      var n := |cs| - 1;
      var r := BuildSlices(cs, xs, total);
      assert r[..n] == BuildSlices(cs[..n], xs, total);
      BuildSlicesSums(cs[..n], xs, total);
      SharesAdd(SumGroups(cs[..n], xs), GroupAbs(xs, cs[n]), total);
    }
  }

  /** The slice amounts add up to the sum of all absolute amounts. */
  lemma SliceAmountsSumToTotal(xs: seq<Transaction>)
    ensures SumSliceAmounts(LabeledSlices(xs)) == TotalAbs(xs)
  {
    if TotalAbs(xs) > 0 {
      BuildSlicesSums(Categories(xs), xs, TotalAbs(xs));
      SumGroupsTotal(xs);
    }
  }

  /** Unless the list is all zeros, the shares add up to exactly 1. */
  lemma SliceValuesSumToOne(xs: seq<Transaction>)
    requires TotalAbs(xs) > 0
    ensures SumSliceValues(LabeledSlices(xs)) == 1.0
  {
    BuildSlicesSums(Categories(xs), xs, TotalAbs(xs));
    SumGroupsTotal(xs);
    ShareBounds(TotalAbs(xs), TotalAbs(xs));
  }

  /** The result is empty exactly when the absolute amounts sum to zero (in particular for no transactions). */
  lemma SlicesEmptyIffZeroTotal(xs: seq<Transaction>)
    ensures LabeledSlices(xs) == [] <==> TotalAbs(xs) == 0
  {
    if TotalAbs(xs) > 0 {
      SumGroupsTotal(xs);
      assert Categories(xs) != [];
    }
  }

  /**
   * One slice per distinct category: labels are pairwise distinct, every
   * category of the input has a slice, and slices come in the order their
   * categories first occur in the input.
   */
  lemma SliceLabels(xs: seq<Transaction>)
    requires TotalAbs(xs) > 0
    ensures forall i, j :: 0 <= i < j < |LabeledSlices(xs)| ==> LabeledSlices(xs)[i].category != LabeledSlices(xs)[j].category
    ensures forall c :: HasCategory(xs, c) <==> exists i :: 0 <= i < |LabeledSlices(xs)| && LabeledSlices(xs)[i].category == c
    ensures forall i, j :: 0 <= i < j < |LabeledSlices(xs)| ==>
              FirstIndex(xs, LabeledSlices(xs)[i].category) < FirstIndex(xs, LabeledSlices(xs)[j].category)
  {
    var cs := Categories(xs);
    forall c | HasCategory(xs, c) ensures exists i :: 0 <= i < |LabeledSlices(xs)| && LabeledSlices(xs)[i].category == c {
      var i :| 0 <= i < |cs| && cs[i] == c;
      assert LabeledSlices(xs)[i].category == c;
    }
    CategoriesInFirstSeenOrder(xs);
  }

  /** The categories come in the order of their first occurrence. */
  lemma {:induction false} CategoriesInFirstSeenOrder(xs: seq<Transaction>)
    ensures forall i, j :: 0 <= i < j < |Categories(xs)| ==>
              FirstIndex(xs, Categories(xs)[i]) < FirstIndex(xs, Categories(xs)[j])
  {
    if xs != [] {
      var ys := xs[..|xs| - 1];
      var cs := Categories(ys);
      CategoriesInFirstSeenOrder(ys);
      forall e | e in cs ensures FirstIndex(xs, e) == FirstIndex(ys, e) {
      }
      if xs[|xs| - 1].category !in cs {
        forall e | e in cs ensures FirstIndex(xs, e) < |xs| - 1 {
        }
      }
    }
  }

  /** Every share lies in [0, 1]; when no amount is zero (as on the stats page), in (0, 1]. */
  lemma SliceValuesBounded(xs: seq<Transaction>)
    ensures forall i :: 0 <= i < |LabeledSlices(xs)| ==> 0.0 <= LabeledSlices(xs)[i].value <= 1.0
    ensures (forall k :: 0 <= k < |xs| ==> xs[k].amount != 0) ==>
              forall i :: 0 <= i < |LabeledSlices(xs)| ==> LabeledSlices(xs)[i].value > 0.0
  {
    var r := LabeledSlices(xs);
    var total := TotalAbs(xs);
    forall i | 0 <= i < |r| ensures 0.0 <= r[i].value <= 1.0 {
      GroupAbsBounded(xs, r[i].category);
      ShareBounds(r[i].amount, total);
    }
    if forall k :: 0 <= k < |xs| ==> xs[k].amount != 0 {
      forall i | 0 <= i < |r| ensures r[i].value > 0.0 {
        assert r[i].category in Categories(xs);
        GroupAbsPositive(xs, r[i].category);
        GroupAbsBounded(xs, r[i].category);
        ShareBounds(r[i].amount, total);
      }
    }
  }

  /** `a` is ordered by amount, largest first. */
  predicate SortedByAmountDescending(a: seq<LabeledSlice>) {
    forall i, j :: 0 <= i < j < |a| ==> a[i].amount >= a[j].amount
  }

  /** Puts `s` before the first slice whose amount does not exceed its own. */
  function InsertByAmount(s: LabeledSlice, sorted: seq<LabeledSlice>): seq<LabeledSlice> {
    if sorted == [] || sorted[0].amount <= s.amount then [s] + sorted
    else [sorted[0]] + InsertByAmount(s, sorted[1..])
  }

  /** Insertion adds `s` and nothing else. */
  lemma {:induction false} InsertByAmountPermutes(s: LabeledSlice, sorted: seq<LabeledSlice>)
    ensures multiset(InsertByAmount(s, sorted)) == multiset(sorted) + multiset{s}
  {
    if sorted != [] && sorted[0].amount > s.amount {
      InsertByAmountPermutes(s, sorted[1..]);
      assert sorted == [sorted[0]] + sorted[1..];
    }
  }

  /** Insertion brings in no amount above a bound that `s` and every slice already respect. */
  lemma {:induction false} InsertByAmountBounded(s: LabeledSlice, sorted: seq<LabeledSlice>, bound: int)
    requires s.amount <= bound
    requires forall k :: 0 <= k < |sorted| ==> sorted[k].amount <= bound
    ensures forall k :: 0 <= k < |InsertByAmount(s, sorted)| ==> InsertByAmount(s, sorted)[k].amount <= bound
  {
    if sorted != [] && sorted[0].amount > s.amount {
      InsertByAmountBounded(s, sorted[1..], bound);
      var rest := InsertByAmount(s, sorted[1..]);
      assert forall k :: 1 <= k < |rest| + 1 ==> ([sorted[0]] + rest)[k] == rest[k - 1];
    }
  }

  /** Insertion into a list ordered largest first keeps it ordered. */
  lemma {:induction false} InsertByAmountSorted(s: LabeledSlice, sorted: seq<LabeledSlice>)
    requires SortedByAmountDescending(sorted)
    ensures SortedByAmountDescending(InsertByAmount(s, sorted))
  {
    if sorted != [] && sorted[0].amount > s.amount {
      var rest := InsertByAmount(s, sorted[1..]);
      InsertByAmountSorted(s, sorted[1..]);
      InsertByAmountBounded(s, sorted[1..], sorted[0].amount);
      var r := [sorted[0]] + rest;
      forall i, j | 0 <= i < j < |r| ensures r[i].amount >= r[j].amount {
        assert r[j] == rest[j - 1];
        if i > 0 {
          assert r[i] == rest[i - 1];
        }
      }
    }
  }

  /** `sortedByDescending { it.amount }` for the legend: a permutation ordered by amount, largest first. */
  function SortByAmountDescending(slices: seq<LabeledSlice>): (r: seq<LabeledSlice>)
    ensures multiset(r) == multiset(slices)
    ensures SortedByAmountDescending(r)
  {
    if slices == [] then []
    else
      var rest := SortByAmountDescending(slices[1..]);
      assert slices == [slices[0]] + slices[1..];
      InsertByAmountPermutes(slices[0], rest);
      InsertByAmountSorted(slices[0], rest);
      InsertByAmount(slices[0], rest)
  }

  /** What the statistics page derives for one month. */
  datatype StatsSummary = StatsSummary(
    monthTransactions: seq<Transaction>,
    incomeTransactions: seq<Transaction>,
    expenseTransactions: seq<Transaction>,
    incomeTotal: int,
    expenseTotal: int,
    balance: int,
    incomeSlices: seq<LabeledSlice>,
    expenseSlices: seq<LabeledSlice>)

  /** The month's income and expense lists: each is one filter of the stored list, keeps its order and holds exactly its side. */
  lemma MonthSides(all: seq<Transaction>, month: YearMonth)
    ensures var monthly := ByMonth(all, month);
      && Filter(monthly, IsIncome) == Filter(all, t => InMonth(month, t) && t.amount > 0)
      && Filter(monthly, IsExpense) == Filter(all, t => InMonth(month, t) && t.amount < 0)
      && (forall t :: t in monthly <==> t in all && InMonth(month, t))
      && (forall t :: t in Filter(monthly, IsIncome) <==> t in all && InMonth(month, t) && t.amount > 0)
      && (forall t :: t in Filter(monthly, IsExpense) <==> t in all && InMonth(month, t) && t.amount < 0)
      && IsSubsequence(monthly, all)
      && IsSubsequence(Filter(monthly, IsIncome), monthly)
      && IsSubsequence(Filter(monthly, IsExpense), monthly)
  {
    var monthly := ByMonth(all, month);
    FilterFuse(all, t => InMonth(month, t), IsIncome, t => InMonth(month, t) && t.amount > 0);
    FilterFuse(all, t => InMonth(month, t), IsExpense, t => InMonth(month, t) && t.amount < 0);
    FilterMembers(all, t => InMonth(month, t));
    FilterMembers(monthly, IsIncome);
    FilterMembers(monthly, IsExpense);
    FilterIsSubsequence(all, t => InMonth(month, t));
    FilterIsSubsequence(monthly, IsIncome);
    FilterIsSubsequence(monthly, IsExpense);
  }

  /**
   * The body of `StatsScreen` before layout: the month's transactions,
   * split into income (amount > 0) and expenses (amount < 0), their
   * totals, the balance shown, and a breakdown of each side.
   */
  function Summarize(all: seq<Transaction>, month: YearMonth): (v: StatsSummary)
    requires AllDatesParse(all)
    ensures v.monthTransactions == Filter(all, t => InMonth(month, t))
    ensures v.incomeTransactions == Filter(all, t => InMonth(month, t) && t.amount > 0)
    ensures v.expenseTransactions == Filter(all, t => InMonth(month, t) && t.amount < 0)
    ensures v.incomeTotal == SumAmounts(v.incomeTransactions) && v.expenseTotal == SumAmounts(v.expenseTransactions)
    ensures v.incomeSlices == LabeledSlices(v.incomeTransactions) && v.expenseSlices == LabeledSlices(v.expenseTransactions)
    ensures forall t :: t in v.monthTransactions <==> t in all && InMonth(month, t)
    ensures forall t :: t in v.incomeTransactions <==> t in all && InMonth(month, t) && t.amount > 0
    ensures forall t :: t in v.expenseTransactions <==> t in all && InMonth(month, t) && t.amount < 0
    ensures IsSubsequence(v.monthTransactions, all)
    ensures IsSubsequence(v.incomeTransactions, v.monthTransactions)
    ensures IsSubsequence(v.expenseTransactions, v.monthTransactions)
    ensures v.incomeTotal >= 0 && v.expenseTotal <= 0
    ensures v.balance == v.incomeTotal + v.expenseTotal == SumAmounts(v.monthTransactions)
    ensures forall i :: 0 <= i < |v.incomeSlices| ==> 0.0 < v.incomeSlices[i].value <= 1.0
    ensures forall i :: 0 <= i < |v.expenseSlices| ==> 0.0 < v.expenseSlices[i].value <= 1.0
  {
    var monthly := ByMonth(all, month);
    var income := Filter(monthly, IsIncome);
    var expense := Filter(monthly, IsExpense);
    MonthSides(all, month);
    IncomeSumNonNegative(monthly);
    ExpenseSumNonPositive(monthly);
    IncomeExpenseSplit(monthly);
    SliceValuesBounded(income);
    SliceValuesBounded(expense);
    var incomeTotal, expenseTotal := SumAmounts(income), SumAmounts(expense);
    StatsSummary(monthly, income, expense, incomeTotal, expenseTotal, incomeTotal + expenseTotal,
                 LabeledSlices(income), LabeledSlices(expense))
  }

  /** The page's own `currentYearMonth`, moved by the two arrow buttons. */
  class StatsScreenState {
    var currentYearMonth: YearMonth

    constructor (now: YearMonth)
      ensures currentYearMonth == now
    {
      currentYearMonth := now;
    }

    /** What the page shows for the store snapshot `all`. */
    function Summary(all: seq<Transaction>): (v: StatsSummary)
      reads this
      requires AllDatesParse(all)
      ensures v.monthTransactions == ByMonth(all, currentYearMonth)
      ensures v.balance == SumAmounts(v.monthTransactions)
    {
      Summarize(all, currentYearMonth)
    }

    /** The back arrow: `currentYearMonth.minusMonths(1)`. */
    method PreviousMonth()
      modifies this
      ensures currentYearMonth == old(currentYearMonth).Previous()
    {
      currentYearMonth := currentYearMonth.Previous();
    }

    /** The forward arrow: `currentYearMonth.plusMonths(1)`. */
    method NextMonth()
      modifies this
      ensures currentYearMonth == old(currentYearMonth).Next()
    {
      currentYearMonth := currentYearMonth.Next();
    }
  }
}
