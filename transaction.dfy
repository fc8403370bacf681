/**
 * The `Transaction` record of the app's model layer and the sums the
 * screens take over lists of transactions. A positive amount is income,
 * a negative one an expense; amounts are whole minor units.
 */
module Transactions {
  import opened Seqs

  datatype Transaction = Transaction(id: int, title: string, amount: int, category: string, date: string)

  predicate IsIncome(t: Transaction) {
    t.amount > 0
  }

  predicate IsExpense(t: Transaction) {
    t.amount < 0
  }

  function Abs(x: int): (r: nat)
    ensures r == x || r == -x
  {
    if x < 0 then -x else x
  }

  /** `sumOf { it.amount }`. */
  function SumAmounts(xs: seq<Transaction>): int {
    if xs == [] then 0 else xs[0].amount + SumAmounts(xs[1..])
  }

  /** A sum of incomes is never negative. */
  lemma {:induction false} IncomeSumNonNegative(xs: seq<Transaction>)
    ensures SumAmounts(Filter(xs, IsIncome)) >= 0
  {
    if xs != [] {
      IncomeSumNonNegative(xs[1..]);
    }
  }

  /** A sum of expenses is never positive. */
  lemma {:induction false} ExpenseSumNonPositive(xs: seq<Transaction>)
    ensures SumAmounts(Filter(xs, IsExpense)) <= 0
  {
    if xs != [] {
      ExpenseSumNonPositive(xs[1..]);
    }
  }

  /** Income plus expenses is the plain sum: zero amounts, in neither part, add nothing. */
  lemma {:induction false} IncomeExpenseSplit(xs: seq<Transaction>)
    ensures SumAmounts(Filter(xs, IsIncome)) + SumAmounts(Filter(xs, IsExpense)) == SumAmounts(xs)
  {
    if xs != [] {
      IncomeExpenseSplit(xs[1..]);
    }
  }
}
