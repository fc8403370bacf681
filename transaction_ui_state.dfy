/** The snapshot the transaction list screen renders. */
module TransactionUiState {
  import opened Wrappers
  import opened Dates
  import opened Transactions

  /**
   * `TransactionUiState`, with the defaults of its Kotlin declaration:
   * `filter` is the tri-state type filter (`Some(true)` income only,
   * `Some(false)` expenses only, `None` everything).
   */
  datatype TransactionUiState = TransactionUiState(
    transactions: seq<Transaction> := [],
    filteredTransactions: seq<Transaction> := [],
    currentMonth: MonthOfYear := January,
    filter: Option<bool> := None,
    searchQuery: string := "",
    searchVisible: bool := false,
    totalIncome: int := 0,
    totalExpense: int := 0)

  /** `TransactionUiState()`: what the screen holds before the first emission. */
  function Initial(): (s: TransactionUiState)
    ensures s.transactions == [] && s.filteredTransactions == []
    ensures s.currentMonth == January
    ensures s.filter == None && s.searchQuery == "" && !s.searchVisible
    ensures s.totalIncome == 0 && s.totalExpense == 0
  {
    TransactionUiState()
  }
}
