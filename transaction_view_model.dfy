/**
 * `TransactionViewModel`: the view parameters of the transaction list
 * (month, type filter, search text, search-box visibility) and the
 * derivation of the screen state from them and the stored transactions.
 */
module TransactionViewModel {
  import opened Wrappers
  import opened Text
  import opened Seqs
  import opened Dates
  import opened Transactions
  import opened TransactionUiState

  /** Every date is text `LocalDate.parse` accepts; on any other the derivation throws. */
  predicate AllDatesParse(xs: seq<Transaction>) {
    forall i :: 0 <= i < |xs| ==> ParseDate(xs[i].date).Some?
  }

  /** `YearMonth.from(LocalDate.parse(t.date)) == month`: year and month agree, the day does not matter. */
  predicate InMonth(month: YearMonth, t: Transaction) {
    match ParseDate(t.date)
    case Some(d) => YearMonthOf(d) == month
    case None => false
  }

  /** The month step: `all.filter { YearMonth.from(LocalDate.parse(it.date)) == month }`. */
  function ByMonth(all: seq<Transaction>, month: YearMonth): seq<Transaction> {
    Filter(all, t => InMonth(month, t))
  }

  /** The type step, `when (filter)`. */
  function ByType(xs: seq<Transaction>, filter: Option<bool>): seq<Transaction> {
    match filter
    case Some(true) => Filter(xs, IsIncome)
    case Some(false) => Filter(xs, IsExpense)
    case None => xs
  }

  /** Title or category contains the query, ignoring case; the query is used untrimmed. */
  predicate MatchesSearch(search: string, t: Transaction) {
    ContainsIgnoreCase(t.title, search) || ContainsIgnoreCase(t.category, search)
  }

  /** The search step: a blank query keeps everything. */
  function BySearch(xs: seq<Transaction>, search: string): seq<Transaction> {
    if IsBlank(search) then xs else Filter(xs, t => MatchesSearch(search, t))
  }

  /** Which transactions a type filter admits: income strictly positive, expenses strictly negative. */
  predicate AdmitsType(filter: Option<bool>, t: Transaction) {
    match filter
    case Some(wantIncome) => if wantIncome then t.amount > 0 else t.amount < 0
    case None => true
  }

  /** Which transactions a search query admits. */
  predicate AdmitsSearch(search: string, t: Transaction) {
    IsBlank(search) || MatchesSearch(search, t)
  }

  /** The type step keeps exactly the transactions its filter admits. */
  lemma ByTypeMembers(xs: seq<Transaction>, filter: Option<bool>)
    ensures forall t :: t in ByType(xs, filter) <==> t in xs && AdmitsType(filter, t)
    ensures IsSubsequence(ByType(xs, filter), xs)
  {
    match filter
    case Some(b) =>
      var p := if b then IsIncome else IsExpense;
      FilterMembers(xs, p);
      FilterIsSubsequence(xs, p);
    case None =>
      SubsequenceReflexive(xs);
  }

  /** The search step keeps exactly the transactions its query admits. */
  lemma BySearchMembers(xs: seq<Transaction>, search: string)
    ensures forall t :: t in BySearch(xs, search) <==> t in xs && AdmitsSearch(search, t)
    ensures IsSubsequence(BySearch(xs, search), xs)
  {
    if IsBlank(search) {
      SubsequenceReflexive(xs);
    } else {
      FilterMembers(xs, t => MatchesSearch(search, t));
      FilterIsSubsequence(xs, t => MatchesSearch(search, t));
    }
  }

  /** What the list shows: a transaction of the month that the type filter and the query both admit. */
  predicate Selected(month: YearMonth, filter: Option<bool>, search: string, t: Transaction) {
    InMonth(month, t) && AdmitsType(filter, t) && AdmitsSearch(search, t)
  }

  /** The three steps together are one filter by `Selected`, so the list is fixed, repeated entries included. */
  lemma SelectionIsFilter(all: seq<Transaction>, month: YearMonth, filter: Option<bool>, search: string)
    ensures BySearch(ByType(ByMonth(all, month), filter), search) == Filter(all, t => Selected(month, filter, search, t))
  {
    var inMonth := t => InMonth(month, t);
    var matches := t => MatchesSearch(search, t);
    var selected := t => Selected(month, filter, search, t);
    match filter
    case None =>
      if IsBlank(search) {
        FilterExtensional(all, inMonth, selected);
      } else {
        FilterFuse(all, inMonth, matches, selected);
      }
    case Some(b) =>
      var byType := if b then IsIncome else IsExpense;
      if IsBlank(search) {
        FilterFuse(all, inMonth, byType, selected);
      } else {
        var monthAndType := t => InMonth(month, t) && byType(t);
        FilterFuse(all, inMonth, byType, monthAndType);
        FilterFuse(all, monthAndType, matches, selected);
      }
  }

  /** The month, type and search steps together keep exactly the transactions all three admit. */
  lemma SelectionMembers(all: seq<Transaction>, month: YearMonth, filter: Option<bool>, search: string)
    ensures forall t :: t in BySearch(ByType(ByMonth(all, month), filter), search) <==>
              t in all && InMonth(month, t) && AdmitsType(filter, t) && AdmitsSearch(search, t)
  {
    FilterMembers(all, t => InMonth(month, t));
    ByTypeMembers(ByMonth(all, month), filter);
    BySearchMembers(ByType(ByMonth(all, month), filter), search);
  }

  /** The three steps together keep the transactions in their stored order. */
  lemma SelectionIsSubsequence(all: seq<Transaction>, month: YearMonth, filter: Option<bool>, search: string)
    ensures IsSubsequence(BySearch(ByType(ByMonth(all, month), filter), search), all)
  {
    var byMonth := ByMonth(all, month);
    FilterIsSubsequence(all, t => InMonth(month, t));
    FilterKeepsSubsequence(byMonth, all, if filter == Some(true) then IsIncome else IsExpense);
    assert IsSubsequence(ByType(byMonth, filter), all);
    FilterKeepsSubsequence(ByType(byMonth, filter), all, t => MatchesSearch(search, t));
  }

  /**
   * The `combine` lambda of `uiState`. The filtered list is the month,
   * then type, then search step; the totals are taken over the month step
   * alone.
   */
  function ComputeView(all: seq<Transaction>, month: YearMonth, filter: Option<bool>,
                       search: string, searchVisible: bool): (s: TransactionUiState)
    requires AllDatesParse(all)
    ensures s.transactions == all && s.currentMonth == month.month
    ensures s.filter == filter && s.searchQuery == search && s.searchVisible == searchVisible
    ensures forall t :: t in s.filteredTransactions <==>
              t in all && InMonth(month, t) && AdmitsType(filter, t) && AdmitsSearch(search, t)
    ensures s.filteredTransactions == Filter(all, t => Selected(month, filter, search, t))
    ensures IsSubsequence(s.filteredTransactions, all)
    ensures s.totalIncome == SumAmounts(Filter(all, t => InMonth(month, t) && t.amount > 0))
    ensures s.totalExpense == SumAmounts(Filter(all, t => InMonth(month, t) && t.amount < 0))
    ensures s.totalIncome >= 0 && s.totalExpense <= 0
    ensures s.totalIncome + s.totalExpense == SumAmounts(ByMonth(all, month))
  {
    var byMonth := ByMonth(all, month);
    var filtered := BySearch(ByType(byMonth, filter), search);
    var income := SumAmounts(Filter(byMonth, IsIncome));
    var expense := SumAmounts(Filter(byMonth, IsExpense));
    SelectionMembers(all, month, filter, search);
    SelectionIsSubsequence(all, month, filter, search);
    SelectionIsFilter(all, month, filter, search);
    FilterFuse(all, t => InMonth(month, t), IsIncome, t => InMonth(month, t) && t.amount > 0);
    FilterFuse(all, t => InMonth(month, t), IsExpense, t => InMonth(month, t) && t.amount < 0);
    IncomeSumNonNegative(byMonth);
    ExpenseSumNonPositive(byMonth);
    IncomeExpenseSplit(byMonth);
    TransactionUiState(
      transactions := all,
      currentMonth := month.month,
      filteredTransactions := filtered,
      filter := filter,
      searchQuery := search,
      searchVisible := searchVisible,
      totalIncome := income,
      totalExpense := expense)
  }

  /** The totals depend on the month and the transactions only, never on the type filter, the query or the search box. */
  lemma TotalsIgnoreFilterAndSearch(all: seq<Transaction>, month: YearMonth,
                                    f1: Option<bool>, q1: string, v1: bool,
                                    f2: Option<bool>, q2: string, v2: bool)
    requires AllDatesParse(all)
    ensures ComputeView(all, month, f1, q1, v1).totalIncome == ComputeView(all, month, f2, q2, v2).totalIncome
    ensures ComputeView(all, month, f1, q1, v1).totalExpense == ComputeView(all, month, f2, q2, v2).totalExpense
  {
  }

  /** Filtering by type then by search gives the same list as by search then by type. */
  lemma TypeAndSearchCommute(xs: seq<Transaction>, filter: Option<bool>, search: string)
    ensures BySearch(ByType(xs, filter), search) == ByType(BySearch(xs, search), filter)
  {
    if !IsBlank(search) && filter.Some? {
      FilterCommutes(xs, if filter.value then IsIncome else IsExpense, t => MatchesSearch(search, t));
    }
  }

  /**
   * The view model's own state: the latest store snapshot and the four
   * view parameters held in `MutableStateFlow`s.
   */
  class TransactionViewModel {
    var transactions: seq<Transaction>
    var currentMonth: YearMonth
    var filter: Option<bool>
    var searchQuery: string
    var searchVisible: bool

    /** Fresh view model: no transactions yet, the current month, no filter, empty hidden search. */
    constructor (now: YearMonth)
      ensures transactions == [] && currentMonth == now
      ensures filter == None && searchQuery == "" && !searchVisible
    {
      transactions := [];
      currentMonth := now;
      filter := None;
      searchQuery := "";
      searchVisible := false;
    }

    /** `uiState` once `combine` has emitted for the current inputs. */
    function UiState(): (s: TransactionUiState)
      reads this
      requires AllDatesParse(transactions)
      ensures s.filteredTransactions == BySearch(ByType(ByMonth(transactions, currentMonth), filter), searchQuery)
      ensures s.totalIncome + s.totalExpense == SumAmounts(ByMonth(transactions, currentMonth))
    {
      ComputeView(transactions, currentMonth, filter, searchQuery, searchVisible)
    }

    /** The store emits a new snapshot (most recent date first). */
    method OnTransactions(snapshot: seq<Transaction>)
      modifies this
      ensures transactions == snapshot
      ensures currentMonth == old(currentMonth) && filter == old(filter)
      ensures searchQuery == old(searchQuery) && searchVisible == old(searchVisible)
    {
      transactions := snapshot;
    }

    /** `previousMonth()`. */
    method PreviousMonth()
      modifies this
      ensures currentMonth == old(currentMonth).Previous()
      ensures currentMonth.Ordinal() == old(currentMonth).Ordinal() - 1
      ensures transactions == old(transactions) && filter == old(filter)
      ensures searchQuery == old(searchQuery) && searchVisible == old(searchVisible)
    {
      currentMonth := currentMonth.Previous();
    }

    /** `nextMonth()`. */
    method NextMonth()
      modifies this
      ensures currentMonth == old(currentMonth).Next()
      ensures currentMonth.Ordinal() == old(currentMonth).Ordinal() + 1
      ensures transactions == old(transactions) && filter == old(filter)
      ensures searchQuery == old(searchQuery) && searchVisible == old(searchVisible)
    {
      currentMonth := currentMonth.Next();
    }

    /** `setFilter(f)`: only the filter changes. */
    method SetFilter(f: Option<bool>)
      modifies this
      ensures filter == f
      ensures transactions == old(transactions) && currentMonth == old(currentMonth)
      ensures searchQuery == old(searchQuery) && searchVisible == old(searchVisible)
    {
      filter := f;
    }

    /** `setSearchQuery(q)`: only the query changes. */
    method SetSearchQuery(q: string)
      modifies this
      ensures searchQuery == q
      ensures transactions == old(transactions) && currentMonth == old(currentMonth)
      ensures filter == old(filter) && searchVisible == old(searchVisible)
    {
      searchQuery := q;
    }

    /** `toggleSearchVisibility()`: only the visibility flips. */
    method ToggleSearchVisibility()
      modifies this
      ensures searchVisible == !old(searchVisible)
      ensures transactions == old(transactions) && currentMonth == old(currentMonth)
      ensures filter == old(filter) && searchQuery == old(searchQuery)
    {
      searchVisible := !searchVisible;
    }
  }

  /** Next month then previous month, and two toggles of the search box, leave the view model as it was. */
  method RoundTrips(vm: TransactionViewModel)
    modifies vm
    ensures vm.currentMonth == old(vm.currentMonth) && vm.searchVisible == old(vm.searchVisible)
    ensures vm.transactions == old(vm.transactions) && vm.filter == old(vm.filter)
    ensures vm.searchQuery == old(vm.searchQuery)
  {
    vm.NextMonth();
    vm.PreviousMonth();
    NextPreviousInverse(old(vm.currentMonth));
    vm.ToggleSearchVisibility();
    vm.ToggleSearchVisibility();
  }
}
