/**
 * The add/edit transaction dialog: the fields pre-filled from the edited
 * transaction, the callbacks that change them, the date picker's 0-based
 * month, and the Save rule that builds the transaction handed to `onSave`.
 */
module AddEditTransactionDialog {
  import opened Wrappers
  import opened Text
  import opened Dates
  import opened Transactions
  import opened CategoryStore

  /**
   * `String.toDoubleOrNull` on the whole-number amounts of this model: an
   * optional `+` or `-`, then one or more decimal digits. `None` is the
   * `null` that makes Save do nothing.
   */
  function ParseAmount(text: string): (r: Option<int>)
    ensures r.Some? ==> |text| >= 1
    ensures AllDigits(text) && text != [] ==> r == Some(DigitsValue(text))
    ensures |text| >= 1 && !IsDigit(text[0]) && text[0] != '+' && text[0] != '-' ==> r == None
  {
    if |text| >= 2 && (text[0] == '+' || text[0] == '-') && AllDigits(text[1..]) then
      var n: int := DigitsValue(text[1..]);
      Some(if text[0] == '-' then -n else n)
    else if text != [] && AllDigits(text) then Some(DigitsValue(text))
    else None
  }

  /** The amount field's text for a magnitude: `abs(amount).toString()`. */
  function FormatAmount(n: nat): (s: string)
    ensures s != [] && AllDigits(s)
  {
    NatToString(n)
  }

  /** The amount text the dialog writes reads back as the same magnitude. */
  lemma ParseFormatAmount(n: nat)
    ensures ParseAmount(FormatAmount(n)) == Some(n)
  {
    NatToStringRoundTrip(n);
  }

  /** A minus sign before the digits negates the amount, a plus sign changes nothing. */
  lemma ParseAmountSigns(digits: string)
    requires digits != [] && AllDigits(digits)
    ensures ParseAmount("-" + digits) == Some(-(DigitsValue(digits) as int))
    ensures ParseAmount("+" + digits) == Some(DigitsValue(digits))
  {
    assert ("-" + digits)[1..] == digits;
    assert ("+" + digits)[1..] == digits;
  }

  /** Text with no digits at all is rejected: Save stays put. */
  lemma ParseAmountRejectsNoDigits(text: string)
    requires forall i :: 0 <= i < |text| ==> !IsDigit(text[i])
    ensures ParseAmount(text) == None
  {
    if |text| >= 2 {
      assert !IsDigit(text[1]);
    }
  }

  /** Pre-filled title: the edited transaction's, or empty. */
  function InitialTitle(initial: Option<Transaction>): (r: string)
    ensures initial.None? ==> r == ""
    ensures initial.Some? ==> r == initial.value.title
  {
    match initial
    case Some(t) => t.title
    case None => ""
  }

  /** Pre-filled amount: the magnitude of the edited transaction's amount, or empty. */
  function InitialAmountText(initial: Option<Transaction>): (r: string)
    ensures initial.None? ==> r == ""
    ensures initial.Some? ==> ParseAmount(r) == Some(Abs(initial.value.amount))
  {
    match initial
    case Some(t) => ParseFormatAmount(Abs(t.amount)); FormatAmount(Abs(t.amount))
    case None => ""
  }

  /** Pre-filled category: the edited transaction's, or none selected. */
  function InitialCategory(initial: Option<Transaction>): (r: string)
    ensures initial.None? ==> r == ""
    ensures initial.Some? ==> r == initial.value.category
  {
    match initial
    case Some(t) => t.category
    case None => ""
  }

  /** The income switch starts on exactly for an existing transaction whose amount is not negative. */
  function InitialIsIncome(initial: Option<Transaction>): (r: bool)
    ensures r <==> initial.Some? && initial.value.amount >= 0
  {
    match initial
    case Some(t) => t.amount >= 0
    case None => false
  }

  /** The saved amount: the parsed number with the switch's sign. */
  function SignedAmount(parsed: int, isIncome: bool): (r: int)
    ensures Abs(r) == Abs(parsed)
    ensures isIncome && parsed >= 0 ==> r >= 0
    ensures !isIncome && parsed >= 0 ==> r <= 0
  {
    if isIncome then parsed else -parsed
  }

  /** Re-applying the pre-filled sign to the pre-filled magnitude gives the original amount. */
  lemma SignedAmountRestores(t: Transaction)
    ensures SignedAmount(Abs(t.amount), InitialIsIncome(Some(t))) == t.amount
  {
  }

  /** The picker month for a `LocalDate` month: `monthValue - 1`. */
  function PickerMonth(m: MonthOfYear): (m0: int)
    ensures 0 <= m0 <= 11
  {
    m - 1
  }

  /** The `LocalDate` month for a picker month: `month + 1`. */
  function FromPickerMonth(m0: int): (m: int)
    ensures 0 <= m0 <= 11 ==> 1 <= m <= 12
  {
    m0 + 1
  }

  /** The two month conventions convert into each other without loss. */
  lemma PickerMonthRoundTrip(m: MonthOfYear, m0: int)
    requires 0 <= m0 <= 11
    ensures FromPickerMonth(PickerMonth(m)) == m
    ensures PickerMonth(FromPickerMonth(m0)) == m0
  {
  }

  /** The dialog's remembered state. */
  class AddEditTransactionDialog {
    const initial: Option<Transaction>
    const categories: seq<Category>
    var title: string
    var amount: string
    var category: string
    var isIncome: bool
    var selectedDate: Date

    /** The selected date is a real day, and the category is the pre-filled one or a chip's. */
    ghost predicate Valid()
      reads this
    {
      && ValidDate(selectedDate)
      && (category == InitialCategory(initial) || exists i :: 0 <= i < |categories| && categories[i].name == category)
    }

    /**
     * Opening the dialog. `today` stands for `LocalDate.now()`; an edited
     * transaction's date must be text `LocalDate.parse` accepts, since
     * anything else throws.
     */
    constructor (initial: Option<Transaction>, categories: seq<Category>, today: Date)
      requires ValidDate(today)
      requires initial.Some? ==> ParseDate(initial.value.date).Some?
      ensures Valid()
      ensures this.initial == initial && this.categories == categories
      ensures title == InitialTitle(initial) && amount == InitialAmountText(initial)
      ensures category == InitialCategory(initial) && isIncome == InitialIsIncome(initial)
      ensures selectedDate == (if initial.Some? then ParseDate(initial.value.date).value else today)
    {
      this.initial := initial;
      this.categories := categories;
      title := InitialTitle(initial);
      amount := InitialAmountText(initial);
      category := InitialCategory(initial);
      isIncome := InitialIsIncome(initial);
      selectedDate := if initial.Some? then ParseDate(initial.value.date).value else today;
    }

    /** The title field's `onValueChange`. */
    method OnTitleChange(text: string)
      requires Valid()
      modifies this
      ensures Valid()
      ensures title == text
      ensures amount == old(amount) && category == old(category) && isIncome == old(isIncome) && selectedDate == old(selectedDate)
    {
      title := text;
    }

    /** The amount field's `onValueChange`: any text is kept; it is only read on Save. */
    method OnAmountChange(text: string)
      requires Valid()
      modifies this
      ensures Valid()
      ensures amount == text
      ensures title == old(title) && category == old(category) && isIncome == old(isIncome) && selectedDate == old(selectedDate)
    {
      amount := text;
    }

    /** The income switch's `onCheckedChange`. */
    method OnIncomeChange(checked: bool)
      requires Valid()
      modifies this
      ensures Valid()
      ensures isIncome == checked
      ensures title == old(title) && amount == old(amount) && category == old(category) && selectedDate == old(selectedDate)
    {
      isIncome := checked;
    }

    /** A category chip's `onClick`: that chip becomes the only selected one among chips with other names. */
    method OnChipClick(i: nat)
      requires Valid() && i < |categories|
      modifies this
      ensures Valid()
      ensures category == categories[i].name && IsChipSelected(i)
      ensures title == old(title) && amount == old(amount) && isIncome == old(isIncome) && selectedDate == old(selectedDate)
    {
      category := categories[i].name;
    }

    /** `selected = category == cat.name`. */
    predicate IsChipSelected(i: nat)
      requires i < |categories|
      reads this
    {
      category == categories[i].name
    }

    /** The year, 0-based month and day the picker opens with. */
    function PickerSeed(): (seed: (int, int, int))
      requires Valid()
      reads this
      ensures 0 <= seed.1 <= 11
      ensures Date(seed.0, FromPickerMonth(seed.1), seed.2) == selectedDate
    {
      (selectedDate.year, PickerMonth(selectedDate.month), selectedDate.day)
    }

    /**
     * The picker's callback with a 0-based month. The picker offers only
     * real days; `LocalDate.of` would throw on anything else.
     */
    method OnDatePicked(year: int, month0: int, dayOfMonth: int)
      requires Valid()
      requires ValidDate(Date(year, FromPickerMonth(month0), dayOfMonth))
      modifies this
      ensures Valid()
      ensures selectedDate == Date(year, month0 + 1, dayOfMonth)
      ensures title == old(title) && amount == old(amount) && category == old(category) && isIncome == old(isIncome)
    {
      selectedDate := Date(year, FromPickerMonth(month0), dayOfMonth);
    }

    /**
     * The Save button. `None`: the amount text is not a number and nothing
     * happens. Otherwise the transaction passed to `onSave`, after which
     * the dialog is dismissed.
     */
    method Confirm() returns (saved: Option<Transaction>)
      requires Valid()
      ensures saved.None? <==> ParseAmount(amount).None?
      ensures saved.Some? ==> saved.value.id == (if initial.Some? then initial.value.id else 0)
      ensures saved.Some? ==> saved.value.title == title && saved.value.category == category
      ensures saved.Some? ==> saved.value.amount == (if isIncome then ParseAmount(amount).value else -ParseAmount(amount).value)
      ensures saved.Some? ==> ParseDate(saved.value.date) == Some(selectedDate)
    {
      var parsed := ParseAmount(amount);
      if parsed.None? {
        return None;
      }
      var id := if initial.Some? then initial.value.id else 0;
      ParseFormatRoundTrip(selectedDate);
      saved := Some(Transaction(id, title, SignedAmount(parsed.value, isIncome), category, FormatDate(selectedDate)));
    }
  }

  /** Opening an existing transaction and saving at once hands back the same transaction. */
  method SaveUnedited(t: Transaction, categories: seq<Category>, today: Date) returns (saved: Option<Transaction>)
    requires ValidDate(today)
    requires ParseDate(t.date).Some?
    ensures saved == Some(t)
  {
    var dialog := new AddEditTransactionDialog(Some(t), categories, today);
    saved := dialog.Confirm();
    var s := saved.value;
    FormatParseRoundTrip(t.date);
    FormatParseRoundTrip(s.date);
  }

  /** A new transaction saved with the switch untouched is an expense of the typed magnitude, dated today. */
  method SaveNewUntouched(categories: seq<Category>, today: Date, title: string, digits: string) returns (saved: Option<Transaction>)
    requires ValidDate(today)
    requires digits != [] && AllDigits(digits)
    ensures saved == Some(Transaction(0, title, -(DigitsValue(digits) as int), "", FormatDate(today)))
  {
    var dialog := new AddEditTransactionDialog(None, categories, today);
    dialog.OnTitleChange(title);
    dialog.OnAmountChange(digits);
    saved := dialog.Confirm();
    var s := saved.value;
    ParseFormatRoundTrip(today);
    FormatParseRoundTrip(s.date);
  }
}
