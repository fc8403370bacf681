/**
 * The settings screen: the new-category input with its blank guard, the
 * theme switch and delete buttons wired to `SettingsViewModel`, and the
 * CSV text `exportAndShareCsv` writes.
 */
module SettingsScreen {
  import opened Wrappers
  import opened Text
  import opened Transactions
  import opened CategoryStore
  import opened SettingsViewModel

  /** The name the add action inserts for an input: `None` when the input is blank, else the trimmed input. */
  function AddedName(input: string): (r: Option<string>)
    ensures r.None? <==> IsBlank(input)
    ensures r.Some? ==> r.value == Trim(input)
    ensures r.Some? ==> r.value != [] && !IsWhitespace(r.value[0]) && !IsWhitespace(r.value[|r.value| - 1])
    ensures r.Some? ==> |r.value| <= |input|
  {
    if IsBlank(input) then None
    else
      TrimEmptyIffBlank(input);
      TrimHasNoOuterWhitespace(input);
      Some(Trim(input))
  }

  class SettingsScreen {
    const viewModel: SettingsViewModel
    var newCategory: string

    constructor (viewModel: SettingsViewModel)
      ensures this.viewModel == viewModel && newCategory == ""
    {
      this.viewModel := viewModel;
      newCategory := "";
    }

    /** The "+" button is enabled exactly when the input is not blank. */
    predicate AddEnabled()
      reads this
      ensures AddEnabled() <==> AddedName(newCategory).Some?
    {
      !IsBlank(newCategory)
    }

    /** The input field's `onValueChange`. */
    method OnValueChange(text: string)
      modifies this
      ensures newCategory == text
    {
      newCategory := text;
    }

    /**
     * The "+" button and the keyboard's Done action: a non-blank input is
     * added trimmed and the field is cleared; a blank one changes nothing.
     */
    method OnAdd()
      requires viewModel.repository.Valid()
      modifies this, viewModel.repository
      ensures viewModel.repository.Valid()
      ensures AddedName(old(newCategory)).Some? ==>
        && viewModel.repository.rows == Inserted(old(viewModel.repository.rows), Category(AddedName(old(newCategory)).value))
        && newCategory == ""
      ensures AddedName(old(newCategory)).None? ==>
        && viewModel.repository.rows == old(viewModel.repository.rows)
        && newCategory == old(newCategory)
      ensures viewModel.isDarkTheme == old(viewModel.isDarkTheme)
    {
      var name := AddedName(newCategory);
      if name.Some? {
        viewModel.AddCategory(name.value);
        newCategory := "";
      }
    }

    /** A category row's delete button. */
    method OnDelete(c: Category)
      requires viewModel.repository.Valid()
      modifies viewModel.repository
      ensures viewModel.repository.Valid()
      ensures viewModel.repository.rows == Deleted(old(viewModel.repository.rows), c)
      ensures newCategory == old(newCategory)
    {
      viewModel.RemoveCategory(c);
    }

    /** The dark-theme switch. */
    method OnThemeSwitch()
      modifies viewModel
      ensures viewModel.isDarkTheme == !old(viewModel.isDarkTheme)
    {
      viewModel.ToggleTheme();
    }
  }

  /** Adding from the screen never stores a blank or untrimmed name. */
  method AddFromScreen(screen: SettingsScreen, text: string)
    requires screen.viewModel.repository.Valid()
    modifies screen, screen.viewModel.repository
    ensures screen.viewModel.repository.Valid()
    ensures forall c :: c in screen.viewModel.repository.rows && c !in old(screen.viewModel.repository.rows) ==>
      c.name != [] && !IsWhitespace(c.name[0]) && !IsWhitespace(c.name[|c.name| - 1])
  {
    screen.OnValueChange(text);
    screen.OnAdd();
  }

  /** Flipping the switch twice restores the theme. */
  method ThemeSwitchTwice(screen: SettingsScreen)
    modifies screen.viewModel
    ensures screen.viewModel.isDarkTheme == old(screen.viewModel.isDarkTheme)
  {
    screen.OnThemeSwitch();
    screen.OnThemeSwitch();
  }

  // ---------------------------------------------------------------- CSV

  const HeaderLine: string := "ID,Name,Amount,Date,Category,Type"

  /** The first line of every export. */
  const CsvHeader: string := HeaderLine + "\n"

  /** The Type column: "Income" for a positive amount, "Expense" otherwise, zero included. */
  function TypeLabel(amount: int): (r: string)
    ensures r == "Income" <==> amount > 0
    ensures r == "Income" || r == "Expense"
  {
    if amount > 0 then "Income" else "Expense"
  }

  /** `fs` joined with `sep` between neighbours and no quoting. */
  function Join(fs: seq<string>, sep: char): (r: string)
    requires |fs| >= 1
    ensures |fs| == 1 ==> r == fs[0]
  {
    if |fs| == 1 then fs[0] else fs[0] + [sep] + Join(fs[1..], sep)
  }

  /** The pieces of `s` between occurrences of `sep`, as a CSV reader cuts a line or a file. */
  function Split(s: string, sep: char): (r: seq<string>)
    ensures |r| >= 1
    decreases |s|
  {
    if s == [] then [""]
    else
      var rest := Split(s[1..], sep);
      if s[0] == sep then [""] + rest else [[s[0]] + rest[0]] + rest[1..]
  }

  lemma {:induction false} SplitPrefix(a: string, t: string, sep: char)
    requires sep !in a
    ensures Split(a + t, sep) == [a + Split(t, sep)[0]] + Split(t, sep)[1..]
  {
    if a != [] {
      assert (a + t)[1..] == a[1..] + t;
      SplitPrefix(a[1..], t, sep);
      var rest := Split(a[1..] + t, sep);
      assert Split(a + t, sep) == [[a[0]] + rest[0]] + rest[1..];
      assert [a[0]] + (a[1..] + Split(t, sep)[0]) == a + Split(t, sep)[0];
    } else {
      var st := Split(t, sep);
      assert a + t == t && a + st[0] == st[0];
      assert st == [st[0]] + st[1..];
    }
  }

  /** Cutting a join at its separators gives the pieces back when none of them contains the separator. */
  lemma {:induction false} SplitJoin(fs: seq<string>, sep: char)
    requires |fs| >= 1
    requires forall i :: 0 <= i < |fs| ==> sep !in fs[i]
    ensures Split(Join(fs, sep), sep) == fs
  {
    if |fs| == 1 {
      SplitPrefix(fs[0], "", sep);
      assert fs[0] + "" == fs[0];
      assert Split("", sep) == [""];
      assert fs == [fs[0]];
    } else {
      SplitJoin(fs[1..], sep);
      var t := [sep] + Join(fs[1..], sep);
      assert fs[0] + [sep] + Join(fs[1..], sep) == fs[0] + t;
      SplitPrefix(fs[0], t, sep);
      assert t[0] == sep && t[1..] == Join(fs[1..], sep);
      assert Split(t, sep) == [""] + fs[1..];
      assert fs[0] + "" == fs[0];
      assert fs == [fs[0]] + fs[1..];
    }
  }

  /**
   * `Date(t.date)` in the row template: the text of the `java.util.Date`
   * built from the stored date, or `None` where that constructor throws
   * `IllegalArgumentException`.
   */
  predicate DatesRender(ts: seq<Transaction>, renderDate: string -> Option<string>) {
    forall i :: 0 <= i < |ts| ==> renderDate(ts[i].date).Some?
  }

  /** The six fields of a transaction's row, in header order; the date column goes through `renderDate`. */
  function CsvFields(t: Transaction, renderDate: string -> Option<string>): (fs: seq<string>)
    requires renderDate(t.date).Some?
    ensures |fs| == 6 && fs[0] == IntToString(t.id) && fs[1] == t.title && fs[2] == IntToString(t.amount)
    ensures fs[3] == renderDate(t.date).value && fs[4] == t.category && fs[5] == TypeLabel(t.amount)
  {
    [IntToString(t.id), t.title, IntToString(t.amount), renderDate(t.date).value, t.category, TypeLabel(t.amount)]
  }

  /** One line per transaction: its fields joined with ",". */
  function CsvRow(t: Transaction, renderDate: string -> Option<string>): (r: string)
    requires renderDate(t.date).Some?
    ensures |r| >= 1 && r[|r| - 1] == '\n'
  {
    Join(CsvFields(t, renderDate), ',') + "\n"
  }

  /** The rows after the header, one per transaction in list order. */
  function CsvBody(ts: seq<Transaction>, renderDate: string -> Option<string>): string
    requires DatesRender(ts, renderDate)
  {
    if ts == [] then "" else CsvBody(ts[..|ts| - 1], renderDate) + CsvRow(ts[|ts| - 1], renderDate)
  }

  /**
   * `exportAndShareCsv` up to the file: the header, then a row per
   * transaction. The date column is the text of the `java.util.Date` built
   * from the stored date, given here as `renderDate`. Only `IOException`
   * is caught, so a date the constructor rejects ends the export: `None`.
   */
  method ExportCsv(transactions: seq<Transaction>, renderDate: string -> Option<string>) returns (csv: Option<string>)
    ensures csv.Some? <==> DatesRender(transactions, renderDate)
    ensures csv.Some? ==> csv.value == CsvHeader + CsvBody(transactions, renderDate)
    ensures csv.Some? ==> CsvHeader <= csv.value
  {
    var text := CsvHeader;
    for i := 0 to |transactions|
      invariant DatesRender(transactions[..i], renderDate)
      invariant text == CsvHeader + CsvBody(transactions[..i], renderDate)
    {
      if renderDate(transactions[i].date).None? {
        return None;
      }
      CsvBodySnoc(CsvHeader, transactions, renderDate, i);
      text := text + CsvRow(transactions[i], renderDate);
    }
    assert transactions[..|transactions|] == transactions;
    return Some(text);
  }

  /** Appending the next row to `prefix` followed by the rows so far gives `prefix` followed by one more row. */
  lemma CsvBodySnoc(prefix: string, ts: seq<Transaction>, renderDate: string -> Option<string>, i: nat)
    requires i < |ts| && DatesRender(ts[..i + 1], renderDate)
    ensures prefix + CsvBody(ts[..i + 1], renderDate) == prefix + CsvBody(ts[..i], renderDate) + CsvRow(ts[i], renderDate)
  {
    assert ts[..i + 1][..i] == ts[..i];
  }

  /** No field of the transaction's row contains a comma or a line break. */
  predicate FieldsClean(t: Transaction, renderDate: string -> Option<string>) {
    renderDate(t.date).Some? && FieldClean(t.title) && FieldClean(renderDate(t.date).value) && FieldClean(t.category)
  }

  predicate FieldClean(f: string) {
    ',' !in f && '\n' !in f
  }

  /** `ls` with a line break after each line. */
  function Terminated(ls: seq<string>): (r: string)
    ensures ls == [] ==> r == ""
  {
    if ls == [] then "" else ls[0] + "\n" + Terminated(ls[1..])
  }

  lemma {:induction false} TerminatedSnoc(ls: seq<string>, l: string)
    ensures Terminated(ls + [l]) == Terminated(ls) + l + "\n"
  {
    if ls != [] {
      assert (ls + [l])[1..] == ls[1..] + [l];
      TerminatedSnoc(ls[1..], l);
    } else {
      assert Terminated([l]) == l + "\n" + Terminated([]);
    }
  }

  /** A terminated list of lines is the join of the lines and one empty last piece. */
  lemma {:induction false} TerminatedIsJoin(ls: seq<string>)
    ensures Terminated(ls) == Join(ls + [""], '\n')
  {
    if ls != [] {
      assert (ls + [""])[1..] == ls[1..] + [""];
      TerminatedIsJoin(ls[1..]);
    }
  }

  /** The row texts without their line breaks. */
  function RowLines(ts: seq<Transaction>, renderDate: string -> Option<string>): (ls: seq<string>)
    requires DatesRender(ts, renderDate)
    ensures |ls| == |ts|
  {
    if ts == [] then [] else RowLines(ts[..|ts| - 1], renderDate) + [Join(CsvFields(ts[|ts| - 1], renderDate), ',')]
  }

  lemma {:induction false} CsvBodyTerminated(ts: seq<Transaction>, renderDate: string -> Option<string>)
    requires DatesRender(ts, renderDate)
    ensures CsvBody(ts, renderDate) == Terminated(RowLines(ts, renderDate))
  {
    if ts != [] {
      var init := ts[..|ts| - 1];
      CsvBodyTerminated(init, renderDate);
      TerminatedSnoc(RowLines(init, renderDate), Join(CsvFields(ts[|ts| - 1], renderDate), ','));
    }
  }

  lemma {:induction false} RowLinesAt(ts: seq<Transaction>, renderDate: string -> Option<string>, i: nat)
    requires DatesRender(ts, renderDate)
    requires i < |ts|
    ensures RowLines(ts, renderDate)[i] == Join(CsvFields(ts[i], renderDate), ',')
  {
    if i < |ts| - 1 {
      RowLinesAt(ts[..|ts| - 1], renderDate, i);
    }
  }

  lemma NumberTextClean(n: int)
    ensures ',' !in IntToString(n) && '\n' !in IntToString(n)
  {
    var s := IntToString(n);
    assert forall k :: 0 <= k < |s| ==> s[k] != ',' && s[k] != '\n';
  }

  /**
   * Reading the export back: when no title, category or rendered date
   * contains a comma or a line break, the file cuts into the header, one
   * line per transaction in order carrying exactly its six fields, and the
   * empty piece after the final line break.
   */
  lemma ExportReadsBack(ts: seq<Transaction>, renderDate: string -> Option<string>)
    requires DatesRender(ts, renderDate)
    requires forall i :: 0 <= i < |ts| ==> FieldsClean(ts[i], renderDate)
    ensures var lines := Split(CsvHeader + CsvBody(ts, renderDate), '\n');
      && |lines| == |ts| + 2
      && lines[0] == HeaderLine && lines[|ts| + 1] == ""
      && forall i :: 0 <= i < |ts| ==> Split(lines[i + 1], ',') == CsvFields(ts[i], renderDate)
  {
    var rows := RowLines(ts, renderDate);
    CsvIsJoin(ts, renderDate);
    RowsReadBack(ts, renderDate);
    LinesReadBack(rows);
  }

  /** Lines without line breaks, joined after the header and before an empty last piece, cut back into those lines. */
  lemma LinesReadBack(rows: seq<string>)
    requires forall i :: 0 <= i < |rows| ==> '\n' !in rows[i]
    ensures var lines := Split(Join([HeaderLine] + rows + [""], '\n'), '\n');
      && |lines| == |rows| + 2
      && lines[0] == HeaderLine && lines[|rows| + 1] == ""
      && forall i :: 0 <= i < |rows| ==> lines[i + 1] == rows[i]
  {
    var pieces := [HeaderLine] + rows + [""];
    PiecesClean(rows);
    SplitJoin(pieces, '\n');
    assert forall i :: 0 <= i < |rows| ==> pieces[i + 1] == rows[i];
  }

  lemma RowsReadBack(ts: seq<Transaction>, renderDate: string -> Option<string>)
    requires DatesRender(ts, renderDate)
    requires forall i :: 0 <= i < |ts| ==> FieldsClean(ts[i], renderDate)
    ensures forall i :: 0 <= i < |ts| ==> '\n' !in RowLines(ts, renderDate)[i]
    ensures forall i :: 0 <= i < |ts| ==> Split(RowLines(ts, renderDate)[i], ',') == CsvFields(ts[i], renderDate)
  {
    forall i | 0 <= i < |ts|
      ensures '\n' !in RowLines(ts, renderDate)[i]
      ensures Split(RowLines(ts, renderDate)[i], ',') == CsvFields(ts[i], renderDate)
    {
      RowLinesAt(ts, renderDate, i);
      RowReadsBack(ts[i], renderDate);
    }
  }

  lemma PiecesClean(rows: seq<string>)
    requires forall i :: 0 <= i < |rows| ==> '\n' !in rows[i]
    ensures var pieces := [HeaderLine] + rows + [""];
      forall k :: 0 <= k < |pieces| ==> '\n' !in pieces[k]
  {
    var pieces := [HeaderLine] + rows + [""];
    forall k | 0 <= k < |pieces|
      ensures '\n' !in pieces[k]
    {
      if 1 <= k <= |rows| {
        assert pieces[k] == rows[k - 1];
      }
    }
  }

  /** The export is the header line, the row lines and an empty last piece, joined with line breaks. */
  lemma CsvIsJoin(ts: seq<Transaction>, renderDate: string -> Option<string>)
    requires DatesRender(ts, renderDate)
    ensures CsvHeader + CsvBody(ts, renderDate) == Join([HeaderLine] + RowLines(ts, renderDate) + [""], '\n')
  {
    var all := [HeaderLine] + RowLines(ts, renderDate);
    CsvBodyTerminated(ts, renderDate);
    assert all[1..] == RowLines(ts, renderDate);
    assert Terminated(all) == HeaderLine + "\n" + Terminated(all[1..]);
    TerminatedIsJoin(all);
  }

  /** A clean row has no line break and cuts back into its six fields. */
  lemma RowReadsBack(t: Transaction, renderDate: string -> Option<string>)
    requires FieldsClean(t, renderDate)
    ensures var fs := CsvFields(t, renderDate);
      '\n' !in Join(fs, ',') && Split(Join(fs, ','), ',') == fs
  {
    var fs := CsvFields(t, renderDate);
    NumberTextClean(t.id);
    NumberTextClean(t.amount);
    assert forall i :: 0 <= i < |fs| ==> FieldClean(fs[i]);
    SplitJoin(fs, ',');
    JoinAvoids(fs, ',', '\n');
  }

  /** Joining with a separator other than `c` introduces no `c`. */
  lemma {:induction false} JoinAvoids(fs: seq<string>, sep: char, c: char)
    requires |fs| >= 1 && sep != c
    requires forall i :: 0 <= i < |fs| ==> c !in fs[i]
    ensures c !in Join(fs, sep)
  {
    if |fs| > 1 {
      JoinAvoids(fs[1..], sep, c);
    }
  }

  /** Fields are written verbatim: a comma inside a title shows up as an extra column. */
  lemma CommaInTitleAddsColumn(renderDate: string -> Option<string>)
    ensures var t := Transaction(1, "a,b", 5, "c", "d");
      renderDate("d").Some? && ',' !in renderDate("d").value ==> |Split(Join(CsvFields(t, renderDate), ','), ',')| == 7
  {
    var t := Transaction(1, "a,b", 5, "c", "d");
    if renderDate("d").Some? && ',' !in renderDate("d").value {
      var fs := CsvFields(t, renderDate);
      var ws := [fs[0], "a", "b", fs[2], fs[3], fs[4], fs[5]];
      NumberTextClean(1);
      NumberTextClean(5);
      assert fs[1] == "a" + [','] + "b";
      assert fs[1..] == [fs[1]] + fs[2..];
      assert ws[1..] == ["a", "b"] + fs[2..];
      JoinSeparatorInField("a", "b", fs[2..], ',');
      assert Join(fs, ',') == Join(ws, ',');
      SplitJoin(ws, ',');
    }
  }

  /** A field holding the separator joins to the same text as the two fields on either side of it. */
  lemma JoinSeparatorInField(x: string, y: string, rest: seq<string>, sep: char)
    requires rest != []
    ensures Join([x + [sep] + y] + rest, sep) == Join([x, y] + rest, sep)
  {
    assert ([x + [sep] + y] + rest)[1..] == rest;
    assert ([x, y] + rest)[1..] == [y] + rest;
    assert ([y] + rest)[1..] == rest;
  }

  /** The only export the settings screen triggers passes an empty list: no date is converted, and the file holds just the header. */
  method ExportFromSettings(renderDate: string -> Option<string>) returns (csv: Option<string>)
    ensures csv == Some(CsvHeader)
  {
    assert DatesRender([], renderDate);
    csv := ExportCsv([], renderDate);
    assert CsvHeader + CsvBody([], renderDate) == CsvHeader;
  }
}
