/** `SettingsViewModel`: default-category seeding, adding and removing categories, and the theme switch. */
module SettingsViewModel {
  import opened CategoryStore

  /** The eight categories seeded into an empty table, in this order. */
  const DefaultCategories: seq<Category> := [
    Category("Продукты"),
    Category("Еда вне дома"),
    Category("Такси"),
    Category("Транспорт"),
    Category("Развлечения"),
    Category("Дом"),
    Category("Подарки"),
    Category("Другое")
  ]

  /** The table after the start-up seeding: the defaults when it was empty, untouched otherwise. */
  function Seeded(rows: seq<Category>): (r: seq<Category>)
    ensures r != []
    ensures rows != [] ==> r == rows
    ensures NamesDistinct(rows) ==> NamesDistinct(r)
  {
    if rows == [] then DefaultCategories else rows
  }

  /** Seeding a second time (a second view model on the same table) changes nothing. */
  lemma SeedingIdempotent(rows: seq<Category>)
    ensures Seeded(Seeded(rows)) == Seeded(rows)
    ensures |Seeded([])| == 8
  {
  }

  /** No two defaults share a name. */
  lemma DefaultNamesDistinct()
    ensures NamesDistinct(DefaultCategories)
  {
  }

  /** Inserting the next default after the first `i` appends it: its name is not yet taken. */
  lemma SeedStep(i: nat)
    requires i < |DefaultCategories|
    ensures Inserted(DefaultCategories[..i], DefaultCategories[i]) == DefaultCategories[..i + 1]
  {
    DefaultNamesDistinct();
    var prefix := DefaultCategories[..i];
    assert forall k :: 0 <= k < i ==> prefix[k].name != DefaultCategories[i].name;
    assert prefix + [DefaultCategories[i]] == DefaultCategories[..i + 1];
  }

  class SettingsViewModel {
    const repository: CategoryTable
    var isDarkTheme: bool

    /**
     * `init`: when the first snapshot of the table is empty, the defaults
     * are inserted one by one; a table that already has rows is left alone.
     */
    constructor (repository: CategoryTable)
      requires repository.Valid()
      modifies repository
      ensures this.repository == repository && !isDarkTheme && repository.Valid()
      ensures repository.rows == Seeded(old(repository.rows))
    {
      this.repository := repository;
      isDarkTheme := false;
      new;
      if repository.rows == [] {
        for i := 0 to |DefaultCategories|
          invariant this.repository == repository && !isDarkTheme
          invariant repository.rows == DefaultCategories[..i] && repository.Valid()
        {
          SeedStep(i);
          repository.Insert(DefaultCategories[i]);
        }
      }
    }

    /** `addCategory(name)`: a category with exactly that name is inserted. */
    method AddCategory(name: string)
      requires repository.Valid()
      modifies repository
      ensures repository.Valid()
      ensures repository.rows == Inserted(old(repository.rows), Category(name))
      ensures isDarkTheme == old(isDarkTheme)
    {
      repository.Insert(Category(name));
    }

    /** `removeCategory(category)`: exactly that category goes, the other rows stay in order. */
    method RemoveCategory(c: Category)
      requires repository.Valid()
      modifies repository
      ensures repository.Valid()
      ensures repository.rows == Deleted(old(repository.rows), c)
      ensures isDarkTheme == old(isDarkTheme)
    {
      repository.Delete(c);
    }

    /** `toggleTheme()`: the dark-theme flag flips. */
    method ToggleTheme()
      modifies this
      ensures isDarkTheme == !old(isDarkTheme)
    {
      isDarkTheme := !isDarkTheme;
    }
  }
}
