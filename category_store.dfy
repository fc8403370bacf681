/**
 * The category table as the settings view model sees it: a list of
 * `Category` rows keyed by name. Inserting uses Room's REPLACE conflict
 * strategy, so a row with the same name is dropped and the new one added
 * last; deleting removes the row with that name.
 */
module CategoryStore {

  datatype Category = Category(name: string)

  /** No two rows share a name: the table's primary-key invariant. */
  predicate NamesDistinct(rows: seq<Category>) {
    forall i, j :: 0 <= i < j < |rows| ==> rows[i].name != rows[j].name
  }

  /** `rows` without the rows named `name`, the others in their order. */
  function WithoutName(rows: seq<Category>, name: string): (r: seq<Category>)
    ensures forall c :: c in r <==> c in rows && c.name != name
    ensures |r| <= |rows|
    ensures (forall i :: 0 <= i < |rows| ==> rows[i].name != name) ==> r == rows
  {
    if rows == [] then []
    else if rows[0].name == name then WithoutName(rows[1..], name)
    else [rows[0]] + WithoutName(rows[1..], name)
  }

  /** Removing rows keeps names distinct. */
  lemma {:induction false} WithoutNameKeepsDistinct(rows: seq<Category>, name: string)
    requires NamesDistinct(rows)
    ensures NamesDistinct(WithoutName(rows, name))
  {
    if rows != [] {
      WithoutNameKeepsDistinct(rows[1..], name);
      var rest := WithoutName(rows[1..], name);
      if rows[0].name != name {
        assert forall k :: 0 <= k < |rest| ==> rest[k] in rows[1..];
      }
    }
  }

  /** The table after `insert(c)` under REPLACE. */
  function Inserted(rows: seq<Category>, c: Category): (r: seq<Category>)
    ensures c in r && forall x :: x in r <==> x == c || (x in rows && x.name != c.name)
  {
    WithoutName(rows, c.name) + [c]
  }

  /** The table after `delete(c)`: the row with that name is gone, all others stay. */
  function Deleted(rows: seq<Category>, c: Category): (r: seq<Category>)
    ensures c !in r && forall x :: x in r <==> x in rows && x.name != c.name
  {
    WithoutName(rows, c.name)
  }

  /** REPLACE keeps the name key unique. */
  lemma InsertedKeepsDistinct(rows: seq<Category>, c: Category)
    requires NamesDistinct(rows)
    ensures NamesDistinct(Inserted(rows, c))
  {
    WithoutNameKeepsDistinct(rows, c.name);
  }

  /** Inserting the same category twice leaves the table as inserting it once. */
  lemma InsertIdempotent(rows: seq<Category>, c: Category)
    ensures Inserted(Inserted(rows, c), c) == Inserted(rows, c)
  {
    WithoutNameSnoc(WithoutName(rows, c.name), c, c.name);
    WithoutNameIdempotent(rows, c.name);
  }

  /** Deleting what was just inserted leaves the other rows, in their order. */
  lemma DeleteAfterInsert(rows: seq<Category>, c: Category)
    ensures Deleted(Inserted(rows, c), c) == WithoutName(rows, c.name)
  {
    WithoutNameSnoc(WithoutName(rows, c.name), c, c.name);
    WithoutNameIdempotent(rows, c.name);
  }

  lemma {:induction false} WithoutNameSnoc(rows: seq<Category>, c: Category, name: string)
    ensures WithoutName(rows + [c], name) == WithoutName(rows, name) + (if c.name == name then [] else [c])
  {
    if rows != [] {
      var head := if rows[0].name == name then [] else [rows[0]];
      assert (rows + [c])[0] == rows[0] && (rows + [c])[1..] == rows[1..] + [c];
      assert WithoutName(rows + [c], name) == head + WithoutName(rows[1..] + [c], name);
      WithoutNameSnoc(rows[1..], c, name);
    } else {
      assert WithoutName([c], name) == (if c.name == name then [] else [c]) + WithoutName([], name);
    }
  }

  lemma {:induction false} WithoutNameIdempotent(rows: seq<Category>, name: string)
    ensures WithoutName(WithoutName(rows, name), name) == WithoutName(rows, name)
  {
    if rows != [] {
      WithoutNameIdempotent(rows[1..], name);
      if rows[0].name != name {
        assert ([rows[0]] + WithoutName(rows[1..], name))[1..] == WithoutName(rows[1..], name);
      }
    }
  }

  /** The `categories` table, read by `getAllCategories` and written by `insert` and `delete`. */
  class CategoryTable {
    var rows: seq<Category>

    /** The name is the table's key: no two rows share one. */
    ghost predicate Valid()
      reads this
    {
      NamesDistinct(rows)
    }

    constructor (rows: seq<Category>)
      requires NamesDistinct(rows)
      ensures this.rows == rows && Valid()
    {
      this.rows := rows;
    }

    /** `CategoryDao.insert` with `OnConflictStrategy.REPLACE`. */
    method Insert(c: Category)
      requires Valid()
      modifies this
      ensures rows == Inserted(old(rows), c)
      ensures Valid()
    {
      InsertedKeepsDistinct(rows, c);
      rows := WithoutName(rows, c.name) + [c];
    }

    /** `CategoryDao.delete`. */
    method Delete(c: Category)
      requires Valid()
      modifies this
      ensures rows == Deleted(old(rows), c)
      ensures Valid()
    {
      WithoutNameKeepsDistinct(rows, c.name);
      rows := WithoutName(rows, c.name);
    }
  }
}
