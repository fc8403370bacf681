/** The Room row `TransactionEntity` and the two field-for-field conversions to and from the model record. */
module TransactionMapper {
  import opened Transactions

  /** A row of the `transactions` table; `id` is the auto-generated primary key. */
  datatype TransactionEntity = TransactionEntity(id: int, title: string, amount: int, category: string, date: string)

  /** `TransactionEntity.toModel()`. */
  function ToModel(e: TransactionEntity): (t: Transaction)
    ensures t.id == e.id && t.title == e.title && t.amount == e.amount
    ensures t.category == e.category && t.date == e.date
  {
    Transaction(e.id, e.title, e.amount, e.category, e.date)
  }

  /** `Transaction.toEntity()`. */
  function ToEntity(t: Transaction): (e: TransactionEntity)
    ensures e.id == t.id && e.title == t.title && e.amount == t.amount
    ensures e.category == t.category && e.date == t.date
  {
    TransactionEntity(t.id, t.title, t.amount, t.category, t.date)
  }

  /** Storing a transaction and reading it back gives the same transaction. */
  lemma ModelRoundTrip(t: Transaction)
    ensures ToModel(ToEntity(t)) == t
  {
  }

  /** Reading a row into the model and storing it again gives the same row. */
  lemma EntityRoundTrip(e: TransactionEntity)
    ensures ToEntity(ToModel(e)) == e
  {
  }
}
