/** The database tables of the cookie inventory, as values.
    Each row type mirrors one ORM model used by the cookie controller;
    a table is a sequence of rows. */
module Model {

  datatype Option<T> = None | Some(value: T)

  /** A calendar date as an integer ordered like the calendar: only its
      order matters here. */
  type Date = int

  /** TipoGalleta: a packaging type (unit, 1 kg box, 700 g box) and its unit
      cost, in integer cents. */
  datatype PackagingType = PackagingType(id: int, name: string, cost: int)

  /** Galleta: one catalogue row per (cookie name, packaging type). The
      on-row `stock` is the legacy field the aggregate views never read. */
  datatype Product = Product(id: int, name: string, typeId: int, recipeId: int, stock: int)

  /** LoteGalletas: a production batch of one product and what is left of it. */
  datatype Batch = Batch(id: int, productId: int, produced: Date, remaining: int)

  /** MermaGalletas: an append-only record of stock lost from one batch. */
  datatype Shrinkage = Shrinkage(
    id: int, kind: string, batchId: int, quantity: int, description: string, date: Date)

  /** The packaging-type name whose products carry the real stock. */
  const UnitTypeName: string := "Unidad"
}
