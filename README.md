# Cookie inventory of the Don Galleto bakery, in Dafny

This project models the cookie-inventory flow of the bakery's web application
(`controller/controller_galletas.py`) and proves what it does. The database
tables become sequences of rows. `Galleta` is a product, one row per name and
packaging type. `TipoGalleta` is a packaging type. `LoteGalletas` is a batch of
a product with its remaining quantity. `MermaGalletas` is an append-only
shrinkage record. A `Store` class holds these tables, as the ORM session does.
The three routes are modelled:

- the catalogue view (`galletas`), as the read-only method `Catalog`;
- product creation (`agregar_galleta`), as `Store.AddProduct`;
- the shrinkage recorder (`merma_galleta`), as `Store.RecordShrinkage`.

The recorder picks the oldest batch of the product that still has stock. It
refuses with `NoBatch` when there is none. It refuses with
`Insufficient(requested, available)` when that one batch cannot cover the
request. Otherwise it subtracts the quantity from that batch and appends one
record. The queries behind these steps are pure functions in `queries.dfy`:
the per-product stock sum, the FIFO arg-min, the join with the "Unidad" type
and the eligibility filter.

Files: `model.dfy` (rows), `queries.dfy` (queries and their lemmas),
`controller.dfy` (the routes, the `Store` and the store invariant).

Modelling choices:

- The store invariant `Consistent` has two parts. The database keeps
  distinct primary keys, auto-increment counters past every key in use, and
  shrinkage records that point at existing batches. "No batch is negative"
  is different: nothing in the schema or the source enforces it. It is
  assumed of the starting tables (the `Store` constructor requires it).
  After that, the recorder's sufficiency check keeps it. Both mutating
  methods preserve the whole invariant.
- Dates are integers ordered like the calendar, since only their order
  matters. The Chocolate scenario writes them as yyyymmdd (20240101). Prices are
  integer cents: 23000 and 16000 for the fixed box prices of 230.00 and
  160.00. `TipoGalleta.costo` is passed through unchanged.
- Box stock is `stock / 25` and `stock / 20`. Dafny's `/` with a positive
  divisor rounds down, which is what Python's `//` does, for negative values
  too.
- Form validation is a boolean input (`formValid`). The recorder puts no
  bound on `quantity`, because the controller checks none. A negative
  quantity raises the chosen batch and logs a negative record, as the
  controller would. The stock still stays non-negative. Whether the form's
  validators rule such values out is not part of this model.
- The FIFO query does not order batches that share a production date. The
  recorder's contract therefore accepts any oldest batch
  (`IsOldestAvailable`). The function `Oldest` returns the first one in table
  order.
- Row ids assigned by the database are modelled as the counters
  `nextProductId` and `nextShrinkageId`.

## Model

| member | source | states |
|---|---|---|
| `Queries.StockOf` | controller/controller_galletas.py:47-50 | the per-product sum of remaining quantities is never negative while no batch is. Its 0 default and its link to available batches are stated by the next two lemmas |
| `Queries.StockWithoutBatches` | controller/controller_galletas.py:56-58 | a product without any batch has stock 0 (the outer join's COALESCE default) |
| `Queries.StockPositiveIffAvailable` | controller/controller_galletas.py:14-23 | with no negative batch, stock > 0 holds exactly when some batch of the product has remaining > 0 (both directions) |
| `Queries.Withdraw` | controller/controller_galletas.py:149 | the chosen batch's remaining quantity drops by exactly the quantity; its id, product and date are kept; every other batch is unchanged |
| `Queries.StockAfterWithdraw` | controller/controller_galletas.py:149 | taking q out of one batch lowers its product's stock by exactly q and leaves every other product's stock alone |
| `Queries.Oldest` | controller/controller_galletas.py:135-139 | returns nothing exactly when the product has no batch with remaining > 0; otherwise returns a batch of that product with remaining > 0 and no such batch is older |
| `Queries.UnitTypeOf` | controller/controller_galletas.py:20-22 | finds a packaging type with the product's type id named "Unidad" when one exists; nothing only when none does |
| `Queries.UnitProducts` | controller/controller_galletas.py:52-59 | a product is listed exactly when it is in the table and its packaging type is "Unidad" |
| `Queries.UnitProductsCount` | controller/controller_galletas.py:52-59 | each "Unidad" product appears in the listing exactly as often as in the products table, every other product never, so the catalogue has one row per "Unidad" product row |
| `Queries.Eligible` | controller/controller_galletas.py:13-24 | a product is offered for shrinkage exactly when it is a "Unidad" product whose summed batch stock is > 0 |
| `Queries.EligibleCount` | controller/controller_galletas.py:13-24 | each eligible product appears in the shrinkage list exactly as often as in the products table, every other product never |
| `Queries.EligibleHasOldest` | controller/controller_galletas.py:128-143 | for every product offered for shrinkage the FIFO query finds a batch, so "no batch available" needs a product id outside the offered list |
| `GalletasController.Catalog` | controller/controller_galletas.py:43-83 | three lists as long as the "Unidad" product list and aligned with it by name. Unit rows carry the type's cost and the summed stock (0 without batches). 1 kg box rows cost 23000 with stock the largest n with 25n <= unit stock. 700 g box rows cost 16000 with the largest n with 20n <= unit stock. The eligible list is the `Eligible` query's result, so by `EligibleCount` each eligible product appears as often as it occurs in the table |
| `GalletasController.Store.AddProduct` | controller/controller_galletas.py:98-120 | on a valid form, appends exactly one product per packaging type, in type order, each with the given name and recipe, that type's id, stock 0 and a fresh id. Nothing else changes. On an invalid form nothing changes. The store invariant is kept |
| `GalletasController.Store.RecordShrinkage` | controller/controller_galletas.py:123-165 | invalid form gives InvalidForm. No batch with stock gives NoBatch. Otherwise, for an oldest available batch: a request above its remaining quantity gives Insufficient(requested, available) even if other batches could cover it. Else that batch drops by exactly the quantity, no other batch changes, one record with the batch id, quantity, kind, description and date is appended, and the product's total stock drops by the quantity. Every refusal leaves batches and records unchanged; stock stays >= 0 |
| `GalletasController.ChocolateScenario` | controller/controller_galletas.py:135-158 | batches dated 2024-01-01 (10) and 2024-02-01 (5): withdrawing 7 leaves 3 and 5 and one record of 7 on the first batch; asking 12 of a fresh copy gives Insufficient(12, 10) although the two batches hold 15 |

## Left out

- Flask routing, templates, redirects and flash messages: the flash of each route is the `Outcome` value or the `created` flag.
- SQLAlchemy sessions, commits and query planning: tables are sequences and queries are functions over them. An inner join would repeat a product's row once per packaging-type row with its type id. That cannot happen here: `Catalog` requires distinct type ids, and so does the store invariant.
- WTForms validation, the active-recipe choice list and the eligible-product choice list of the forms: `forms/galleta_forms.py` is not part of this model, so validity is one boolean input. `EligibleHasOldest` shows what the eligible choice list would add.
- The `abrir_modal_galleta` flag of the catalogue view and the recipe query behind the creation form's choices: they only drive the page's dialog.
- Concurrency: two requests racing on the same batch are not modelled. Each call runs alone.
- Floating-point prices: costs are integer cents and no arithmetic is done on them.
- `Recipe` rows: the recipe id is passed through as given.
- `static/js/ventas.js`, the tests, `app.py`, `config.py` and `controller/controller_administracion.py`: browser code, framework set-up and tests of models outside this flow.
