/** The read-only queries the cookie controller runs against the tables:
    the per-product stock sum, the oldest batch with stock left, the join
    with the "Unidad" packaging type and the list of products eligible for
    shrinkage. */
module Queries {
  import opened Model

  // ---------------------------------------------------------------------
  // Stock per product: SUM(existencia) GROUP BY galleta_id, COALESCE'd to 0

  /** Total remaining quantity over the batches of one product; 0 when the
      product has no batch (the outer join's COALESCE). Never negative while
      no batch is. */
  function StockOf(batches: seq<Batch>, productId: int): (r: int)
    ensures AllNonNegative(batches) ==> r >= 0
  {
    if batches == [] then 0
    else
      var last := batches[|batches| - 1];
      var init := batches[..|batches| - 1];
      assert AllNonNegative(batches) ==> AllNonNegative(init);
      StockOf(init, productId) + (if last.productId == productId then last.remaining else 0)
  }

  /** The store invariant on batches: no remaining quantity is negative. */
  predicate AllNonNegative(batches: seq<Batch>)
  {
    forall i :: 0 <= i < |batches| ==> batches[i].remaining >= 0
  }

  /** A batch that the shrinkage query may pick for `productId`. */
  predicate Available(b: Batch, productId: int)
  {
    b.productId == productId && b.remaining > 0
  }

  predicate HasAvailable(batches: seq<Batch>, productId: int)
  {
    exists i :: 0 <= i < |batches| && Available(batches[i], productId)
  }

  /** `batches` with `quantity` taken out of batch `i`. */
  function Withdraw(batches: seq<Batch>, i: nat, quantity: int): (r: seq<Batch>)
    requires i < |batches|
    ensures |r| == |batches|
    ensures r[i].remaining == batches[i].remaining - quantity
    ensures r[i].id == batches[i].id && r[i].productId == batches[i].productId && r[i].produced == batches[i].produced
    ensures forall j :: 0 <= j < |batches| && j != i ==> r[j] == batches[j]
  {
    batches[i := batches[i].(remaining := batches[i].remaining - quantity)]
  }

  /** A product with no batch at all has stock 0 (the COALESCE default). */
  lemma {:induction false} StockWithoutBatches(batches: seq<Batch>, productId: int)
    requires forall i :: 0 <= i < |batches| ==> batches[i].productId != productId
    ensures StockOf(batches, productId) == 0
  {
    if batches != [] {
      StockWithoutBatches(batches[..|batches| - 1], productId);
    }
  }

  /** With no negative batch, the summed stock is positive exactly when some
      batch of the product still has stock. */
  lemma {:induction false} StockPositiveIffAvailable(batches: seq<Batch>, productId: int)
    requires AllNonNegative(batches)
    ensures StockOf(batches, productId) > 0 <==> HasAvailable(batches, productId)
  {
    if batches != [] {
      var init := batches[..|batches| - 1];
      StockPositiveIffAvailable(init, productId);
      assert AllNonNegative(init);
      if HasAvailable(init, productId) {
        var i :| 0 <= i < |init| && Available(init[i], productId);
        assert Available(batches[i], productId);
      }
      if HasAvailable(batches, productId) && !Available(batches[|batches| - 1], productId) {
        var i :| 0 <= i < |batches| && Available(batches[i], productId);
        assert Available(init[i], productId);
      }
    }
  }

  /** Taking `quantity` out of one batch lowers the stock of that batch's
      product by exactly `quantity` and leaves every other product's alone. */
  lemma {:induction false} StockAfterWithdraw(batches: seq<Batch>, i: nat, quantity: int, productId: int)
    requires i < |batches|
    ensures StockOf(Withdraw(batches, i, quantity), productId)
         == StockOf(batches, productId) - (if batches[i].productId == productId then quantity else 0)
  {
    var n := |batches|;
    var after := Withdraw(batches, i, quantity);
    if i == n - 1 {
      assert after[..n - 1] == batches[..n - 1];
    } else {
      assert after[..n - 1] == Withdraw(batches[..n - 1], i, quantity);
      StockAfterWithdraw(batches[..n - 1], i, quantity, productId);
    }
  }

  // ---------------------------------------------------------------------
  // The FIFO choice: filter(existencia > 0).order_by(fechaProduccion).first()

  /** Batch `i` is one the query may return: it belongs to the product, has
      stock left, and no such batch was produced earlier. The query does not
      order ties, so any minimal batch qualifies. */
  ghost predicate IsOldestAvailable(batches: seq<Batch>, productId: int, i: int)
  {
    && 0 <= i < |batches|
    && Available(batches[i], productId)
    && forall j :: 0 <= j < |batches| && Available(batches[j], productId) ==> batches[i].produced <= batches[j].produced
  }

  /** The index of an oldest batch of the product with stock left, if any. */
  function Oldest(batches: seq<Batch>, productId: int): (r: Option<nat>)
    ensures r.None? <==> !HasAvailable(batches, productId)
    ensures r.Some? ==> IsOldestAvailable(batches, productId, r.value)
  {
    if batches == [] then None
    else
      var n := |batches|;
      var last := batches[n - 1];
      var init := batches[..n - 1];
      var r := Oldest(init, productId);
      assert forall j :: 0 <= j < n - 1 ==> batches[j] == init[j];
      if !Available(last, productId) then r
      else if r.None? || last.produced < batches[r.value].produced then Some(n - 1)
      else r
  }

  // ---------------------------------------------------------------------
  // join(TipoGalleta).filter(TipoGalleta.nombre == "Unidad")

  /** The "Unidad" packaging type with id `typeId`, if there is one. */
  function UnitTypeOf(types: seq<PackagingType>, typeId: int): (r: Option<PackagingType>)
    ensures r.Some? ==> r.value in types && r.value.id == typeId && r.value.name == UnitTypeName
    ensures r.None? ==> forall k :: 0 <= k < |types| ==> !(types[k].id == typeId && types[k].name == UnitTypeName)
  {
    if types == [] then None
    else if types[0].id == typeId && types[0].name == UnitTypeName then Some(types[0])
    else UnitTypeOf(types[1..], typeId)
  }

  predicate IsUnit(p: Product, types: seq<PackagingType>)
  {
    UnitTypeOf(types, p.typeId).Some?
  }

  /** The products of "Unidad" packaging, in table order (the catalogue's
      `unidad_base` rows). */
  function UnitProducts(products: seq<Product>, types: seq<PackagingType>): (r: seq<Product>)
    ensures |r| <= |products|
    ensures forall p :: p in r <==> p in products && IsUnit(p, types)
  {
    if products == [] then []
    else
      var rest := UnitProducts(products[1..], types);
      assert forall p :: p in products <==> p == products[0] || p in products[1..];
      if IsUnit(products[0], types) then [products[0]] + rest else rest
  }

  /** The products offered for shrinkage: "Unidad" products whose summed
      batch stock is positive (the inner join on the stock sub-query drops
      products without batches). */
  function Eligible(products: seq<Product>, types: seq<PackagingType>, batches: seq<Batch>): (r: seq<Product>)
    ensures |r| <= |products|
    ensures forall p :: p in r <==> p in products && IsUnit(p, types) && StockOf(batches, p.id) > 0
  {
    if products == [] then []
    else
      var rest := Eligible(products[1..], types, batches);
      assert forall p :: p in products <==> p == products[0] || p in products[1..];
      if IsUnit(products[0], types) && StockOf(batches, products[0].id) > 0 then [products[0]] + rest else rest
  }

  /** Each "Unidad" product is listed as often as it occurs in the table
      (once per row, as the one-type-per-product join gives), the others
      never. */
  lemma {:induction false} UnitProductsCount(products: seq<Product>, types: seq<PackagingType>, p: Product)
    ensures multiset(UnitProducts(products, types))[p] == if IsUnit(p, types) then multiset(products)[p] else 0
  {
    if products != [] {
      assert products == [products[0]] + products[1..];
      UnitProductsCount(products[1..], types, p);
    }
  }

  /** Each eligible product is offered as often as it occurs in the table,
      the others never. */
  lemma {:induction false} EligibleCount(products: seq<Product>, types: seq<PackagingType>, batches: seq<Batch>, p: Product)
    ensures multiset(Eligible(products, types, batches))[p]
         == if IsUnit(p, types) && StockOf(batches, p.id) > 0 then multiset(products)[p] else 0
  {
    if products != [] {
      assert products == [products[0]] + products[1..];
      EligibleCount(products[1..], types, batches, p);
    }
  }

  /** Every product offered for shrinkage has a batch the FIFO query finds:
      with no negative batch, the "no batch available" outcome can only be
      reached by a product id outside the offered list. */
  lemma EligibleHasOldest(products: seq<Product>, types: seq<PackagingType>, batches: seq<Batch>, p: Product)
    requires AllNonNegative(batches)
    requires p in Eligible(products, types, batches)
    ensures Oldest(batches, p.id).Some?
  {
    StockPositiveIffAvailable(batches, p.id);
  }
}
