/** The cookie controller: the catalogue view, product creation and the
    shrinkage recorder, over the tables held by a `Store` (the ORM session). */
module GalletasController {
  import opened Model
  import opened Queries

  /** What the recorder tells the user (its flash message). */
  datatype Outcome =
    | Ok
    | NoBatch
    | Insufficient(requested: int, available: int)
    | InvalidForm

  /** One row of a catalogue list: name, packaging label, cost in cents and stock. */
  datatype Item = Item(name: string, packaging: string, cost: int, stock: int)

  const KiloBoxLabel: string := "Caja de Kilo"
  const MedioBoxLabel: string := "Caja de 700 gramos"
  /** Units per box: box stock is derived from unit stock, never stored. */
  const KiloBoxUnits: int := 25
  const MedioBoxUnits: int := 20
  /** Fixed box prices (230.00 and 160.00), in cents. */
  const KiloBoxCost: int := 23000
  const MedioBoxCost: int := 16000

  predicate HasBatch(batches: seq<Batch>, batchId: int)
  {
    exists i :: 0 <= i < |batches| && batches[i].id == batchId
  }

  /** Primary keys of the packaging types are distinct, so the join with
      `TipoGalleta` gives each product at most one row. */
  predicate DistinctTypeIds(types: seq<PackagingType>)
  {
    forall i, j :: 0 <= i < j < |types| ==> types[i].id != types[j].id
  }

  /** The store invariant. Distinct primary keys, auto-increment counters
      past every key in use and records pointing at existing batches are
      what the database keeps. No negative batch is assumed of the starting
      tables and kept by the recorder's sufficiency check. */
  predicate Consistent(
    products: seq<Product>, types: seq<PackagingType>, batches: seq<Batch>,
    shrinkages: seq<Shrinkage>, nextProductId: int, nextShrinkageId: int)
  {
    && AllNonNegative(batches)
    && DistinctTypeIds(types)
    && (forall i, j :: 0 <= i < j < |batches| ==> batches[i].id != batches[j].id)
    && (forall i, j :: 0 <= i < j < |products| ==> products[i].id != products[j].id)
    && (forall i :: 0 <= i < |products| ==> products[i].id < nextProductId)
    && (forall i, j :: 0 <= i < j < |shrinkages| ==> shrinkages[i].id != shrinkages[j].id)
    && (forall i :: 0 <= i < |shrinkages| ==> shrinkages[i].id < nextShrinkageId)
    && (forall i :: 0 <= i < |shrinkages| ==> HasBatch(batches, shrinkages[i].batchId))
  }

  /** The catalogue view (`galletas`): three lists aligned with the "Unidad"
      products — unit, 1 kg box and 700 g box — and the products offered
      for shrinkage. Reads the tables and changes nothing. */
  method Catalog(products: seq<Product>, types: seq<PackagingType>, batches: seq<Batch>)
    returns (units: seq<Item>, kilo: seq<Item>, medio: seq<Item>, eligible: seq<Product>)
    requires DistinctTypeIds(types)
    ensures |units| == |UnitProducts(products, types)| && |kilo| == |units| && |medio| == |units|
    ensures forall k :: 0 <= k < |units| ==>
      var p := UnitProducts(products, types)[k];
      && p in products && IsUnit(p, types)
      && units[k] == Item(p.name, UnitTypeName, UnitTypeOf(types, p.typeId).value.cost, StockOf(batches, p.id))
    ensures forall k :: 0 <= k < |kilo| ==>
      && kilo[k].name == units[k].name && kilo[k].packaging == KiloBoxLabel && kilo[k].cost == KiloBoxCost
      && kilo[k].stock * KiloBoxUnits <= units[k].stock < (kilo[k].stock + 1) * KiloBoxUnits
    ensures forall k :: 0 <= k < |medio| ==>
      && medio[k].name == units[k].name && medio[k].packaging == MedioBoxLabel && medio[k].cost == MedioBoxCost
      && medio[k].stock * MedioBoxUnits <= units[k].stock < (medio[k].stock + 1) * MedioBoxUnits
    ensures eligible == Eligible(products, types, batches)
    ensures forall p :: p in eligible <==> p in products && IsUnit(p, types) && StockOf(batches, p.id) > 0
  {
    eligible := Eligible(products, types, batches);
    var base := UnitProducts(products, types);
    units, kilo, medio := [], [], [];
    for k := 0 to |base|
      invariant |units| == k && |kilo| == k && |medio| == k
      invariant forall m :: 0 <= m < k ==>
        && base[m] in products && IsUnit(base[m], types)
        && units[m] == Item(base[m].name, UnitTypeName, UnitTypeOf(types, base[m].typeId).value.cost, StockOf(batches, base[m].id))
      invariant forall m :: 0 <= m < k ==>
        && kilo[m].name == units[m].name && kilo[m].packaging == KiloBoxLabel && kilo[m].cost == KiloBoxCost
        && kilo[m].stock * KiloBoxUnits <= units[m].stock < (kilo[m].stock + 1) * KiloBoxUnits
      invariant forall m :: 0 <= m < k ==>
        && medio[m].name == units[m].name && medio[m].packaging == MedioBoxLabel && medio[m].cost == MedioBoxCost
        && medio[m].stock * MedioBoxUnits <= units[m].stock < (medio[m].stock + 1) * MedioBoxUnits
    {
      var p := base[k];
      assert p in base;
      var stock := StockOf(batches, p.id);
      var cost := UnitTypeOf(types, p.typeId).value.cost;
      units := units + [Item(p.name, UnitTypeName, cost, stock)];
      kilo := kilo + [Item(p.name, KiloBoxLabel, KiloBoxCost, stock / KiloBoxUnits)];
      medio := medio + [Item(p.name, MedioBoxLabel, MedioBoxCost, stock / MedioBoxUnits)];
    }
  }

  /** The tables behind the ORM session, updated in place by the routes. */
  class Store {
    var products: seq<Product>
    var types: seq<PackagingType>
    var batches: seq<Batch>
    var shrinkages: seq<Shrinkage>
    var nextProductId: int
    var nextShrinkageId: int

    ghost predicate Valid()
      reads this
    {
      Consistent(products, types, batches, shrinkages, nextProductId, nextShrinkageId)
    }

    constructor (
      products: seq<Product>, types: seq<PackagingType>, batches: seq<Batch>,
      shrinkages: seq<Shrinkage>, nextProductId: int, nextShrinkageId: int)
      requires Consistent(products, types, batches, shrinkages, nextProductId, nextShrinkageId)
      ensures Valid()
      ensures this.products == products && this.types == types && this.batches == batches
      ensures this.shrinkages == shrinkages
      ensures this.nextProductId == nextProductId && this.nextShrinkageId == nextShrinkageId
    {
      this.products := products;
      this.types := types;
      this.batches := batches;
      this.shrinkages := shrinkages;
      this.nextProductId := nextProductId;
      this.nextShrinkageId := nextShrinkageId;
    }

    /** `agregar_galleta`: when the form is valid, one new product row per
        packaging type, all with the given name and recipe and stock 0. */
    method AddProduct(formValid: bool, name: string, recipeId: int) returns (created: bool)
      requires Valid()
      modifies this
      ensures Valid()
      ensures created == formValid
      ensures types == old(types) && batches == old(batches)
      ensures shrinkages == old(shrinkages) && nextShrinkageId == old(nextShrinkageId)
      ensures !formValid ==> products == old(products) && nextProductId == old(nextProductId)
      ensures formValid ==>
        && |products| == |old(products)| + |types|
        && products[..|old(products)|] == old(products)
        && nextProductId == old(nextProductId) + |types|
        && forall k :: 0 <= k < |types| ==>
             products[|old(products)| + k] == Product(old(nextProductId) + k, name, types[k].id, recipeId, 0)
    {
      created := formValid;
      if !formValid {
        return;
      }
      ghost var before := products;
      ghost var firstId := nextProductId;
      for k := 0 to |types|
        invariant types == old(types) && batches == old(batches)
        invariant shrinkages == old(shrinkages) && nextShrinkageId == old(nextShrinkageId)
        invariant |products| == |before| + k
        invariant products[..|before|] == before
        invariant nextProductId == firstId + k
        invariant forall m :: 0 <= m < k ==> products[|before| + m] == Product(firstId + m, name, types[m].id, recipeId, 0)
        invariant Valid()
      {
        products := products + [Product(nextProductId, name, types[k].id, recipeId, 0)];
        nextProductId := nextProductId + 1;
      }
    }

    /** `merma_galleta`: take `quantity` out of the oldest batch of the product
        that still has stock and log it. Only that one batch is checked: a
        request it cannot cover is refused even if several batches together
        could. Every refusal leaves the tables as they were. */
    method RecordShrinkage(
      formValid: bool, productId: int, quantity: int, kind: string, description: string, date: Date)
      returns (outcome: Outcome)
      requires Valid()
      modifies this
      ensures Valid()
      ensures products == old(products) && types == old(types) && nextProductId == old(nextProductId)
      ensures !outcome.Ok? ==>
        batches == old(batches) && shrinkages == old(shrinkages) && nextShrinkageId == old(nextShrinkageId)
      ensures !formValid ==> outcome == InvalidForm
      ensures formValid && !HasAvailable(old(batches), productId) ==> outcome == NoBatch
      ensures formValid && HasAvailable(old(batches), productId) ==>
        exists i :: IsOldestAvailable(old(batches), productId, i) &&
          if quantity > old(batches)[i].remaining then
            outcome == Insufficient(quantity, old(batches)[i].remaining)
          else
            && outcome == Ok
            && batches == Withdraw(old(batches), i, quantity)
            && shrinkages == old(shrinkages) + [Shrinkage(old(nextShrinkageId), kind, old(batches)[i].id, quantity, description, date)]
            && nextShrinkageId == old(nextShrinkageId) + 1
      ensures outcome.Ok? ==>
        && StockOf(batches, productId) == StockOf(old(batches), productId) - quantity
        && forall other :: other != productId ==> StockOf(batches, other) == StockOf(old(batches), other)
    {
      if !formValid {
        return InvalidForm;
      }
      var chosen := Oldest(batches, productId);
      if chosen.None? {
        return NoBatch;
      }
      var i := chosen.value;
      var lot := batches[i];
      if quantity > lot.remaining {
        return Insufficient(quantity, lot.remaining);
      }
      ghost var before := batches;
      batches := Withdraw(batches, i, quantity);
      shrinkages := shrinkages + [Shrinkage(nextShrinkageId, kind, lot.id, quantity, description, date)];
      nextShrinkageId := nextShrinkageId + 1;
      outcome := Ok;

      assert HasBatch(batches, lot.id) by { assert batches[i].id == lot.id; }
      forall k | 0 <= k < |shrinkages| ensures HasBatch(batches, shrinkages[k].batchId) {
        if k < |shrinkages| - 1 {
          var j :| 0 <= j < |before| && before[j].id == shrinkages[k].batchId;
          assert batches[j].id == before[j].id;
        }
      }
      forall other ensures StockOf(batches, other) == StockOf(before, other) - (if other == productId then quantity else 0) {
        StockAfterWithdraw(before, i, quantity, other);
      }
    }
  }

  /** Product "Chocolate" with batches of 10 (2024-01-01) and 5
      (2024-02-01). Taking 7 draws on the older
      batch only; asking for 12 on a fresh copy is refused although the two
      batches hold 15 together. */
  method ChocolateScenario()
    returns (seven: Outcome, older: int, newer: int, records: seq<Shrinkage>, twelve: Outcome)
    ensures seven == Ok && older == 3 && newer == 5
    ensures records == [Shrinkage(1, "Rotura", 1, 7, "caida", 20240301)]
    ensures twelve == Insufficient(12, 10)
  {
    var types := [PackagingType(1, UnitTypeName, 1000), PackagingType(2, KiloBoxLabel, 23000), PackagingType(3, MedioBoxLabel, 16000)];
    var products := [Product(1, "Chocolate", 1, 1, 0), Product(2, "Chocolate", 2, 1, 0), Product(3, "Chocolate", 3, 1, 0)];
    var batches := [Batch(1, 1, 20240101, 10), Batch(2, 1, 20240201, 5)];

    var store := new Store(products, types, batches, [], 4, 1);
    seven := store.RecordShrinkage(true, 1, 7, "Rotura", "caida", 20240301);
    older, newer, records := store.batches[0].remaining, store.batches[1].remaining, store.shrinkages;

    var again := new Store(products, types, batches, [], 4, 1);
    twelve := again.RecordShrinkage(true, 1, 12, "Rotura", "caida", 20240301);
  }
}
