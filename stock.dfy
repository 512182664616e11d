/**
 * Stock reconciliation (`updateStockBySkus`): Picqer's free stock is merged
 * into the channel's variants, joined on SKU. A matched variant gets
 * `stockOnHand = stockAllocated + freestock`; the change is recorded as a
 * stock adjustment, and one stock-movement event carries all of them.
 */
module Stock {
  import opened Wrappers
  import Pagination

  /**
   * A variant row as the queries see it, joined with its channels and its
   * product's flags.
   */
  datatype VariantRow = VariantRow(
    id: int,
    sku: string,
    stockOnHand: int,
    stockAllocated: int,
    channels: set<int>,
    deleted: bool,
    enabled: bool,
    productEnabled: bool,
    productDeleted: bool)

  /** Stock of one Picqer warehouse; `freestock` may be absent. */
  datatype WarehouseStock = WarehouseStock(freestock: Option<int>)

  /** A Picqer product: its SKU (`productcode`) and its per-warehouse stock. */
  datatype PicqerProduct = PicqerProduct(idproduct: int, productcode: string, stock: seq<WarehouseStock>)

  /** The audit record of one variant's stock change. */
  datatype StockAdjustment = StockAdjustment(variantId: int, quantity: int)

  /** `product.stock?.[0]?.freestock || 0`: the first warehouse's free stock, 0 when missing. */
  function FreeStock(p: PicqerProduct): (r: int)
    // only the first warehouse counts
    ensures |p.stock| > 0 && p.stock[0].freestock.Some? ==> r == p.stock[0].freestock.value
    ensures |p.stock| == 0 || p.stock[0].freestock.None? ==> r == 0
  {
    if |p.stock| > 0 && p.stock[0].freestock.Some? then p.stock[0].freestock.value else 0
  }

  function Skus(ps: seq<PicqerProduct>): (r: seq<string>)
    ensures |r| == |ps| && forall k :: 0 <= k < |ps| ==> r[k] == ps[k].productcode
  {
    seq(|ps|, k requires 0 <= k < |ps| => ps[k].productcode)
  }

  /** The row filter of `findAllVariantsBySku`: in the channel, SKU in the list, not deleted. */
  predicate InSkuQuery(r: VariantRow, channelId: int, skus: seq<string>) {
    channelId in r.channels && r.sku in skus && !r.deleted
  }

  /** The query's full result set, in table order. */
  function SkuQuery(rows: seq<VariantRow>, channelId: int, skus: seq<string>): (r: seq<VariantRow>)
    ensures forall v :: v in r ==> v in rows && InSkuQuery(v, channelId, skus)
    ensures forall v :: v in rows && InSkuQuery(v, channelId, skus) ==> v in r
  {
    if rows == [] then []
    else
      var rest := SkuQuery(rows[1..], channelId, skus);
      assert forall v :: v in rows ==> v == rows[0] || v in rows[1..];
      if InSkuQuery(rows[0], channelId, skus) then [rows[0]] + rest else rest
  }

  /** `picqerProducts.find(p => p.productcode === sku)`. */
  function FindProduct(ps: seq<PicqerProduct>, sku: string): (r: Option<PicqerProduct>)
    ensures r.None? <==> sku !in Skus(ps)
    ensures r.Some? ==> r.value in ps && r.value.productcode == sku
  {
    if ps == [] then None
    else if ps[0].productcode == sku then Some(ps[0])
    else
      assert Skus(ps) == [ps[0].productcode] + Skus(ps[1..]);
      FindProduct(ps[1..], sku)
  }

  /** `.find` returns the first product with the SKU. */
  lemma {:induction false} FindProductIsFirst(ps: seq<PicqerProduct>, sku: string)
    requires FindProduct(ps, sku).Some?
    ensures exists k :: 0 <= k < |ps| && ps[k] == FindProduct(ps, sku).value &&
                        forall j :: 0 <= j < k ==> ps[j].productcode != sku
  {
    if ps[0].productcode != sku {
      var rest := ps[1..];
      FindProductIsFirst(rest, sku);
      var k :| 0 <= k < |rest| && rest[k] == FindProduct(rest, sku).value &&
               forall j :: 0 <= j < k ==> rest[j].productcode != sku;
      assert ps[k + 1] == rest[k];
      forall j | 0 <= j < k + 1
        ensures ps[j].productcode != sku
      {
        if j > 0 {
          assert ps[j] == rest[j - 1];
        }
      }
    } else {
      assert ps[0] == FindProduct(ps, sku).value;
    }
  }

  /** The row after the update of one matched variant; unchanged when no product matches. */
  function Reconciled(v: VariantRow, ps: seq<PicqerProduct>): (r: VariantRow)
    // only the stock on hand can change
    ensures r == v.(stockOnHand := r.stockOnHand)
    ensures FindProduct(ps, v.sku).Some? ==> r.stockOnHand - r.stockAllocated == FreeStock(FindProduct(ps, v.sku).value)
    ensures FindProduct(ps, v.sku).None? ==> r == v
  {
    match FindProduct(ps, v.sku)
    case Some(p) => v.(stockOnHand := v.stockAllocated + FreeStock(p))
    case None => v
  }

  /** The whole table after a reconciliation with `ps` in channel `channelId`. */
  function ReconcileAll(rows: seq<VariantRow>, channelId: int, ps: seq<PicqerProduct>): seq<VariantRow> {
    seq(|rows|, k requires 0 <= k < |rows| =>
      if InSkuQuery(rows[k], channelId, Skus(ps)) then Reconciled(rows[k], ps) else rows[k])
  }

  /** The adjustment of a matched variant: its new stock on hand minus the old one. */
  function Delta(v: VariantRow, ps: seq<PicqerProduct>): StockAdjustment
    requires FindProduct(ps, v.sku).Some?
  {
    StockAdjustment(v.id, v.stockAllocated + FreeStock(FindProduct(ps, v.sku).value) - v.stockOnHand)
  }

  /** The adjustment recorded for one fetched variant: none when no Picqer product has its SKU. */
  function AdjustmentFor(v: VariantRow, ps: seq<PicqerProduct>): seq<StockAdjustment> {
    if FindProduct(ps, v.sku).Some? then [Delta(v, ps)] else []
  }

  /** The adjustments recorded for the fetched variants `vs`, in order. */
  function Adjustments(vs: seq<VariantRow>, ps: seq<PicqerProduct>): seq<StockAdjustment> {
    if vs == [] then [] else AdjustmentFor(vs[0], ps) + Adjustments(vs[1..], ps)
  }

  function Ids(vs: seq<VariantRow>): set<int> {
    set v | v in vs :: v.id
  }

  /** `repository.update({ id }, { stockOnHand })`. */
  function SetStockOnHand(rows: seq<VariantRow>, id: int, stockOnHand: int): seq<VariantRow> {
    seq(|rows|, k requires 0 <= k < |rows| =>
      if rows[k].id == id then rows[k].(stockOnHand := stockOnHand) else rows[k])
  }

  predicate UniqueIds(rows: seq<VariantRow>) {
    forall i, j :: 0 <= i < j < |rows| ==> rows[i].id != rows[j].id
  }

  /** The table once the variants whose ids are in `done` have been reconciled. */
  function PartlyReconciled(rows: seq<VariantRow>, done: set<int>, ps: seq<PicqerProduct>): seq<VariantRow> {
    seq(|rows|, k requires 0 <= k < |rows| => if rows[k].id in done then Reconciled(rows[k], ps) else rows[k])
  }

  /** Updating the row of one more fetched variant by id reconciles exactly that row. */
  lemma ReconcileStep(rows: seq<VariantRow>, done: set<int>, table: seq<VariantRow>, v: VariantRow,
                      ps: seq<PicqerProduct>, newStockOnHand: int)
    requires UniqueIds(rows) && v in rows && table == PartlyReconciled(rows, done, ps)
    requires FindProduct(ps, v.sku).Some? && newStockOnHand == v.stockAllocated + FreeStock(FindProduct(ps, v.sku).value)
    ensures SetStockOnHand(table, v.id, newStockOnHand) == PartlyReconciled(rows, done + {v.id}, ps)
  {
    var t2 := SetStockOnHand(table, v.id, newStockOnHand);
    var goal := PartlyReconciled(rows, done + {v.id}, ps);
    forall k | 0 <= k < |rows|
      ensures t2[k] == goal[k]
    {
      if rows[k].id == v.id {
        var m :| 0 <= m < |rows| && rows[m] == v;
        assert m == k;
      }
    }
  }

  /** A fetched variant without Picqer product leaves the table as it is. */
  lemma UnmatchedStep(rows: seq<VariantRow>, done: set<int>, v: VariantRow, ps: seq<PicqerProduct>)
    requires UniqueIds(rows) && v in rows && FindProduct(ps, v.sku).None?
    ensures PartlyReconciled(rows, done, ps) == PartlyReconciled(rows, done + {v.id}, ps)
  {
    forall k | 0 <= k < |rows| && rows[k].id == v.id
      ensures rows[k] == v
    {
      var m :| 0 <= m < |rows| && rows[m] == v;
      assert m == k;
    }
  }

  /** Once all fetched variants are done, the table is the reconciled one. */
  lemma ReconcileDone(rows: seq<VariantRow>, channelId: int, ps: seq<PicqerProduct>)
    requires UniqueIds(rows)
    ensures PartlyReconciled(rows, Ids(SkuQuery(rows, channelId, Skus(ps))), ps) == ReconcileAll(rows, channelId, ps)
  {
    var vs := SkuQuery(rows, channelId, Skus(ps));
    forall k | 0 <= k < |rows|
      ensures rows[k].id in Ids(vs) <==> InSkuQuery(rows[k], channelId, Skus(ps))
    {
      if rows[k].id in Ids(vs) {
        var w :| w in vs && w.id == rows[k].id;
        var m :| 0 <= m < |rows| && rows[m] == w;
        assert m == k;
      }
    }
  }

  /**
   * Every matched row gets `stockAllocated + freestock` of the first Picqer
   * product with its SKU; every other row is left as it was.
   */
  lemma StockFormula(rows: seq<VariantRow>, channelId: int, ps: seq<PicqerProduct>, k: nat)
    requires k < |rows|
    ensures |ReconcileAll(rows, channelId, ps)| == |rows|
    ensures InSkuQuery(rows[k], channelId, Skus(ps)) ==>
      FindProduct(ps, rows[k].sku).Some? &&
      ReconcileAll(rows, channelId, ps)[k] ==
        rows[k].(stockOnHand := rows[k].stockAllocated + FreeStock(FindProduct(ps, rows[k].sku).value))
    ensures !InSkuQuery(rows[k], channelId, Skus(ps)) ==> ReconcileAll(rows, channelId, ps)[k] == rows[k]
  {
  }

  /**
   * One adjustment per fetched variant, in order, each carrying the new
   * stock on hand minus the old one.
   */
  lemma {:induction false} AdjustmentsAreDeltas(vs: seq<VariantRow>, ps: seq<PicqerProduct>)
    requires forall j :: 0 <= j < |vs| ==> FindProduct(ps, vs[j].sku).Some?
    ensures |Adjustments(vs, ps)| == |vs|
    ensures forall j :: 0 <= j < |vs| ==> Adjustments(vs, ps)[j] == Delta(vs[j], ps)
  {
    AdjustmentsLength(vs, ps);
    forall j | 0 <= j < |vs|
      ensures Adjustments(vs, ps)[j] == Delta(vs[j], ps)
    {
      AdjustmentAt(vs, ps, j);
    }
  }

  /** When every fetched variant is matched, each yields exactly one adjustment. */
  lemma {:induction false} AdjustmentsLength(vs: seq<VariantRow>, ps: seq<PicqerProduct>)
    requires forall j :: 0 <= j < |vs| ==> FindProduct(ps, vs[j].sku).Some?
    ensures |Adjustments(vs, ps)| == |vs|
  {
    if vs != [] {
      var rest := vs[1..];
      forall j | 0 <= j < |rest|
        ensures FindProduct(ps, rest[j].sku).Some?
      {
        assert rest[j] == vs[j + 1];
      }
      AdjustmentsLength(rest, ps);
      assert FindProduct(ps, vs[0].sku).Some?;
    }
  }

  /** The `j`-th adjustment belongs to the `j`-th fetched variant. */
  lemma {:induction false} AdjustmentAt(vs: seq<VariantRow>, ps: seq<PicqerProduct>, j: int)
    requires forall j :: 0 <= j < |vs| ==> FindProduct(ps, vs[j].sku).Some?
    requires 0 <= j < |vs|
    ensures |Adjustments(vs, ps)| == |vs| && Adjustments(vs, ps)[j] == Delta(vs[j], ps)
  {
    var rest := vs[1..];
    forall k | 0 <= k < |rest|
      ensures FindProduct(ps, rest[k].sku).Some?
    {
      assert rest[k] == vs[k + 1];
    }
    AdjustmentsLength(vs, ps);
    AdjustmentsLength(rest, ps);
    assert AdjustmentFor(vs[0], ps) == [Delta(vs[0], ps)];
    assert Adjustments(vs, ps) == [Delta(vs[0], ps)] + Adjustments(rest, ps);
    if j > 0 {
      AdjustmentAt(rest, ps, j - 1);
      assert vs[j] == rest[j - 1];
    }
  }

  /** The published event holds exactly one adjustment per matched variant. */
  lemma OneAdjustmentPerMatchedVariant(rows: seq<VariantRow>, channelId: int, ps: seq<PicqerProduct>)
    ensures var vs := SkuQuery(rows, channelId, Skus(ps));
      |Adjustments(vs, ps)| == |vs| &&
      forall j :: 0 <= j < |vs| ==>
        Adjustments(vs, ps)[j].variantId == vs[j].id &&
        FindProduct(ps, vs[j].sku).Some? &&
        Adjustments(vs, ps)[j].quantity ==
          vs[j].stockAllocated + FreeStock(FindProduct(ps, vs[j].sku).value) - vs[j].stockOnHand
  {
    var vs := SkuQuery(rows, channelId, Skus(ps));
    forall j | 0 <= j < |vs|
      ensures FindProduct(ps, vs[j].sku).Some?
    {
      assert vs[j] in vs;
      assert InSkuQuery(vs[j], channelId, Skus(ps));
    }
    AdjustmentsAreDeltas(vs, ps);
  }

  lemma {:induction false} AdjustmentsOfSettledRows(vs: seq<VariantRow>, ps: seq<PicqerProduct>)
    requires forall v :: v in vs ==> Reconciled(v, ps) == v
    ensures forall a :: a in Adjustments(vs, ps) ==> a.quantity == 0
  {
    if vs != [] {
      var rest := vs[1..];
      assert forall v :: v in rest ==> v in vs;
      AdjustmentsOfSettledRows(rest, ps);
      assert vs[0] in vs;
    }
  }

  /**
   * Reconciling twice with the same Picqer data changes nothing the second
   * time, and the second event carries only zero adjustments.
   */
  lemma ReconcileIdempotent(rows: seq<VariantRow>, channelId: int, ps: seq<PicqerProduct>)
    ensures ReconcileAll(ReconcileAll(rows, channelId, ps), channelId, ps) == ReconcileAll(rows, channelId, ps)
    ensures forall a :: a in Adjustments(SkuQuery(ReconcileAll(rows, channelId, ps), channelId, Skus(ps)), ps) ==>
      a.quantity == 0
  {
    var once := ReconcileAll(rows, channelId, ps);
    var vs := SkuQuery(once, channelId, Skus(ps));
    forall v | v in vs
      ensures Reconciled(v, ps) == v
    {
      var k :| 0 <= k < |once| && once[k] == v;
    }
    AdjustmentsOfSettledRows(vs, ps);
  }

  /**
   * A later reconciliation decides the stock of every row it matches on
   * its own: what an earlier one wrote there does not matter.
   */
  lemma LatestPullWins(rows: seq<VariantRow>, channelId: int, ps1: seq<PicqerProduct>, ps2: seq<PicqerProduct>, k: nat)
    requires k < |rows| && InSkuQuery(rows[k], channelId, Skus(ps2))
    ensures ReconcileAll(ReconcileAll(rows, channelId, ps1), channelId, ps2)[k] ==
            ReconcileAll(rows, channelId, ps2)[k]
  {
  }

  lemma {:induction false} FindProductAppend(ps: seq<PicqerProduct>, q: PicqerProduct, sku: string)
    requires sku != q.productcode
    ensures FindProduct(ps + [q], sku) == FindProduct(ps, sku)
  {
    if ps != [] {
      assert (ps + [q])[1..] == ps[1..] + [q];
      FindProductAppend(ps[1..], q, sku);
    }
  }

  lemma {:induction false} SkuQuerySameSkus(rows: seq<VariantRow>, channelId: int, s1: seq<string>, s2: seq<string>)
    requires forall r :: r in rows ==> (r.sku in s1 <==> r.sku in s2)
    ensures SkuQuery(rows, channelId, s1) == SkuQuery(rows, channelId, s2)
  {
    if rows != [] {
      assert forall r :: r in rows[1..] ==> r in rows;
      SkuQuerySameSkus(rows[1..], channelId, s1, s2);
      assert rows[0] in rows;
    }
  }

  /** A Picqer product whose SKU no local variant has changes nothing. */
  lemma UnknownSkuIgnored(rows: seq<VariantRow>, channelId: int, ps: seq<PicqerProduct>, q: PicqerProduct)
    requires forall r :: r in rows ==> r.sku != q.productcode
    ensures ReconcileAll(rows, channelId, ps + [q]) == ReconcileAll(rows, channelId, ps)
    ensures SkuQuery(rows, channelId, Skus(ps + [q])) == SkuQuery(rows, channelId, Skus(ps))
  {
    assert Skus(ps + [q]) == Skus(ps) + [q.productcode];
    forall r | r in rows
      ensures FindProduct(ps + [q], r.sku) == FindProduct(ps, r.sku)
    {
      FindProductAppend(ps, q, r.sku);
    }
    SkuQuerySameSkus(rows, channelId, Skus(ps + [q]), Skus(ps));
    var a, b := ReconcileAll(rows, channelId, ps + [q]), ReconcileAll(rows, channelId, ps);
    forall k | 0 <= k < |rows|
      ensures a[k] == b[k]
    {
      assert rows[k] in rows;
    }
  }

  /** Local SKU "ABC" with 5 allocated and 5 on hand, Picqer free stock 10: 15 on hand, delta +10. */
  lemma ScenarioFreeStockTen()
    ensures var rows := [VariantRow(1, "ABC", 5, 5, {1}, false, true, true, false)];
      var ps := [PicqerProduct(7, "ABC", [WarehouseStock(Some(10))])];
      ReconcileAll(rows, 1, ps)[0].stockOnHand == 15 &&
      Adjustments(SkuQuery(rows, 1, Skus(ps)), ps) == [StockAdjustment(1, 10)]
  {
    var rows := [VariantRow(1, "ABC", 5, 5, {1}, false, true, true, false)];
    var ps := [PicqerProduct(7, "ABC", [WarehouseStock(Some(10))])];
    assert Skus(ps) == ["ABC"];
    assert SkuQuery(rows, 1, Skus(ps)) == rows;
  }

  /**
   * A Picqer product without free stock is not skipped: the variant is
   * still written, with only its allocated stock on hand.
   */
  lemma ScenarioMissingFreeStock()
    ensures var rows := [VariantRow(1, "ABC", 8, 5, {1}, false, true, true, false)];
      var ps := [PicqerProduct(7, "ABC", [])];
      ReconcileAll(rows, 1, ps)[0].stockOnHand == 5 &&
      Adjustments(SkuQuery(rows, 1, Skus(ps)), ps) == [StockAdjustment(1, -3)]
  {
    var rows := [VariantRow(1, "ABC", 8, 5, {1}, false, true, true, false)];
    var ps := [PicqerProduct(7, "ABC", [])];
    assert Skus(ps) == ["ABC"];
    assert SkuQuery(rows, 1, Skus(ps)) == rows;
  }

  lemma IdsStep(vs: seq<VariantRow>, i: nat)
    requires i < |vs|
    ensures Ids(vs[..i + 1]) == Ids(vs[..i]) + {vs[i].id}
  {
    assert forall w :: w in vs[..i + 1] <==> w in vs[..i] || w == vs[i];
  }

  /** The adjustments of two runs of variants, one after the other. */
  lemma {:induction false} AdjustmentsAppend(a: seq<VariantRow>, b: seq<VariantRow>, ps: seq<PicqerProduct>)
    ensures Adjustments(a + b, ps) == Adjustments(a, ps) + Adjustments(b, ps)
  {
    if a != [] {
      assert (a + b)[0] == a[0];
      assert (a + b)[1..] == a[1..] + b;
      AdjustmentsAppend(a[1..], b, ps);
    } else {
      assert a + b == b;
    }
  }

  lemma AdjustmentsStep(vs: seq<VariantRow>, i: nat, ps: seq<PicqerProduct>)
    requires i < |vs|
    ensures Adjustments(vs[..i + 1], ps) == Adjustments(vs[..i], ps) + AdjustmentFor(vs[i], ps)
  {
    assert vs[..i + 1] == vs[..i] + [vs[i]];
    AdjustmentsAppend(vs[..i], [vs[i]], ps);
    assert Adjustments([vs[i]], ps) == AdjustmentFor(vs[i], ps) + Adjustments([], ps);
  }

  /**
   * The `Promise.all` over the fetched variants of `updateStockBySkus`,
   * run one variant after another: the new table, the adjustments and the
   * update count.
   */
  method ApplyFreeStock(rows: seq<VariantRow>, vs: seq<VariantRow>, ps: seq<PicqerProduct>)
    returns (table: seq<VariantRow>, adjustments: seq<StockAdjustment>, updateCount: nat)
    requires UniqueIds(rows) && forall v :: v in vs ==> v in rows
    ensures table == PartlyReconciled(rows, Ids(vs), ps)
    ensures adjustments == Adjustments(vs, ps)
    // only matched variants are counted: the unmatched ones return early
    ensures updateCount == |Adjustments(vs, ps)|
  {
    table := rows;
    adjustments := [];
    updateCount := 0;
    ghost var done: set<int> := {};
    var i := 0;
    while i < |vs|
      invariant 0 <= i <= |vs|
      invariant done == Ids(vs[..i])
      invariant table == PartlyReconciled(rows, done, ps)
      invariant adjustments == Adjustments(vs[..i], ps)
      invariant updateCount == |adjustments|
    {
      assert vs[i] in vs;
      IdsStep(vs, i);
      AdjustmentsStep(vs, i, ps);
      var updated;
      table, adjustments, updated := ReconcileVariant(rows, done, table, adjustments, vs[i], ps);
      done := done + {vs[i].id};
      if updated {
        updateCount := updateCount + 1;
      }
      i := i + 1;
    }
    assert vs[..i] == vs;
  }

  /** One iteration: a matched variant gets its new stock and adjustment, an unmatched one is skipped. */
  method ReconcileVariant(rows: seq<VariantRow>, ghost done: set<int>, table: seq<VariantRow>,
                          adjustments: seq<StockAdjustment>, v: VariantRow, ps: seq<PicqerProduct>)
    returns (table': seq<VariantRow>, adjustments': seq<StockAdjustment>, updated: bool)
    requires UniqueIds(rows) && v in rows && table == PartlyReconciled(rows, done, ps)
    ensures table' == PartlyReconciled(rows, done + {v.id}, ps)
    ensures adjustments' == adjustments + AdjustmentFor(v, ps)
    ensures updated <==> FindProduct(ps, v.sku).Some?
    ensures |adjustments'| == |adjustments| + (if updated then 1 else 0)
  {
    var p := FindProduct(ps, v.sku);
    if p.Some? {
      var newStockOnHand := v.stockAllocated + FreeStock(p.value);
      ReconcileStep(rows, done, table, v, ps, newStockOnHand);
      table' := SetStockOnHand(table, v.id, newStockOnHand);
      adjustments' := adjustments + [StockAdjustment(v.id, newStockOnHand - v.stockOnHand)];
      updated := true;
    } else {
      UnmatchedStep(rows, done, v, ps);
      table', adjustments', updated := table, adjustments, false;
    }
  }

  /**
   * The variant table of the commerce database and the stock-movement
   * events published on the event bus.
   */
  class VariantTable {
    var rows: seq<VariantRow>
    var published: seq<seq<StockAdjustment>>

    /** Variant ids are primary keys. */
    ghost predicate Valid()
      reads this
    {
      UniqueIds(rows)
    }

    constructor (rows0: seq<VariantRow>)
      requires UniqueIds(rows0)
      ensures Valid() && rows == rows0 && published == []
    {
      rows := rows0;
      published := [];
    }

    /** `findAllVariantsBySku`: every non-deleted variant of the channel whose SKU is listed. */
    method FindAllVariantsBySku(channelId: int, skus: seq<string>) returns (vs: seq<VariantRow>)
      ensures forall v :: v in vs <==> v in rows && InSkuQuery(v, channelId, skus)
      ensures vs == SkuQuery(rows, channelId, skus)
    {
      var queries;
      vs, queries := Pagination.CollectPages(SkuQuery(rows, channelId, skus));
    }

    /**
     * `updateStockBySkus`: reconciles every matched variant, publishes one
     * event with one adjustment per matched variant, and returns how many
     * variants were updated.
     */
    method UpdateStockBySkus(channelId: int, ps: seq<PicqerProduct>) returns (updateCount: nat)
      requires Valid()
      modifies this
      ensures Valid()
      ensures rows == ReconcileAll(old(rows), channelId, ps)
      ensures published == old(published) + [Adjustments(SkuQuery(old(rows), channelId, Skus(ps)), ps)]
      ensures updateCount == |SkuQuery(old(rows), channelId, Skus(ps))|
    {
      var vs := FindAllVariantsBySku(channelId, Skus(ps));
      var table, adjustments;
      table, adjustments, updateCount := ApplyFreeStock(rows, vs, ps);
      assert adjustments == Adjustments(SkuQuery(old(rows), channelId, Skus(ps)), ps);
      ReconcileDone(rows, channelId, ps);
      OneAdjustmentPerMatchedVariant(rows, channelId, ps);
      rows := table;
      published := published + [adjustments];
    }
  }
}
