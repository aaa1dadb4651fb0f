// Fresh batch ids are names only: posting commutes with renaming them, which is what
// "the same result up to batch ids" means for two reposts.

module Renumbering {
  import opened Sums
  import opened Fifo
  import opened Tables
  import opened Inventory
  import opened Documents
  import opened Replay

  /** Ids from `base` on move up by `k`. */
  function NewId(base: Id, k: nat, id: Id): Id {
    if id < base then id else id + k
  }

  function NewBatch(base: Id, k: nat): Batch -> Batch {
    (b: Batch) => b.(id := NewId(base, k, b.id))
  }

  function NewRow(base: Id, k: nat): Row -> Row {
    (r: Row) => r.(batch := NewId(base, k, r.batch))
  }

  function Renumbered(db: Db, base: Id, k: nat): Db {
    Db(db.docs, Map(db.batches, NewBatch(base, k)), Map(db.rows, NewRow(base, k)), db.nextId + k)
  }

  function RenumberedResult(r: Result<Db>, base: Id, k: nat): Result<Db> {
    match r
    case Ok(db) => Ok(Renumbered(db, base, k))
    case Err(e) => Err(e)
  }

  lemma {:induction false} MapConcat<T, U>(a: seq<T>, b: seq<T>, f: T -> U)
    ensures Map(a + b, f) == Map(a, f) + Map(b, f)
  {
  }

  lemma {:induction false} MapPrefix<T, U>(s: seq<T>, n: nat, f: T -> U)
    requires n <= |s|
    ensures Map(s, f)[..n] == Map(s[..n], f)
  {
  }

  lemma {:induction false} InsertRenumbered(bs: seq<Batch>, b: Batch, f: Batch -> Batch)
    requires forall x :: f(x).createdAt == x.createdAt
    ensures InsertBatch(Map(bs, f), f(b)) == Map(InsertBatch(bs, b), f)
    decreases |bs|
  {
    if bs == [] || CreatedAt()(bs[|bs| - 1]) <= CreatedAt()(b) {
      MapConcat(bs, [b], f);
      assert Map([b], f) == [f(b)];
    } else {
      var n := |bs| - 1;
      InsertRenumbered(bs[..n], b, f);
      MapPrefix(bs, n, f);
      MapConcat(InsertBatch(bs[..n], b), [bs[n]], f);
      assert Map([bs[n]], f) == [f(bs[n])];
    }
  }

  lemma {:induction false} AddStockRenumbered(db: Db, product: Id, q: nat, price: int, source: Source, at: int,
                                              base: Id, k: nat)
    requires db.nextId >= base
    ensures AddStock(Renumbered(db, base, k), product, q, price, source, at)
            == Renumbered(AddStock(db, product, q, price, source, at), base, k)
  {
    InsertRenumbered(db.batches, Batch(db.nextId, product, q, q, price, source, at), NewBatch(base, k));
  }

  lemma {:induction false} ReceiptItemsRenumbered(db: Db, doc: Id, items: seq<Item>, date: int, base: Id, k: nat)
    requires db.nextId >= base
    ensures AddReceiptItems(Renumbered(db, base, k), doc, items, date)
            == Renumbered(AddReceiptItems(db, doc, items, date), base, k)
    ensures AddReceiptItems(db, doc, items, date).nextId >= base
    decreases |items|
  {
    if items != [] {
      var n := |items| - 1;
      ReceiptItemsRenumbered(db, doc, items[..n], date, base, k);
      AddStockRenumbered(AddReceiptItems(db, doc, items[..n], date), items[n].product, items[n].quantity,
                         items[n].price, FromReceipt(doc), date, base, k);
    }
  }

  lemma {:induction false} LastCostRenumbered(bs: seq<Batch>, product: Id, base: Id, k: nat)
    ensures LastCost(Map(bs, NewBatch(base, k)), product) == LastCost(bs, product)
    decreases |bs|
  {
    if bs != [] {
      MapPrefix(bs, |bs| - 1, NewBatch(base, k));
      LastCostRenumbered(bs[..|bs| - 1], product, base, k);
    }
  }

  lemma {:induction false} RestockItemRenumbered(r: Restock, doc: Id, n: nat, item: Item, date: int, base: Id, k: nat)
    requires r.db.nextId >= base
    ensures RestockItem(Restock(Renumbered(r.db, base, k), r.profit), doc, n, item, date)
            == Restock(Renumbered(RestockItem(r, doc, n, item, date).db, base, k),
                       RestockItem(r, doc, n, item, date).profit)
  {
    LastCostRenumbered(r.db.batches, item.product, base, k);
    AddStockRenumbered(r.db, item.product, item.quantity, LastCost(r.db.batches, item.product),
                       FromReturn(doc, n), date, base, k);
  }

  lemma {:induction false} RestockRenumbered(db: Db, doc: Id, items: seq<Item>, date: int, base: Id, k: nat)
    requires db.nextId >= base
    ensures var r, r' := RestockItems(db, doc, items, date), RestockItems(Renumbered(db, base, k), doc, items, date);
            r' == Restock(Renumbered(r.db, base, k), r.profit) && r.db.nextId >= base
    decreases |items|
  {
    if items != [] {
      var n := |items| - 1;
      RestockRenumbered(db, doc, items[..n], date, base, k);
      RestockItemRenumbered(RestockItems(db, doc, items[..n], date), doc, n, items[n], date, base, k);
    }
  }

  lemma {:induction false} TakesRenumbered(bs: seq<Batch>, takes: seq<nat>, base: Id, k: nat)
    requires |takes| == |bs|
    ensures ApplyTakes(Map(bs, NewBatch(base, k)), takes) == Map(ApplyTakes(bs, takes), NewBatch(base, k))
  {
  }

  lemma {:induction false} RowsRenumbered(bs: seq<Batch>, takes: seq<nat>, doc: Id, item: nat, base: Id, k: nat)
    requires |takes| == |bs|
    ensures RowsFor(Map(bs, NewBatch(base, k)), takes, doc, item) == Map(RowsFor(bs, takes, doc, item), NewRow(base, k))
    decreases |bs|
  {
    if bs != [] {
      var n := |bs| - 1;
      RowsRenumbered(bs[..n], takes[..n], doc, item, base, k);
      MapPrefix(bs, n, NewBatch(base, k));
      var last := if takes[n] > 0 then [Row(doc, item, bs[n].id, takes[n], bs[n].price)] else [];
      MapConcat(RowsFor(bs[..n], takes[..n], doc, item), last, NewRow(base, k));
      assert Map(last, NewRow(base, k))
             == if takes[n] > 0 then [Row(doc, item, NewId(base, k, bs[n].id), takes[n], bs[n].price)] else [];
    }
  }

  lemma {:induction false} DeductRenumbered(db: Db, doc: Id, item: nat, product: Id, warehouse: Option<Id>, need: nat,
                                            base: Id, k: nat)
    ensures Deduct(Renumbered(db, base, k), doc, item, product, warehouse, need)
            == RenumberedResult(Deduct(db, doc, item, product, warehouse, need), base, k)
  {
    var caps := Caps(db.docs, db.batches, product, warehouse);
    CapsRenumbered(db.docs, db.batches, product, warehouse, base, k);
    DeductedRenumbered(db, Takes(caps, need), doc, item, base, k);
  }

  lemma {:induction false} DeductedRenumbered(db: Db, takes: seq<nat>, doc: Id, item: nat, base: Id, k: nat)
    requires |takes| == |db.batches|
    ensures var after := db.(batches := ApplyTakes(db.batches, takes),
                             rows := db.rows + RowsFor(db.batches, takes, doc, item));
            var db' := Renumbered(db, base, k);
            Renumbered(after, base, k) == db'.(batches := ApplyTakes(db'.batches, takes),
                                               rows := db'.rows + RowsFor(db'.batches, takes, doc, item))
  {
    TakesRenumbered(db.batches, takes, base, k);
    RowsRenumbered(db.batches, takes, doc, item, base, k);
    MapConcat(db.rows, RowsFor(db.batches, takes, doc, item), NewRow(base, k));
  }

  lemma {:induction false} CapsRenumbered(docs: map<Id, Doc>, bs: seq<Batch>, product: Id, warehouse: Option<Id>,
                                          base: Id, k: nat)
    ensures Caps(docs, Map(bs, NewBatch(base, k)), product, warehouse) == Caps(docs, bs, product, warehouse)
  {
    var bs', cap := Map(bs, NewBatch(base, k)), CapOf(docs, product, warehouse);
    forall i | 0 <= i < |bs|
      ensures cap(bs'[i]) == cap(bs[i])
    {
      assert WarehouseOf(docs, bs'[i]) == WarehouseOf(docs, bs[i]);
    }
  }

  lemma {:induction false} DeductItemsRenumbered(db: Db, doc: Id, warehouse: Option<Id>, items: seq<Item>, base: Id,
                                                 k: nat)
    ensures DeductItems(Renumbered(db, base, k), doc, warehouse, items)
            == RenumberedResult(DeductItems(db, doc, warehouse, items), base, k)
    decreases |items|
  {
    if items != [] {
      var n := |items| - 1;
      DeductItemsRenumbered(db, doc, warehouse, items[..n], base, k);
      var before := DeductItems(db, doc, warehouse, items[..n]);
      if before.Ok? {
        DeductRenumbered(before.value, doc, n, items[n].product, warehouse, items[n].quantity, base, k);
      }
    }
  }

  lemma {:induction false} CostRenumbered(before: Db, after: Db, base: Id, k: nat)
    requires before.rows <= after.rows
    ensures Renumbered(before, base, k).rows <= Renumbered(after, base, k).rows
    ensures Cost(Added(Renumbered(before, base, k), Renumbered(after, base, k))) == Cost(Added(before, after))
  {
    MapPrefix(after.rows, |before.rows|, NewRow(base, k));
    SumSame(Added(Renumbered(before, base, k), Renumbered(after, base, k)), Added(before, after), RowCost(), RowCost());
  }

  lemma {:induction false} PostSaleRenumbered(db: Db, id: Id, base: Id, k: nat)
    requires id in db.docs && db.docs[id].kind.Sale? && !db.docs[id].posted
    ensures PostSale(Renumbered(db, base, k), id) == RenumberedResult(PostSale(db, id), base, k)
  {
    var doc := db.docs[id];
    DeductItemsRenumbered(db, id, doc.warehouse, doc.items, base, k);
    RowsGrow(db, id, doc.warehouse, doc.items);
    var r := DeductItems(db, id, doc.warehouse, doc.items);
    if r.Ok? {
      SalePostedRenumbered(db, r.value, id, base, k);
      PostSaleIs(db, id, r.value);
      PostSaleIs(Renumbered(db, base, k), id, Renumbered(r.value, base, k));
    }
  }

  lemma {:induction false} PostSaleIs(db: Db, id: Id, deducted: Db)
    requires id in db.docs && db.docs[id].kind.Sale? && !db.docs[id].posted && db.rows <= deducted.rows
    requires DeductItems(db, id, db.docs[id].warehouse, db.docs[id].items) == Ok(deducted)
    ensures PostSale(db, id) == Ok(SalePosted(db, deducted, id))
  {
  }

  lemma {:induction false} SalePostedRenumbered(db: Db, deducted: Db, id: Id, base: Id, k: nat)
    requires id in db.docs && db.rows <= deducted.rows
    ensures Renumbered(db, base, k).rows <= Renumbered(deducted, base, k).rows
    ensures SalePosted(Renumbered(db, base, k), Renumbered(deducted, base, k), id)
            == Renumbered(SalePosted(db, deducted, id), base, k)
  {
    CostRenumbered(db, deducted, base, k);
  }

  lemma {:induction false} PostReceiptRenumbered(db: Db, id: Id, base: Id, k: nat)
    requires db.nextId >= base && id in db.docs && db.docs[id].kind.GoodsReceipt? && !db.docs[id].posted
    ensures PostReceipt(Renumbered(db, base, k), id) == RenumberedResult(PostReceipt(db, id), base, k)
    ensures PostReceipt(db, id).value.nextId >= base
  {
    ReceiptItemsRenumbered(db, id, db.docs[id].items, db.docs[id].date, base, k);
  }

  lemma {:induction false} PostReturnRenumbered(db: Db, id: Id, base: Id, k: nat)
    requires db.nextId >= base && id in db.docs && db.docs[id].kind.BuyerReturn? && !db.docs[id].posted
    ensures PostReturn(Renumbered(db, base, k), id) == RenumberedResult(PostReturn(db, id), base, k)
    ensures PostReturn(db, id).value.nextId >= base
  {
    RestockRenumbered(db, id, db.docs[id].items, db.docs[id].date, base, k);
  }

  lemma {:induction false} PostSupplierReturnRenumbered(db: Db, id: Id, base: Id, k: nat)
    requires id in db.docs && db.docs[id].kind.SupplierReturn? && !db.docs[id].posted
    ensures PostSupplierReturn(Renumbered(db, base, k), id) == RenumberedResult(PostSupplierReturn(db, id), base, k)
  {
    DeductItemsRenumbered(db, id, db.docs[id].warehouse, db.docs[id].items, base, k);
  }

  /** Posting commutes with renaming the ids still to be given out. */
  lemma {:induction false} PostDocRenumbered(db: Db, id: Id, base: Id, k: nat)
    requires db.nextId >= base
    ensures PostDoc(Renumbered(db, base, k), id) == RenumberedResult(PostDoc(db, id), base, k)
    ensures PostDoc(db, id).Ok? ==> PostDoc(db, id).value.nextId >= base
  {
    if id in db.docs && !db.docs[id].posted {
      match db.docs[id].kind {
        case GoodsReceipt => PostReceiptRenumbered(db, id, base, k);
        case BuyerReturn => PostReturnRenumbered(db, id, base, k);
        case Sale => PostSaleRenumbered(db, id, base, k);
        case SupplierReturn => PostSupplierReturnRenumbered(db, id, base, k);
      }
    }
  }

  lemma {:induction false} PostAllRenumbered(db: Db, ids: seq<Id>, base: Id, k: nat)
    requires db.nextId >= base
    ensures PostAll(Renumbered(db, base, k), ids) == RenumberedResult(PostAll(db, ids), base, k)
    ensures PostAll(db, ids).Ok? ==> PostAll(db, ids).value.nextId >= base
    decreases |ids|
  {
    if ids != [] {
      PostAllRenumbered(db, ids[..|ids| - 1], base, k);
      var before := PostAll(db, ids[..|ids| - 1]);
      if before.Ok? {
        PostDocRenumbered(before.value, ids[|ids| - 1], base, k);
      }
    }
  }
}
