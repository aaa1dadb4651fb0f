// What entering, editing and deleting documents does: the headers and items a request
// leaves, and, when a posted receipt is edited, the stock it leaves and where.

module Edits {
  import opened Sums
  import opened Tables
  import opened Inventory
  import opened Documents
  import opened Conservation
  import opened Runs
  import H = History
  import O = OnHand

  // ---- what was sold of a group does not move

  /** Editing one product does not change what was sold of another. */
  lemma {:induction false} SoldElsewhere(db: Db, id: Id, p: Id, items: seq<Item>, q: Id)
    requires DistinctIds(db.batches) && q != p && EditProduct(db, id, p, items).Ok?
    ensures Sold(EditProduct(db, id, p, items).value.batches, id, q) == Sold(db.batches, id, q)
  {
    var sold, total := Sold(db.batches, id, p), Demand(items, p);
    if total == 0 && sold == 0 {
      SoldAfterDelete(db.batches, id, p, q);
    } else if total > 0 {
      SoldAfterResize(db.batches, id, p, total, total - sold, FirstPrice(items, p), q);
    }
  }

  lemma {:induction false} SoldAfterDelete(bs: seq<Batch>, id: Id, p: Id, q: Id)
    requires DistinctIds(bs) && q != p
    ensures Sold(Filter(bs, Survives(OfGroup(bs, id, p))), id, q) == Sold(bs, id, q)
  {
    OneIdOneBatch(bs);
    SumFilter(bs, Survives(OfGroup(bs, id, p)), SoldOf(id, q), SoldOf(id, q));
  }

  lemma {:induction false} SoldAfterResize(bs: seq<Batch>, id: Id, p: Id, total: int, left: int, price: int, q: Id)
    requires q != p
    ensures Sold(Resize(bs, id, p, total, left, price), id, q) == Sold(bs, id, q)
  {
    ResizeShape(bs, id, p, total, left, price);
    SumSame(Resize(bs, id, p, total, left, price), bs, SoldOf(id, q), SoldOf(id, q));
  }

  /** Nor what was sold of the product itself. */
  lemma {:induction false} SoldHere(db: Db, id: Id, p: Id, items: seq<Item>)
    requires EditProduct(db, id, p, items).Ok? && O.HasGroup(db.batches, id, p)
    ensures Sold(EditProduct(db, id, p, items).value.batches, id, p) == Sold(db.batches, id, p)
  {
    var sold, total := Sold(db.batches, id, p), Demand(items, p);
    if total == 0 && sold == 0 {
      SumZero(EditProduct(db, id, p, items).value.batches, SoldOf(id, p));
    } else if total > 0 {
      ResizeSold(db.batches, id, p, total, total - sold, FirstPrice(items, p));
    }
  }

  lemma {:induction false} EditProductsSold(db: Db, id: Id, products: seq<Id>, items: seq<Item>, k: nat, q: Id)
    requires Sound(db.batches, db.rows, db.nextId) && Conserved(db.batches, db.rows)
    requires NoRepeats(products) && O.PresentFrom(db.batches, id, products, 0) && k <= |products|
    requires EditProducts(db, id, products[..k], items).Ok?
    ensures Sold(EditProducts(db, id, products[..k], items).value.batches, id, q) == Sold(db.batches, id, q)
    decreases k
  {
    if k > 0 {
      assert products[..k][..k - 1] == products[..k - 1];
      var mid := EditProducts(db, id, products[..k - 1], items).value;
      EditProductsSold(db, id, products, items, k - 1, q);
      O.EditProductsBrought(db, id, products, items, k - 1);
      if q == products[k - 1] {
        SoldHere(mid, id, q, items);
      } else {
        SoldElsewhere(mid, id, products[k - 1], items, q);
      }
    }
  }

  lemma {:induction false} NewProductsSold(db: Db, id: Id, products: seq<Id>, known: seq<Id>, items: seq<Item>,
                                           date: int, q: Id)
    ensures Sold(AddNewProducts(db, id, products, known, items, date).batches, id, q) == Sold(db.batches, id, q)
    decreases |products|
  {
    if products != [] {
      var n := |products| - 1;
      var p, before := products[n], AddNewProducts(db, id, products[..n], known, items, date);
      NewProductsSold(db, id, products[..n], known, items, date, q);
      if p !in known {
        var total := Demand(items, p);
        SumInsert(before.batches, Batch(before.nextId, p, total, total, FirstPrice(items, p), FromReceipt(id), date),
                  CreatedAt(), SoldOf(id, q));
      }
    }
  }

  lemma {:induction false} KnownPresent(bs: seq<Batch>, id: Id)
    ensures O.PresentFrom(bs, id, BatchProducts(bs, id), 0) && NoRepeats(BatchProducts(bs, id))
  {
    var known := BatchProducts(bs, id);
    H.BatchProductsOnce(bs, id);
    forall j | 0 <= j < |known|
      ensures O.HasGroup(bs, id, known[j])
    {
      assert known[j] in known;
    }
  }

  lemma {:induction false} EditStockSold(db: Db, id: Id, items: seq<Item>, date: int, q: Id)
    requires Sound(db.batches, db.rows, db.nextId) && Conserved(db.batches, db.rows)
    requires EditStock(db, id, items, date).Ok?
    ensures Sold(EditStock(db, id, items, date).value.batches, id, q) == Sold(db.batches, id, q)
  {
    var known := BatchProducts(db.batches, id);
    KnownPresent(db.batches, id);
    assert known[..|known|] == known;
    EditProductsSold(db, id, known, items, |known|, q);
    NewProductsSold(EditProducts(db, id, known, items).value, id, ItemProducts(items), known, items, date, q);
  }

  // ---- stock of others does not move

  /** `f` looks at no batch of the receipt. */
  ghost predicate Blind(f: Batch -> int, id: Id) {
    forall b: Batch :: b.source == FromReceipt(id) ==> f(b) == 0
  }

  lemma {:induction false} EditProductBeside(db: Db, id: Id, p: Id, items: seq<Item>, f: Batch -> int)
    requires DistinctIds(db.batches) && EditProduct(db, id, p, items).Ok? && Blind(f, id)
    ensures Sum(EditProduct(db, id, p, items).value.batches, f) == Sum(db.batches, f)
  {
    var sold, total := Sold(db.batches, id, p), Demand(items, p);
    if total == 0 && sold == 0 {
      OneIdOneBatch(db.batches);
      SumFilter(db.batches, Survives(OfGroup(db.batches, id, p)), f, f);
    } else if total > 0 {
      ResizeBeside(db.batches, id, p, total, total - sold, FirstPrice(items, p), f);
    }
  }

  lemma {:induction false} ResizeBeside(bs: seq<Batch>, id: Id, p: Id, total: int, left: int, price: int,
                                        f: Batch -> int)
    requires Blind(f, id)
    ensures Sum(Resize(bs, id, p, total, left, price), f) == Sum(bs, f)
  {
    ResizeShape(bs, id, p, total, left, price);
    SumSame(Resize(bs, id, p, total, left, price), bs, f, f);
  }

  lemma {:induction false} EditProductsBeside(db: Db, id: Id, products: seq<Id>, items: seq<Item>, f: Batch -> int)
    requires Sound(db.batches, db.rows, db.nextId) && Conserved(db.batches, db.rows)
    requires EditProducts(db, id, products, items).Ok? && Blind(f, id)
    ensures Sum(EditProducts(db, id, products, items).value.batches, f) == Sum(db.batches, f)
    decreases |products|
  {
    if products != [] {
      var n := |products| - 1;
      EditProductsBeside(db, id, products[..n], items, f);
      EditProductsKeeps(db, id, products[..n], items);
      EditProductBeside(EditProducts(db, id, products[..n], items).value, id, products[n], items, f);
    }
  }

  lemma {:induction false} NewProductsBeside(db: Db, id: Id, products: seq<Id>, known: seq<Id>, items: seq<Item>,
                                             date: int, f: Batch -> int)
    requires Blind(f, id)
    ensures Sum(AddNewProducts(db, id, products, known, items, date).batches, f) == Sum(db.batches, f)
    decreases |products|
  {
    if products != [] {
      var n := |products| - 1;
      var p, before := products[n], AddNewProducts(db, id, products[..n], known, items, date);
      NewProductsBeside(db, id, products[..n], known, items, date, f);
      if p !in known {
        var total := Demand(items, p);
        SumInsert(before.batches, Batch(before.nextId, p, total, total, FirstPrice(items, p), FromReceipt(id), date),
                  CreatedAt(), f);
      }
    }
  }

  lemma {:induction false} EditStockBeside(db: Db, id: Id, items: seq<Item>, date: int, f: Batch -> int)
    requires Sound(db.batches, db.rows, db.nextId) && Conserved(db.batches, db.rows)
    requires EditStock(db, id, items, date).Ok? && Blind(f, id)
    ensures Sum(EditStock(db, id, items, date).value.batches, f) == Sum(db.batches, f)
  {
    var known := BatchProducts(db.batches, id);
    EditProductsBeside(db, id, known, items, f);
    NewProductsBeside(EditProducts(db, id, known, items).value, id, ItemProducts(items), known, items, date, f);
  }

  // ---- what can be deducted after the edit

  function BesideOf(docs: map<Id, Doc>, id: Id, p: Id, w: Id): Batch -> int {
    (b: Batch) => if b.source == FromReceipt(id) then 0 else CapOf(docs, p, Some(w))(b)
  }

  /** What a warehouse holds of a product in batches of other documents. */
  function Beside(docs: map<Id, Doc>, bs: seq<Batch>, id: Id, p: Id, w: Id): int {
    Sum(bs, BesideOf(docs, id, p, w))
  }

  function LeftInOf(id: Id, p: Id): Batch -> int {
    (b: Batch) => if InGroup(b, id, p) then b.left else 0
  }

  lemma {:induction false} AvailableSplits(docs: map<Id, Doc>, bs: seq<Batch>, id: Id, p: Id, w: Id)
    requires id in docs && docs[id].kind.GoodsReceipt? && forall b :: b in bs ==> b.left >= 0
    ensures Available(docs, bs, p, Some(w))
            == Beside(docs, bs, id, p, w) + if docs[id].warehouse == Some(w) then Sum(bs, LeftInOf(id, p)) else 0
  {
    if docs[id].warehouse == Some(w) {
      SumPlus(bs, BesideOf(docs, id, p, w), LeftInOf(id, p), CapOf(docs, p, Some(w)));
    } else {
      SumSame(bs, bs, CapOf(docs, p, Some(w)), BesideOf(docs, id, p, w));
    }
  }

  lemma {:induction false} LeftIsBroughtLessSold(bs: seq<Batch>, id: Id, p: Id)
    ensures Sum(bs, LeftInOf(id, p)) == O.Brought(bs, FromReceipt(id), p) - Sold(bs, id, p)
  {
    SumPlus(bs, LeftInOf(id, p), SoldOf(id, p), O.BroughtOf(FromReceipt(id), p));
  }

  lemma {:induction false} EditStockAvailable(db: Db, id: Id, items: seq<Item>, date: int, p: Id, w: Id)
    requires Sound(db.batches, db.rows, db.nextId) && Conserved(db.batches, db.rows)
    requires id in db.docs && db.docs[id].kind.GoodsReceipt? && EditStock(db, id, items, date).Ok?
    requires var db' := EditStock(db, id, items, date).value;
             db'.docs == db.docs && forall b :: b in db'.batches ==> b.left >= 0
    ensures Available(db.docs, EditStock(db, id, items, date).value.batches, p, Some(w))
            == Beside(db.docs, db.batches, id, p, w)
               + if db.docs[id].warehouse == Some(w) then Demand(items, p) - Sold(db.batches, id, p) else 0
  {
    var bs' := EditStock(db, id, items, date).value.batches;
    AvailableSplits(db.docs, bs', id, p, w);
    EditStockBeside(db, id, items, date, BesideOf(db.docs, id, p, w));
    LeftIsBroughtLessSold(bs', id, p);
    O.EditStockBrought(db, id, items, date, FromReceipt(id), p);
    EditStockSold(db, id, items, date, p);
  }

  /** The header an edit of a receipt leaves. */
  ghost predicate Rewritten(before: Doc, patch: Patch, after: Doc) {
    && patch.date == Some(after.date) && after.warehouse == patch.warehouse
    && (match patch.items case Some(items) => after.items == items case None => after.items == [])
    && after.amount == Sum(after.items, (i: Item) => i.total)
    && after.kind == before.kind && after.created == before.created && after.profit == before.profit
    && after.posted == before.posted && after.deleted == before.deleted
  }

  /** Editing a posted receipt: its header is the request's, no other document changes, and
      every warehouse can then deduct of every product what other documents' batches give it
      and, if it is the requested warehouse, what the request wants of the product less what
      was sold from the receipt. */
  lemma {:induction false} EditMoves(db: Db, id: Id, patch: Patch)
    requires Ledger(db) && IsPosted(db.docs, id) && UpdateReceipt(db, id, patch).Ok?
    ensures var db' := UpdateReceipt(db, id, patch).value;
            && db'.docs.Keys == db.docs.Keys && Rewritten(db.docs[id], patch, db'.docs[id])
            && (forall d :: d in db.docs && d != id ==> db'.docs[d] == db.docs[d])
            && forall p: Id, w: Id ::
                 Available(db'.docs, db'.batches, p, Some(w))
                 == Beside(db.docs, db.batches, id, p, w)
                    + if patch.warehouse == Some(w) then Demand(db'.docs[id].items, p) - Sold(db.batches, id, p) else 0
  {
    var items := Or(patch.items, []);
    var edited := db.docs[id].(date := patch.date.value, warehouse := patch.warehouse, items := items,
                               amount := ItemsTotal(items));
    var renamed := db.(docs := db.docs[id := edited]);
    var db' := UpdateReceipt(db, id, patch).value;
    UpdateReceiptKeeps(db, id, patch);
    EditedDocs(renamed, id, items, patch.date.value);
    SumSame(items, items, ItemTotal(), (i: Item) => i.total);
    forall p: Id, w: Id
      ensures Available(db'.docs, db'.batches, p, Some(w))
              == Beside(db.docs, db.batches, id, p, w)
                 + if patch.warehouse == Some(w) then Demand(items, p) - Sold(db.batches, id, p) else 0
    {
      EditStockAvailable(renamed, id, items, patch.date.value, p, w);
      BesideSame(db.docs, renamed.docs, db.batches, id, p, w);
    }
  }

  lemma {:induction false} BesideSame(docs: map<Id, Doc>, docs': map<Id, Doc>, bs: seq<Batch>, id: Id, p: Id, w: Id)
    requires docs'.Keys == docs.Keys && forall d :: d in docs && d != id ==> docs'[d] == docs[d]
    requires id in docs && docs[id].kind.GoodsReceipt? && docs'[id].kind.GoodsReceipt?
    ensures Beside(docs', bs, id, p, w) == Beside(docs, bs, id, p, w)
  {
    forall i | 0 <= i < |bs|
      ensures BesideOf(docs', id, p, w)(bs[i]) == BesideOf(docs, id, p, w)(bs[i])
    {
      if bs[i].source != FromReceipt(id) {
        assert WarehouseOf(docs', bs[i]) == WarehouseOf(docs, bs[i]);
        assert CapOf(docs', p, Some(w))(bs[i]) == CapOf(docs, p, Some(w))(bs[i]);
      }
    }
    SumSame(bs, bs, BesideOf(docs', id, p, w), BesideOf(docs, id, p, w));
  }

  lemma {:induction false} EditedDocs(db: Db, id: Id, items: seq<Item>, date: int)
    requires Sound(db.batches, db.rows, db.nextId) && Conserved(db.batches, db.rows)
    requires EditStock(db, id, items, date).Ok?
    ensures EditStock(db, id, items, date).value.docs == db.docs
  {
    EditProductsKeeps(db, id, BatchProducts(db.batches, id), items);
  }

  /** Editing a receipt that is not posted rewrites its header and moves no stock. */
  lemma {:induction false} DraftRewritten(db: Db, id: Id, patch: Patch)
    requires UpdateReceipt(db, id, patch).Ok? && !IsPosted(db.docs, id)
    ensures var db' := UpdateReceipt(db, id, patch).value;
            && db'.docs.Keys == db.docs.Keys && Rewritten(db.docs[id], patch, db'.docs[id])
            && (forall d :: d in db.docs && d != id ==> db'.docs[d] == db.docs[d])
            && db'.batches == db.batches && db'.rows == db.rows && db'.nextId == db.nextId
  {
    var items := Or(patch.items, []);
    SumSame(items, items, ItemTotal(), (i: Item) => i.total);
  }

  // ---- when an edit of a posted receipt is accepted

  /** No product is wanted below what was sold of it. */
  ghost predicate CoversSold(db: Db, id: Id, items: seq<Item>) {
    forall p :: Demand(items, p) >= Sold(db.batches, id, p)
  }

  lemma {:induction false} EditProductsAccepted(db: Db, id: Id, products: seq<Id>, items: seq<Item>, k: nat)
    requires Sound(db.batches, db.rows, db.nextId) && Conserved(db.batches, db.rows)
    requires NoRepeats(products) && O.PresentFrom(db.batches, id, products, 0) && k <= |products|
    ensures EditProducts(db, id, products[..k], items).Ok?
            <==> forall m :: 0 <= m < k ==> Demand(items, products[m]) >= Sold(db.batches, id, products[m])
    ensures EditProducts(db, id, products[..k], items).Err? ==>
              exists m :: 0 <= m < k && Demand(items, products[m]) < Sold(db.batches, id, products[m])
                          && EditProducts(db, id, products[..k], items).error
                             == BelowSold(products[m], Sold(db.batches, id, products[m]))
    decreases k
  {
    if k > 0 {
      assert products[..k][..k - 1] == products[..k - 1];
      EditProductsAccepted(db, id, products, items, k - 1);
      if EditProducts(db, id, products[..k - 1], items).Ok? {
        EditProductsSold(db, id, products, items, k - 1, products[k - 1]);
        EditProductAccepted(EditProducts(db, id, products[..k - 1], items).value, id, products[k - 1], items);
      }
    }
  }

  lemma {:induction false} EditProductAccepted(db: Db, id: Id, p: Id, items: seq<Item>)
    ensures EditProduct(db, id, p, items).Ok? <==> Demand(items, p) >= Sold(db.batches, id, p)
    ensures EditProduct(db, id, p, items).Err? ==>
              EditProduct(db, id, p, items).error == BelowSold(p, Sold(db.batches, id, p))
  {
  }

  lemma {:induction false} EditStockAccepted(db: Db, id: Id, items: seq<Item>, date: int)
    requires Sound(db.batches, db.rows, db.nextId) && Conserved(db.batches, db.rows)
    ensures EditStock(db, id, items, date).Ok? <==> CoversSold(db, id, items)
    ensures EditStock(db, id, items, date).Err? ==>
              exists p :: Demand(items, p) < Sold(db.batches, id, p)
                          && EditStock(db, id, items, date).error == BelowSold(p, Sold(db.batches, id, p))
  {
    var known := BatchProducts(db.batches, id);
    KnownPresent(db.batches, id);
    assert known[..|known|] == known;
    EditProductsAccepted(db, id, known, items, |known|);
    if forall m :: 0 <= m < |known| ==> Demand(items, known[m]) >= Sold(db.batches, id, known[m]) {
      forall p
        ensures Demand(items, p) >= Sold(db.batches, id, p)
      {
        if p in known {
          var m :| 0 <= m < |known| && known[m] == p;
        } else {
          SumZero(db.batches, SoldOf(id, p));
        }
      }
    }
  }

  /** A posted receipt's edit is accepted exactly when it has a date and wants of each product at
      least what was sold of it; otherwise the error names a product wanted below that, with
      what was sold of it. */
  lemma {:induction false} EditAccepted(db: Db, id: Id, patch: Patch)
    requires Ledger(db) && IsPosted(db.docs, id) && db.docs[id].kind.GoodsReceipt?
    ensures UpdateReceipt(db, id, patch).Ok? <==> patch.date.Some? && CoversSold(db, id, Or(patch.items, []))
    ensures patch.date.Some? && UpdateReceipt(db, id, patch).Err? ==>
              exists p :: Demand(Or(patch.items, []), p) < Sold(db.batches, id, p)
                          && UpdateReceipt(db, id, patch).error == BelowSold(p, Sold(db.batches, id, p))
  {
    if patch.date.Some? {
      var items := Or(patch.items, []);
      var edited := db.docs[id].(date := patch.date.value, warehouse := patch.warehouse, items := items,
                                 amount := ItemsTotal(items));
      EditStockAccepted(db.(docs := db.docs[id := edited]), id, items, patch.date.value);
    }
  }

  // ---- the batches the edit leaves

  /** The price of the first item of a product. */
  ghost predicate FirstPriced(items: seq<Item>, p: Id, c: int) {
    exists k :: 0 <= k < |items| && items[k].product == p && items[k].price == c
                && forall m :: 0 <= m < k ==> items[m].product != p
  }

  lemma {:induction false} FirstPriceIs(items: seq<Item>, p: Id)
    requires exists i :: i in items && i.product == p
    ensures FirstPriced(items, p, FirstPrice(items, p))
    decreases |items|
  {
    if items[0].product == p {
      assert items[0].price == FirstPrice(items, p);
    } else {
      var rest := items[1..];
      var i :| i in items && i.product == p;
      assert i in rest;
      FirstPriceIs(rest, p);
      var k :| 0 <= k < |rest| && rest[k].product == p && rest[k].price == FirstPrice(rest, p)
               && forall m :: 0 <= m < k ==> rest[m].product != p;
      assert items[k + 1] == rest[k];
      forall m | 0 <= m < k + 1
        ensures items[m].product != p
      {
        assert m > 0 ==> items[m] == rest[m - 1];
      }
    }
  }

  lemma {:induction false} WantedIsMentioned(items: seq<Item>, p: Id)
    requires Demand(items, p) > 0
    ensures exists i :: i in items && i.product == p
  {
    if !(exists i :: i in items && i.product == p) {
      SumZero(items, DemandOf(p));
    }
  }

  /** One batch of the receipt holds all of a product the request wants, at the price of its
      first item, less what was sold; its other batches of the product are empty. */
  ghost predicate Consolidated(bs: seq<Batch>, id: Id, p: Id, items: seq<Item>, sold: int) {
    if Demand(items, p) > 0 then exists b :: b in bs && Holds(bs, id, p, items, sold, b)
    else forall c :: c in bs && InGroup(c, id, p) ==> c.total == c.left == 0
  }

  ghost predicate Holds(bs: seq<Batch>, id: Id, p: Id, items: seq<Item>, sold: int, b: Batch) {
    && InGroup(b, id, p) && b.total == Demand(items, p) && b.left == b.total - sold && FirstPriced(items, p, b.price)
    && forall c :: c in bs && InGroup(c, id, p) && c != b ==> c.total == c.left == 0
  }

  lemma {:induction false} ResizeConsolidates(bs: seq<Batch>, id: Id, p: Id, items: seq<Item>, sold: int, left: int)
    requires O.HasGroup(bs, id, p) && Demand(items, p) > 0 && left == Demand(items, p) - sold
    ensures Consolidated(Resize(bs, id, p, Demand(items, p), left, FirstPrice(items, p)), id, p, items, sold)
  {
    var bs' := Resize(bs, id, p, Demand(items, p), left, FirstPrice(items, p));
    WantedIsMentioned(items, p);
    FirstPriceIs(items, p);
    var k := H.FirstOf(bs, id, p);
    H.ResizeAt(bs, id, p, Demand(items, p), left, FirstPrice(items, p), k);
    var b := bs'[k];
    forall c | c in bs' && InGroup(c, id, p) && c != b
      ensures c.total == c.left == 0
    {
      var i :| 0 <= i < |bs'| && bs'[i] == c;
      ResizeShape(bs, id, p, Demand(items, p), left, FirstPrice(items, p));
    }
    assert Holds(bs', id, p, items, sold, b);
  }

  lemma {:induction false} EditConsolidates(db: Db, id: Id, p: Id, items: seq<Item>)
    requires Sound(db.batches, db.rows, db.nextId) && Conserved(db.batches, db.rows)
    requires EditProduct(db, id, p, items).Ok? && O.HasGroup(db.batches, id, p)
    ensures Consolidated(EditProduct(db, id, p, items).value.batches, id, p, items, Sold(db.batches, id, p))
  {
    var sold, total := Sold(db.batches, id, p), Demand(items, p);
    O.SoldNonNegative(db, id, p);
    if total > 0 {
      ResizeConsolidates(db.batches, id, p, items, sold, total - sold);
    } else {
      assert sold == 0;
    }
  }

  lemma {:induction false} SameGroupConsolidated(bs: seq<Batch>, bs': seq<Batch>, id: Id, p: Id, items: seq<Item>,
                                                 sold: int)
    requires Consolidated(bs, id, p, items, sold) && forall b :: InGroup(b, id, p) ==> (b in bs' <==> b in bs)
    ensures Consolidated(bs', id, p, items, sold)
  {
    if Demand(items, p) > 0 {
      var b :| b in bs && Holds(bs, id, p, items, sold, b);
      assert Holds(bs', id, p, items, sold, b);
    }
  }

  /** Before a product's turn its group is as it was, afterwards it is consolidated. */
  ghost predicate TurnOf(db: Db, id: Id, products: seq<Id>, items: seq<Item>, k: nat, m: nat, sold: int)
    requires m < |products|
  {
    && Sound(db.batches, db.rows, db.nextId) && Conserved(db.batches, db.rows)
    && Sold(db.batches, id, products[m]) == sold
    && if k <= m then O.HasGroup(db.batches, id, products[m])
       else Consolidated(db.batches, id, products[m], items, sold)
  }

  lemma {:induction false} OneTurn(db: Db, id: Id, products: seq<Id>, items: seq<Item>, k: nat, m: nat, sold: int)
    requires m < |products| && k < |products| && NoRepeats(products) && TurnOf(db, id, products, items, k, m, sold)
    requires EditProduct(db, id, products[k], items).Ok?
    ensures TurnOf(EditProduct(db, id, products[k], items).value, id, products, items, k + 1, m, sold)
  {
    var q, db' := products[m], EditProduct(db, id, products[k], items).value;
    EditProductKeeps(db, id, products[k], items);
    if k == m {
      EditConsolidates(db, id, q, items);
      SoldHere(db, id, q, items);
    } else {
      SoldElsewhere(db, id, products[k], items, q);
      if k < m {
        O.EditProductPresent(db, id, products[k], items, q);
      } else {
        H.EditProductGroup(db, id, products[k], items, q);
        SameGroupConsolidated(db.batches, db'.batches, id, q, items, sold);
      }
    }
  }

  lemma {:induction false} AllTurns(db: Db, id: Id, products: seq<Id>, items: seq<Item>, k: nat, m: nat, sold: int)
    requires m < |products| && k <= |products| && NoRepeats(products) && TurnOf(db, id, products, items, 0, m, sold)
    requires EditProducts(db, id, products[..k], items).Ok?
    ensures TurnOf(EditProducts(db, id, products[..k], items).value, id, products, items, k, m, sold)
    decreases k
  {
    if k > 0 {
      assert products[..k][..k - 1] == products[..k - 1];
      AllTurns(db, id, products, items, k - 1, m, sold);
      OneTurn(EditProducts(db, id, products[..k - 1], items).value, id, products, items, k - 1, m, sold);
    }
  }

  lemma {:induction false} NoGroupStays(db: Db, id: Id, products: seq<Id>, items: seq<Item>, q: Id)
    requires Sound(db.batches, db.rows, db.nextId) && Conserved(db.batches, db.rows)
    requires EditProducts(db, id, products, items).Ok? && q !in products
    ensures O.HasGroup(EditProducts(db, id, products, items).value.batches, id, q) ==> O.HasGroup(db.batches, id, q)
    decreases |products|
  {
    if products != [] {
      var n := |products| - 1;
      NoGroupStays(db, id, products[..n], items, q);
      EditProductsKeeps(db, id, products[..n], items);
      H.EditProductGroup(EditProducts(db, id, products[..n], items).value, id, products[n], items, q);
    }
  }

  /** The receipt's batches of the product are those it had. */
  ghost predicate GroupStays(bs: seq<Batch>, bs': seq<Batch>, id: Id, q: Id) {
    forall c :: InGroup(c, id, q) ==> (c in bs' <==> c in bs)
  }

  /** The receipt's batches of the product are those it had and `b`. */
  ghost predicate GroupGains(bs: seq<Batch>, bs': seq<Batch>, id: Id, q: Id, b: Batch) {
    && b in bs'
    && forall c :: InGroup(c, id, q) ==> (c in bs' <==> c in bs || c == b)
  }

  /** A batch that holds all the request wants of the product, unsold. */
  predicate Fresh(b: Batch, id: Id, q: Id, items: seq<Item>) {
    && InGroup(b, id, q) && b.price == FirstPrice(items, q)
    && b.total == Demand(items, q) && b.left == Demand(items, q)
  }

  lemma {:induction false} InsertGroup(bs: seq<Batch>, bs': seq<Batch>, b: Batch, id: Id, q: Id)
    ensures InGroup(b, id, q) && GroupStays(bs, bs', id, q) ==> GroupGains(bs, InsertBatch(bs', b), id, q, b)
    ensures !InGroup(b, id, q) && GroupStays(bs, bs', id, q) ==> GroupStays(bs, InsertBatch(bs', b), id, q)
    ensures forall x :: !InGroup(b, id, q) && GroupGains(bs, bs', id, q, x) ==>
              GroupGains(bs, InsertBatch(bs', b), id, q, x)
  {
    InsertMembers(bs', b, CreatedAt());
  }

  /** Which batches of a product the receipt has once the new products are added. */
  lemma {:induction false} NewProductsGroup(db: Db, id: Id, products: seq<Id>, known: seq<Id>, items: seq<Item>,
                                            date: int, q: Id)
    requires NoRepeats(products)
    ensures var bs' := AddNewProducts(db, id, products, known, items, date).batches;
            if q in products && q !in known
            then exists b :: Fresh(b, id, q, items) && GroupGains(db.batches, bs', id, q, b)
            else GroupStays(db.batches, bs', id, q)
    decreases |products|
  {
    if products != [] {
      var n := |products| - 1;
      var p, before := products[n], AddNewProducts(db, id, products[..n], known, items, date);
      NewProductsGroup(db, id, products[..n], known, items, date, q);
      assert products == products[..n] + [p];
      if p !in known {
        var total := Demand(items, p);
        var b := Batch(before.nextId, p, total, total, FirstPrice(items, p), FromReceipt(id), date);
        InsertGroup(db.batches, before.batches, b, id, q);
        assert p == q ==> Fresh(b, id, q, items);
      }
    }
  }

  lemma {:induction false} NewConsolidated(db: Db, id: Id, items: seq<Item>, known: seq<Id>, date: int, q: Id)
    requires q !in known && !O.HasGroup(db.batches, id, q)
    ensures Consolidated(AddNewProducts(db, id, ItemProducts(items), known, items, date).batches, id, q, items, 0)
  {
    O.ItemProductsOnce(items);
    NewProductsGroup(db, id, ItemProducts(items), known, items, date, q);
    var bs' := AddNewProducts(db, id, ItemProducts(items), known, items, date).batches;
    if q in ItemProducts(items) {
      var b :| Fresh(b, id, q, items) && GroupGains(db.batches, bs', id, q, b);
      FirstPriceIs(items, q);
      if Demand(items, q) > 0 {
        assert Holds(bs', id, q, items, 0, b);
      }
    } else {
      O.NoDemand(items, q);
    }
  }

  /** After an accepted edit of a posted receipt, whatever it held before and however often it
      was edited: of each product one batch holds all that the request wants, at the price of
      the product's first item, with what was sold already taken off; its other batches of
      the product are empty. */
  lemma {:induction false} EditConsolidatesAll(db: Db, id: Id, patch: Patch, q: Id)
    requires Ledger(db) && IsPosted(db.docs, id) && UpdateReceipt(db, id, patch).Ok?
    ensures var items := Or(patch.items, []);
            Consolidated(UpdateReceipt(db, id, patch).value.batches, id, q, items, Sold(db.batches, id, q))
  {
    var items := Or(patch.items, []);
    var edited := db.docs[id].(date := patch.date.value, warehouse := patch.warehouse, items := items,
                               amount := ItemsTotal(items));
    EditStockConsolidates(db.(docs := db.docs[id := edited]), id, items, patch.date.value, q);
  }

  lemma {:induction false} EditStockConsolidates(db: Db, id: Id, items: seq<Item>, date: int, q: Id)
    requires Sound(db.batches, db.rows, db.nextId) && Conserved(db.batches, db.rows)
    requires EditStock(db, id, items, date).Ok?
    ensures Consolidated(EditStock(db, id, items, date).value.batches, id, q, items, Sold(db.batches, id, q))
  {
    var known := BatchProducts(db.batches, id);
    var resized := EditProducts(db, id, known, items).value;
    KnownPresent(db.batches, id);
    assert known[..|known|] == known;
    if q in known {
      var m :| 0 <= m < |known| && known[m] == q;
      AllTurns(db, id, known, items, |known|, m, Sold(db.batches, id, q));
      O.ItemProductsOnce(items);
      NewProductsGroup(resized, id, ItemProducts(items), known, items, date, q);
      SameGroupConsolidated(resized.batches, EditStock(db, id, items, date).value.batches, id, q, items,
                            Sold(db.batches, id, q));
    } else {
      NoGroupStays(db, id, known, items, q);
      SumZero(db.batches, SoldOf(id, q));
      NewConsolidated(resized, id, items, known, date, q);
    }
  }

  /** A batch that was there, with its place in the FIFO order, or a new one of the receipt
      dated as requested. */
  ghost predicate KeptOrNew(db: Db, id: Id, date: int, b: Batch) {
    || (exists a :: a in db.batches && SameSlot(a, b))
    || (b.source == FromReceipt(id) && b.createdAt == date)
  }

  lemma {:induction false} NewProductsDates(db: Db, id: Id, products: seq<Id>, known: seq<Id>, items: seq<Item>,
                                            date: int)
    ensures forall b :: b in AddNewProducts(db, id, products, known, items, date).batches ==>
              b in db.batches || (b.source == FromReceipt(id) && b.createdAt == date)
    decreases |products|
  {
    if products != [] {
      var n := |products| - 1;
      var p, before := products[n], AddNewProducts(db, id, products[..n], known, items, date);
      NewProductsDates(db, id, products[..n], known, items, date);
      if p !in known {
        var total := Demand(items, p);
        InsertMembers(before.batches,
                      Batch(before.nextId, p, total, total, FirstPrice(items, p), FromReceipt(id), date), CreatedAt());
      }
    }
  }

  lemma {:induction false} EditStockDates(db: Db, id: Id, items: seq<Item>, date: int)
    requires Sound(db.batches, db.rows, db.nextId) && Conserved(db.batches, db.rows)
    requires EditStock(db, id, items, date).Ok?
    ensures forall b :: b in EditStock(db, id, items, date).value.batches ==> KeptOrNew(db, id, date, b)
  {
    var known := BatchProducts(db.batches, id);
    EditProductsKeeps(db, id, known, items);
    NewProductsDates(EditProducts(db, id, known, items).value, id, ItemProducts(items), known, items, date);
  }

  /** An edit moves no batch in the FIFO order: those the receipt keeps keep the date they were
      posted with, and only batches of new products carry the requested date. */
  lemma {:induction false} EditDates(db: Db, id: Id, patch: Patch)
    requires Ledger(db) && IsPosted(db.docs, id) && UpdateReceipt(db, id, patch).Ok?
    ensures forall b :: b in UpdateReceipt(db, id, patch).value.batches ==> KeptOrNew(db, id, patch.date.value, b)
  {
    var items := Or(patch.items, []);
    var edited := db.docs[id].(date := patch.date.value, warehouse := patch.warehouse, items := items,
                               amount := ItemsTotal(items));
    EditStockDates(db.(docs := db.docs[id := edited]), id, items, patch.date.value);
  }

  // ---- entering, editing and deleting documents

  /** A new document: under a new id, neither posted nor deleted, with the fields of the
      request; a sale has the amount requested, a return the value of its items, and a
      receipt the sum of the totals it was given. Nothing else changes. */
  lemma {:induction false} CreateEnters(db: Db, kind: Kind, date: int, created: int, warehouse: Option<Id>,
                                        amount: int, items: seq<Item>)
    requires forall d :: d in db.docs ==> d < db.nextId
    ensures var db' := Create(db, kind, date, created, warehouse, amount, items);
            && db.nextId !in db.docs && db'.docs.Keys == db.docs.Keys + {db.nextId}
            && (forall d :: d in db.docs ==> db'.docs[d] == db.docs[d])
            && db'.batches == db.batches && db'.rows == db.rows
            && var doc := db'.docs[db.nextId];
               && doc.kind == kind && doc.date == date && doc.created == created && doc.warehouse == warehouse
               && !doc.posted && !doc.deleted && doc.profit == 0
               && Enters(items, doc.items)
               && (match kind
                   case Sale => doc.amount == amount && doc.items == items
                   case GoodsReceipt => doc.amount == Sum(items, (i: Item) => i.total) && doc.items == items
                   case BuyerReturn => doc.amount == Value(items) && Valued(doc.items)
                   case SupplierReturn => doc.amount == Value(items) && Valued(doc.items))
  {
    PricedValue(kind, items);
    SumSame(items, items, ItemTotal(), (i: Item) => i.total);
  }

  /** Product, quantity and price of each item are those of the request. */
  ghost predicate Enters(items: seq<Item>, entered: seq<Item>) {
    && |entered| == |items|
    && forall k :: 0 <= k < |items| ==> entered[k] == items[k].(total := entered[k].total)
  }

  /** Each total is quantity times price. */
  ghost predicate Valued(items: seq<Item>) {
    forall k :: 0 <= k < |items| ==> items[k].total == items[k].quantity * items[k].price
  }

  function Value(items: seq<Item>): int {
    Sum(items, (i: Item) => i.quantity * i.price)
  }

  lemma {:induction false} PricedValue(kind: Kind, items: seq<Item>)
    ensures Enters(items, Priced(kind, items))
    ensures kind.BuyerReturn? || kind.SupplierReturn? ==>
              Valued(Priced(kind, items)) && ItemsTotal(Priced(kind, items)) == Value(items)
    ensures kind.Sale? || kind.GoodsReceipt? ==> Priced(kind, items) == items
  {
    if kind.BuyerReturn? || kind.SupplierReturn? {
      SumSame(Priced(kind, items), items, ItemTotal(), (i: Item) => i.quantity * i.price);
    }
  }

  /** A field of an edited document: as sent, and as it was when it was not sent. */
  predicate Sets<T(==)>(sent: Option<T>, before: T, after: T) {
    match sent case Some(v) => after == v case None => after == before
  }

  /** Editing a sale: refused exactly when it is missing or posted; otherwise each field is as
      sent, or as it was when it was not sent, and nothing else changes. */
  lemma {:induction false} SaleEdits(db: Db, id: Id, patch: Patch)
    ensures EditSale(db, id, patch).Ok? <==> id in db.docs && db.docs[id].kind.Sale? && !db.docs[id].posted
    ensures EditSale(db, id, patch).Ok? ==>
              var db', before := EditSale(db, id, patch).value, db.docs[id];
              && db' == db.(docs := db.docs[id := db'.docs[id]])
              && var after := db'.docs[id];
                 && Sets(patch.date, before.date, after.date) && Sets(patch.amount, before.amount, after.amount)
                 && Sets(patch.items, before.items, after.items)
                 && after.warehouse == (if patch.warehouse.Some? then patch.warehouse else before.warehouse)
                 && after == before.(date := after.date, amount := after.amount, items := after.items,
                                     warehouse := after.warehouse)
  {
  }

  /** Sending the same edit twice leaves what sending it once leaves. */
  lemma {:induction false} SaleEditTwice(db: Db, id: Id, patch: Patch)
    requires EditSale(db, id, patch).Ok?
    ensures EditSale(EditSale(db, id, patch).value, id, patch) == EditSale(db, id, patch)
  {
    var once := EditSale(db, id, patch).value;
    var twice := EditSale(once, id, patch).value;
    assert twice.docs[id] == once.docs[id];
    assert twice.docs == once.docs;
  }

  /** Editing a draft of a return: refused exactly when it is missing or posted, or, for a buyer
      return, when date or warehouse are not sent; its items are then the request's, valued
      anew, whatever it had. */
  lemma {:induction false} ReturnEdits(db: Db, id: Id, kind: Kind, patch: Patch)
    requires kind.BuyerReturn? || kind.SupplierReturn?
    ensures EditReturn(db, id, kind, patch).Ok?
            <==> && id in db.docs && db.docs[id].kind == kind && !db.docs[id].posted
                 && (kind.BuyerReturn? ==> patch.date.Some? && patch.warehouse.Some?)
    ensures EditReturn(db, id, kind, patch).Ok? ==>
              var db', before := EditReturn(db, id, kind, patch).value, db.docs[id];
              && db' == db.(docs := db.docs[id := db'.docs[id]])
              && var after, items := db'.docs[id], Or(patch.items, []);
                 && Enters(items, after.items) && Valued(after.items) && after.amount == Value(items)
                 && Sets(patch.date, before.date, after.date)
                 && after.warehouse == (if patch.warehouse.Some? then patch.warehouse else before.warehouse)
                 && after == before.(date := after.date, amount := after.amount, items := after.items,
                                     warehouse := after.warehouse)
  {
    PricedValue(kind, Or(patch.items, []));
  }

  /** Deleting: refused exactly when the document is missing or posted; a sale stays, flagged,
      any other document is gone, and nothing else changes. */
  lemma {:induction false} DeleteRemoves(db: Db, id: Id)
    ensures Delete(db, id).Ok? <==> id in db.docs && !db.docs[id].posted
    ensures Delete(db, id).Ok? ==>
              var db' := Delete(db, id).value;
              && db'.batches == db.batches && db'.rows == db.rows && db'.nextId == db.nextId
              && (forall d :: d in db.docs && d != id ==> d in db'.docs && db'.docs[d] == db.docs[d])
              && (forall d :: d in db'.docs ==> d in db.docs)
              && (id in db'.docs <==> db.docs[id].kind.Sale?)
              && (id in db'.docs ==> db'.docs[id] == db.docs[id].(deleted := true))
  {
  }
}
