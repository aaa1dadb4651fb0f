// What every request keeps, and what holds after any interleaving of requests.

module Runs {
  import opened Sums
  import opened Tables
  import opened Inventory
  import opened Documents
  import opened Conservation

  // ---- receipts: guarded deletion removes no allocation row

  lemma {:induction false} NotUsedNoRow(rows: seq<Row>, batch: Id)
    requires forall r :: r in rows ==> r.qty > 0
    requires Used(rows, batch) <= 0
    ensures forall r :: r in rows ==> r.batch != batch
  {
    SumNonNegative(rows, UsedOf(batch));
    forall r | r in rows
      ensures r.batch != batch
    {
      assert UsedOf(batch)(r) <= Used(rows, batch);
    }
  }

  lemma {:induction false} UsedNonNegative(rows: seq<Row>, batch: Id)
    requires forall r :: r in rows ==> r.qty > 0
    ensures Used(rows, batch) >= 0
  {
    SumNonNegative(rows, UsedOf(batch));
  }

  /** When no batch of a group holds less than it came with, the group is untouched,
      however earlier edits moved quantities between its batches. */
  lemma {:induction false} UnsoldGroup(db: Db, r: Id, p: Id)
    requires Sound(db.batches, db.rows, db.nextId) && Conserved(db.batches, db.rows)
    requires forall b :: b in db.batches && InGroup(b, r, p) ==> b.left >= b.total
    ensures forall b :: b in db.batches && InGroup(b, r, p) ==> Used(db.rows, b.id) == 0
  {
    var f := GroupGapOf(db.rows, r, p);
    forall b | b in db.batches
      ensures f(b) <= 0
    {
      UsedNonNegative(db.rows, b.id);
    }
    SumNonPositive(db.batches, f);
    forall b | b in db.batches && InGroup(b, r, p)
      ensures Used(db.rows, b.id) == 0
    {
      assert GroupGap(db.batches, db.rows, r, p) <= f(b);
      UsedNonNegative(db.rows, b.id);
    }
  }

  /** A group nothing was sold from, in sum, has no allocation row at all. */
  lemma {:induction false} NothingSold(db: Db, r: Id, p: Id)
    requires Sound(db.batches, db.rows, db.nextId) && Conserved(db.batches, db.rows)
    requires Sold(db.batches, r, p) == 0
    ensures forall b :: b in db.batches && InGroup(b, r, p) ==> Used(db.rows, b.id) == 0
  {
    var f := MinusUsedOf(db.rows, r, p);
    forall b | b in db.batches
      ensures f(b) <= 0
    {
      UsedNonNegative(db.rows, b.id);
    }
    GroupGapSplits(db.batches, db.rows, r, p);
    assert GroupGap(db.batches, db.rows, r, p) == 0;
    SumNonPositive(db.batches, f);
    forall b | b in db.batches && InGroup(b, r, p)
      ensures Used(db.rows, b.id) == 0
    {
      assert 0 <= f(b);
      UsedNonNegative(db.rows, b.id);
    }
  }

  lemma {:induction false} CascadeNothing(db: Db, doomed: set<Id>)
    requires forall r :: r in db.rows ==> r.qty > 0
    requires forall id :: id in doomed ==> Used(db.rows, id) == 0
    ensures DeleteBatches(db, doomed).rows == db.rows
  {
    forall r | r in db.rows
      ensures RowSurvives(doomed)(r)
    {
      if r.batch in doomed {
        NotUsedNoRow(db.rows, r.batch);
      }
    }
    FilterAll(db.rows, RowSurvives(doomed));
  }

  /** A receipt whose unposting passes the guard loses its batches and nothing else:
      the cascading delete removes no allocation row. */
  lemma {:induction false} UnpostReceiptCascade(db: Db, id: Id)
    requires Ledger(db) && UnpostReceipt(db, id).Ok?
    ensures UnpostReceipt(db, id).value.rows == db.rows
  {
    forall b | b in OfReceipt(db.batches, id)
      ensures Used(db.rows, b) == 0
    {
      var batch :| batch in db.batches && batch.source == FromReceipt(id) && batch.id == b;
      UnsoldGroup(db, id, batch.product);
      assert InGroup(batch, id, batch.product);
    }
    CascadeNothing(db, OfReceipt(db.batches, id));
  }

  // ---- editing a posted receipt

  /** What editing a posted receipt leaves alone: rows, ids, owners. */
  ghost predicate Trims(db: Db, db': Db) {
    && db'.rows == db.rows && db'.docs == db.docs && db'.nextId == db.nextId
    && (forall b :: b in db'.batches ==> exists a :: a in db.batches && SameSlot(a, b))
  }

  predicate SameSlot(a: Batch, b: Batch) {
    a.id == b.id && a.source == b.source && a.product == b.product && a.createdAt == b.createdAt
  }

  lemma {:induction false} TrimsTransitive(a: Db, b: Db, c: Db)
    requires Trims(a, b) && Trims(b, c)
    ensures Trims(a, c)
  {
    forall x | x in c.batches
      ensures exists y :: y in a.batches && SameSlot(y, x)
    {
      var z :| z in b.batches && SameSlot(z, x);
      var y :| y in a.batches && SameSlot(y, z);
      assert SameSlot(y, x);
    }
  }

  lemma {:induction false} ResizeTrims(db: Db, r: Id, p: Id, total: int, left: int, price: int)
    ensures Trims(db, db.(batches := Resize(db.batches, r, p, total, left, price)))
  {
    var bs' := Resize(db.batches, r, p, total, left, price);
    ResizeShape(db.batches, r, p, total, left, price);
    forall b | b in bs'
      ensures exists a :: a in db.batches && SameSlot(a, b)
    {
      var i :| 0 <= i < |bs'| && bs'[i] == b;
      assert db.batches[i] in db.batches && SameSlot(db.batches[i], b);
    }
  }

  lemma {:induction false} ResizeEmptyGroup(db: Db, r: Id, p: Id, total: int, left: int, price: int)
    requires forall b :: b in db.batches ==> !InGroup(b, r, p)
    ensures Resize(db.batches, r, p, total, left, price) == db.batches
  {
    ResizeShape(db.batches, r, p, total, left, price);
    forall i | 0 <= i < |db.batches|
      ensures Resize(db.batches, r, p, total, left, price)[i] == db.batches[i]
    {
      assert db.batches[i] in db.batches;
    }
  }

  lemma {:induction false} DeleteGroupKeeps(db: Db, r: Id, p: Id)
    requires Sound(db.batches, db.rows, db.nextId) && Conserved(db.batches, db.rows)
    requires Sold(db.batches, r, p) == 0
    ensures var db' := DeleteBatches(db, OfGroup(db.batches, r, p));
            Sound(db'.batches, db'.rows, db'.nextId) && Conserved(db'.batches, db'.rows) && Trims(db, db')
  {
    var doomed := OfGroup(db.batches, r, p);
    NothingSold(db, r, p);
    CascadeNothing(db, doomed);
    DeleteKeeps(db, doomed);
    OneIdOneBatch(db.batches);
    DeleteConserves(db, doomed);
    assert forall b :: b in db.batches ==> SameSlot(b, b);
  }

  lemma {:induction false} ResizeKeeps(db: Db, r: Id, p: Id, total: nat, left: nat, price: int)
    requires Sound(db.batches, db.rows, db.nextId) && Conserved(db.batches, db.rows)
    requires total - left == Sold(db.batches, r, p)
    ensures var db' := db.(batches := Resize(db.batches, r, p, total, left, price));
            Sound(db'.batches, db'.rows, db'.nextId) && Conserved(db'.batches, db'.rows) && Trims(db, db')
  {
    ResizeTrims(db, r, p, total, left, price);
    ResizeSound(db, r, p, total, left, price);
    if exists b :: b in db.batches && InGroup(b, r, p) {
      ResizeConserves(db, r, p, total, left, price);
    } else {
      ResizeEmptyGroup(db, r, p, total, left, price);
    }
  }

  /** One product edited: conservation is kept and no allocation row is lost. */
  lemma {:induction false} EditProductKeeps(db: Db, r: Id, p: Id, items: seq<Item>)
    requires Sound(db.batches, db.rows, db.nextId) && Conserved(db.batches, db.rows)
    requires EditProduct(db, r, p, items).Ok?
    ensures var db' := EditProduct(db, r, p, items).value;
            Sound(db'.batches, db'.rows, db'.nextId) && Conserved(db'.batches, db'.rows) && Trims(db, db')
  {
    var sold, total := Sold(db.batches, r, p), Demand(items, p);
    if total == 0 && sold == 0 {
      DeleteGroupKeeps(db, r, p);
    } else if total > 0 {
      ResizeKeeps(db, r, p, total, total - sold, FirstPrice(items, p));
    } else {
      TrimsItself(db);
    }
  }

  lemma {:induction false} TrimsItself(db: Db)
    ensures Trims(db, db)
  {
    assert forall b :: b in db.batches ==> SameSlot(b, b);
  }

  lemma {:induction false} OneIdOneBatch(bs: seq<Batch>)
    requires DistinctIds(bs)
    ensures forall b, c :: b in bs && c in bs && b.id == c.id ==> b == c
  {
  }

  lemma {:induction false} EditProductsKeeps(db: Db, r: Id, products: seq<Id>, items: seq<Item>)
    requires Sound(db.batches, db.rows, db.nextId) && Conserved(db.batches, db.rows)
    requires EditProducts(db, r, products, items).Ok?
    ensures var db' := EditProducts(db, r, products, items).value;
            Sound(db'.batches, db'.rows, db'.nextId) && Conserved(db'.batches, db'.rows) && Trims(db, db')
    decreases |products|
  {
    if products == [] {
      TrimsItself(db);
    } else {
      var n := |products| - 1;
      EditProductsKeeps(db, r, products[..n], items);
      var before := EditProducts(db, r, products[..n], items).value;
      EditProductKeeps(before, r, products[n], items);
      TrimsTransitive(db, before, EditProduct(before, r, products[n], items).value);
    }
  }

  // ---- adding batches for a document

  /** Batches that were there, and new ones from one source document. */
  ghost predicate Grows(db: Db, db': Db, sources: set<Source>) {
    && db'.rows == db.rows && db'.docs == db.docs && db.nextId <= db'.nextId
    && (forall b :: b in db'.batches ==> b in db.batches || (b.source in sources && b.id >= db.nextId))
  }

  lemma {:induction false} AddStockGrows(db: Db, product: Id, quantity: nat, price: int, source: Source, at: int)
    ensures Grows(db, AddStock(db, product, quantity, price, source, at), {source})
  {
    InsertMembers(db.batches, Batch(db.nextId, product, quantity, quantity, price, source, at), CreatedAt());
  }

  lemma {:induction false} AddReceiptItemsKeeps(db: Db, doc: Id, items: seq<Item>, date: int)
    requires Sound(db.batches, db.rows, db.nextId)
    ensures var db' := AddReceiptItems(db, doc, items, date);
            Carries(db, db') && Grows(db, db', {FromReceipt(doc)})
    decreases |items|
  {
    if items != [] {
      var n := |items| - 1;
      AddReceiptItemsKeeps(db, doc, items[..n], date);
      var before := AddReceiptItems(db, doc, items[..n], date);
      AddStockKeeps(before, items[n].product, items[n].quantity, items[n].price, FromReceipt(doc), date);
      AddStockGrows(before, items[n].product, items[n].quantity, items[n].price, FromReceipt(doc), date);
    }
  }

  lemma {:induction false} AddNewProductsKeeps(db: Db, r: Id, products: seq<Id>, known: seq<Id>, items: seq<Item>,
                                               date: int)
    requires Sound(db.batches, db.rows, db.nextId)
    ensures var db' := AddNewProducts(db, r, products, known, items, date);
            Carries(db, db') && Grows(db, db', {FromReceipt(r)})
    decreases |products|
  {
    if products != [] {
      var n := |products| - 1;
      AddNewProductsKeeps(db, r, products[..n], known, items, date);
      var before := AddNewProducts(db, r, products[..n], known, items, date);
      if products[n] !in known {
        var q, price := Demand(items, products[n]), FirstPrice(items, products[n]);
        AddStockKeeps(before, products[n], q, price, FromReceipt(r), date);
        AddStockGrows(before, products[n], q, price, FromReceipt(r), date);
      }
    }
  }

  function ReturnSources(doc: Id, n: nat): set<Source> {
    set i | 0 <= i < n :: FromReturn(doc, i)
  }

  lemma {:induction false} RestockItemsKeeps(db: Db, doc: Id, items: seq<Item>, date: int)
    requires Sound(db.batches, db.rows, db.nextId)
    ensures var db' := RestockItems(db, doc, items, date).db;
            Carries(db, db') && Grows(db, db', ReturnSources(doc, |items|))
    decreases |items|
  {
    if items != [] {
      var n := |items| - 1;
      RestockItemsKeeps(db, doc, items[..n], date);
      var before := RestockItems(db, doc, items[..n], date).db;
      var cost := LastCost(before.batches, items[n].product);
      AddStockKeeps(before, items[n].product, items[n].quantity, cost, FromReturn(doc, n), date);
      AddStockGrows(before, items[n].product, items[n].quantity, cost, FromReturn(doc, n), date);
      assert forall s :: s in ReturnSources(doc, n) ==> s in ReturnSources(doc, n + 1);
      assert FromReturn(doc, n) in ReturnSources(doc, n + 1);
    }
  }

  // ---- what each request keeps

  /** Owners survive when a document that is being posted brings its batches. */
  lemma {:induction false} OwnedAfterPost(db: Db, db': Db, sources: set<Source>, docs': map<Id, Doc>)
    requires Owned(db.docs, db.batches, db.rows) && Grows(db, db', sources)
    requires forall d :: IsPosted(db.docs, d) ==> d in docs' && docs'[d] == db.docs[d]
    requires forall s :: s in sources ==> SourceOk(docs', s)
    ensures Owned(docs', db'.batches, db'.rows)
  {
    forall b | b in db'.batches
      ensures SourceOk(docs', b.source)
    {
      assert b in db.batches ==> SourceOk(db.docs, b.source);
    }
    forall r | r in db'.rows
      ensures RowOk(docs', r)
    {
      assert RowOk(db.docs, r);
    }
  }

  lemma {:induction false} PostedKeeps(db: Db, stocked: Db, sources: set<Source>, docs': map<Id, Doc>)
    requires Ledger(db) && Carries(db, stocked) && Grows(db, stocked, sources)
    requires docs'.Keys == db.docs.Keys && forall d :: IsPosted(db.docs, d) ==> docs'[d] == db.docs[d]
    requires forall s :: s in sources ==> SourceOk(docs', s)
    ensures Ledger(stocked.(docs := docs')) && Carries(db, stocked.(docs := docs'))
  {
    OwnedAfterPost(db, stocked, sources, docs');
  }

  lemma {:induction false} PostReceiptKeeps(db: Db, id: Id)
    requires Ledger(db) && PostReceipt(db, id).Ok?
    ensures Ledger(PostReceipt(db, id).value) && Carries(db, PostReceipt(db, id).value)
  {
    var doc := db.docs[id];
    AddReceiptItemsKeeps(db, id, doc.items, doc.date);
    PostedKeeps(db, AddReceiptItems(db, id, doc.items, doc.date), {FromReceipt(id)}, PostReceipt(db, id).value.docs);
  }

  lemma {:induction false} OwnedAfterDelete(db: Db, doomed: set<Id>, docs': map<Id, Doc>)
    requires Sound(db.batches, db.rows, db.nextId)
    requires forall b :: b in db.batches && b.id !in doomed ==> SourceOk(docs', b.source)
    requires forall r :: r in db.rows ==> RowOk(docs', r)
    ensures var db' := DeleteBatches(db, doomed); Owned(docs', db'.batches, db'.rows)
  {
  }

  lemma {:induction false} DeleteReceiptKeeps(db: Db, id: Id)
    requires Sound(db.batches, db.rows, db.nextId)
    ensures Carries(db, DeleteBatches(db, OfReceipt(db.batches, id)))
  {
    var doomed := OfReceipt(db.batches, id);
    DeleteKeeps(db, doomed);
    OneIdOneBatch(db.batches);
    if Conserved(db.batches, db.rows) {
      DeleteConserves(db, doomed);
    }
  }

  lemma {:induction false} DeleteReceiptOwned(db: Db, id: Id, docs': map<Id, Doc>)
    requires Sound(db.batches, db.rows, db.nextId) && Owned(db.docs, db.batches, db.rows)
    requires id in db.docs && db.docs[id].kind.GoodsReceipt? && docs' == db.docs[id := db.docs[id].(posted := false)]
    ensures var db' := DeleteBatches(db, OfReceipt(db.batches, id)); Owned(docs', db'.batches, db'.rows)
  {
    forall r | r in db.rows
      ensures RowOk(docs', r)
    {
      assert RowOk(db.docs, r);
    }
    forall b | b in db.batches && b.id !in OfReceipt(db.batches, id)
      ensures SourceOk(docs', b.source)
    {
      assert SourceOk(db.docs, b.source);
    }
    OwnedAfterDelete(db, OfReceipt(db.batches, id), docs');
  }

  lemma {:induction false} UnpostReceiptKeeps(db: Db, id: Id)
    requires Ledger(db) && UnpostReceipt(db, id).Ok?
    ensures Ledger(UnpostReceipt(db, id).value) && Carries(db, UnpostReceipt(db, id).value)
  {
    DeleteReceiptKeeps(db, id);
    DeleteReceiptOwned(db, id, UnpostReceipt(db, id).value.docs);
  }

  /** Owners survive trimming and growing when the new sources are in order. */
  lemma {:induction false} OwnedAfterEdit(db: Db, trimmed: Db, db': Db, sources: set<Source>)
    requires Owned(db.docs, db.batches, db.rows)
    requires Trims(db, trimmed) && Grows(trimmed, db', sources)
    requires forall s :: s in sources ==> SourceOk(db.docs, s)
    ensures Owned(db.docs, db'.batches, db'.rows)
  {
    forall b | b in db'.batches
      ensures SourceOk(db.docs, b.source)
    {
      if b in trimmed.batches {
        var a :| a in db.batches && SameSlot(a, b);
      }
    }
  }

  lemma {:induction false} OwnedRenamed(db: Db, id: Id, doc: Doc)
    requires Owned(db.docs, db.batches, db.rows) && id in db.docs
    requires doc.kind == db.docs[id].kind && doc.posted == db.docs[id].posted && doc.kind.GoodsReceipt?
    ensures Owned(db.docs[id := doc], db.batches, db.rows)
  {
  }

  lemma {:induction false} EditStockKeeps(db: Db, id: Id, items: seq<Item>, date: int)
    requires Ledger(db) && IsPosted(db.docs, id) && db.docs[id].kind.GoodsReceipt?
    requires EditStock(db, id, items, date).Ok?
    ensures Ledger(EditStock(db, id, items, date).value)
    ensures EditStock(db, id, items, date).value.rows == db.rows
  {
    var known := BatchProducts(db.batches, id);
    EditProductsKeeps(db, id, known, items);
    NewProductsKeep(db, EditProducts(db, id, known, items).value, id, known, items, date);
  }

  lemma {:induction false} NewProductsKeep(db: Db, resized: Db, id: Id, known: seq<Id>, items: seq<Item>, date: int)
    requires Ledger(db) && IsPosted(db.docs, id) && db.docs[id].kind.GoodsReceipt?
    requires Sound(resized.batches, resized.rows, resized.nextId) && Conserved(resized.batches, resized.rows)
    requires Trims(db, resized)
    ensures var db' := AddNewProducts(resized, id, ItemProducts(items), known, items, date);
            Ledger(db') && db'.rows == db.rows
  {
    var db' := AddNewProducts(resized, id, ItemProducts(items), known, items, date);
    AddNewProductsKeeps(resized, id, ItemProducts(items), known, items, date);
    OwnedAfterEdit(db, resized, db', {FromReceipt(id)});
  }

  /** Editing a receipt, posted or not, keeps the ledger and every allocation row. */
  lemma {:induction false} UpdateReceiptKeeps(db: Db, id: Id, patch: Patch)
    requires Ledger(db) && UpdateReceipt(db, id, patch).Ok?
    ensures Ledger(UpdateReceipt(db, id, patch).value)
    ensures UpdateReceipt(db, id, patch).value.rows == db.rows
  {
    var doc := db.docs[id];
    var items := Or(patch.items, []);
    var edited := doc.(date := patch.date.value, warehouse := patch.warehouse, items := items,
                       amount := ItemsTotal(items));
    var renamed := db.(docs := db.docs[id := edited]);
    OwnedRenamed(db, id, edited);
    if doc.posted {
      EditStockKeeps(renamed, id, items, patch.date.value);
    }
  }

  lemma {:induction false} PostReturnKeeps(db: Db, id: Id)
    requires Ledger(db) && PostReturn(db, id).Ok?
    ensures Ledger(PostReturn(db, id).value) && Carries(db, PostReturn(db, id).value)
  {
    var doc := db.docs[id];
    RestockItemsKeeps(db, id, doc.items, doc.date);
    PostedKeeps(db, RestockItems(db, id, doc.items, doc.date).db, ReturnSources(id, |doc.items|),
                PostReturn(db, id).value.docs);
  }

  lemma {:induction false} DeleteReturnKeeps(db: Db, id: Id)
    requires Sound(db.batches, db.rows, db.nextId)
    ensures Carries(db, DeleteBatches(db, OfReturn(db.batches, id)))
  {
    var doomed := OfReturn(db.batches, id);
    DeleteKeeps(db, doomed);
    OneIdOneBatch(db.batches);
    if Conserved(db.batches, db.rows) {
      DeleteConserves(db, doomed);
    }
  }

  lemma {:induction false} UnpostReturnKeeps(db: Db, id: Id)
    requires Ledger(db) && UnpostReturn(db, id).Ok?
    ensures Ledger(UnpostReturn(db, id).value) && Carries(db, UnpostReturn(db, id).value)
  {
    var doomed := OfReturn(db.batches, id);
    var docs' := UnpostReturn(db, id).value.docs;
    DeleteReturnKeeps(db, id);
    forall r | r in db.rows
      ensures RowOk(docs', r)
    {
      assert RowOk(db.docs, r);
    }
    forall b | b in db.batches && b.id !in doomed
      ensures SourceOk(docs', b.source)
    {
      assert SourceOk(db.docs, b.source);
    }
    OwnedAfterDelete(db, doomed, docs');
  }

  lemma {:induction false} DeductedOwned(db: Db, id: Id, docs': map<Id, Doc>)
    requires Ledger(db) && id in db.docs && Outgoing(db.docs[id].kind)
    requires DeductItems(db, id, db.docs[id].warehouse, db.docs[id].items).Ok?
    requires id in docs' && docs' == db.docs[id := docs'[id]]
    requires docs'[id].posted && docs'[id].kind == db.docs[id].kind && docs'[id].items == db.docs[id].items
    ensures var db' := DeductItems(db, id, db.docs[id].warehouse, db.docs[id].items).value;
            Ledger(db'.(docs := docs')) && Carries(db, db'.(docs := docs'))
  {
    var doc := db.docs[id];
    var db' := DeductItems(db, id, doc.warehouse, doc.items).value;
    DeductItemsKeeps(db, id, doc.warehouse, doc.items);
    DeductItemsRefills(db, id, doc.warehouse, doc.items);
    OwnedAfterDeduct(db, db', id, docs');
  }

  lemma {:induction false} OwnedAfterDeduct(db: Db, db': Db, id: Id, docs': map<Id, Doc>)
    requires Owned(db.docs, db.batches, db.rows) && id in db.docs && Outgoing(db.docs[id].kind)
    requires Refilled(db.batches, db.rows, db'.batches, db'.rows)
    requires db.rows <= db'.rows
    requires forall r :: r in Added(db, db') ==> r.doc == id && r.item < |db.docs[id].items|
    requires id in docs' && docs' == db.docs[id := docs'[id]]
    requires docs'[id].posted && docs'[id].kind == db.docs[id].kind && docs'[id].items == db.docs[id].items
    ensures Owned(docs', db'.batches, db'.rows)
  {
    forall r | r in db'.rows
      ensures RowOk(docs', r)
    {
      assert db'.rows == db.rows + Added(db, db');
      assert r in db.rows ==> RowOk(db.docs, r);
    }
    forall b | b in db.batches
      ensures SourceOk(docs', b.source)
    {
      assert SourceOk(db.docs, b.source);
    }
    RefilledSources(docs', db.batches, db.rows, db'.batches, db'.rows);
  }

  lemma {:induction false} PostSaleKeeps(db: Db, id: Id)
    requires Ledger(db) && PostSale(db, id).Ok?
    ensures Ledger(PostSale(db, id).value) && Carries(db, PostSale(db, id).value)
  {
    DeductedOwned(db, id, PostSale(db, id).value.docs);
  }

  lemma {:induction false} PostSupplierReturnKeeps(db: Db, id: Id)
    requires Ledger(db) && PostSupplierReturn(db, id).Ok?
    ensures Ledger(PostSupplierReturn(db, id).value) && Carries(db, PostSupplierReturn(db, id).value)
  {
    DeductedOwned(db, id, PostSupplierReturn(db, id).value.docs);
  }

  lemma {:induction false} RefilledSources(docs: map<Id, Doc>, bs: seq<Batch>, rows: seq<Row>, bs': seq<Batch>,
                                           rows': seq<Row>)
    requires Refilled(bs, rows, bs', rows')
    requires forall b :: b in bs ==> SourceOk(docs, b.source)
    ensures forall b :: b in bs' ==> SourceOk(docs, b.source)
  {
    forall b | b in bs'
      ensures SourceOk(docs, b.source)
    {
      var i :| 0 <= i < |bs'| && bs'[i] == b;
      assert bs[i] in bs;
    }
  }

  lemma {:induction false} ReturnedOwned(db: Db, id: Id, docs': map<Id, Doc>)
    requires Ledger(db) && id in db.docs && Outgoing(db.docs[id].kind)
    requires id in docs' && docs' == db.docs[id := docs'[id]]
    ensures Ledger(Return(db, id).(docs := docs')) && Carries(db, Return(db, id).(docs := docs'))
  {
    ReturnKeeps(db, id);
    forall b | b in db.batches
      ensures SourceOk(docs', b.source)
    {
      assert SourceOk(db.docs, b.source);
    }
    RefilledSources(docs', db.batches, db.rows, Return(db, id).batches, Return(db, id).rows);
    forall r | r in Return(db, id).rows
      ensures RowOk(docs', r)
    {
      assert RowOk(db.docs, r);
    }
  }

  lemma {:induction false} UnpostSaleKeeps(db: Db, id: Id)
    requires Ledger(db) && UnpostSale(db, id).Ok?
    ensures Ledger(UnpostSale(db, id).value) && Carries(db, UnpostSale(db, id).value)
  {
    ReturnedOwned(db, id, UnpostSale(db, id).value.docs);
  }

  lemma {:induction false} UnpostSupplierReturnKeeps(db: Db, id: Id)
    requires Ledger(db) && UnpostSupplierReturn(db, id).Ok?
    ensures Ledger(UnpostSupplierReturn(db, id).value) && Carries(db, UnpostSupplierReturn(db, id).value)
  {
    ReturnedOwned(db, id, UnpostSupplierReturn(db, id).value.docs);
  }

  /** Headers of documents that are not posted can change freely. */
  lemma {:induction false} HeadersKeep(db: Db, docs': map<Id, Doc>, nextId': Id)
    requires Ledger(db) && db.nextId <= nextId'
    requires forall d :: IsPosted(db.docs, d) ==> d in docs' && docs'[d] == db.docs[d]
    requires forall d :: d in docs' ==> d < nextId'
    ensures var db' := Db(docs', db.batches, db.rows, nextId'); Ledger(db') && Carries(db, db')
  {
    forall b | b in db.batches
      ensures SourceOk(docs', b.source)
    {
      assert SourceOk(db.docs, b.source);
    }
    forall r | r in db.rows
      ensures RowOk(docs', r)
    {
      assert RowOk(db.docs, r);
    }
  }

  lemma {:induction false} PaperworkKeeps(db: Db, step: Step)
    requires Ledger(db) && Next(db, step).Ok?
    requires step.New? || step.Remove? || (step.Edit? && !IsPosted(db.docs, step.id))
    ensures Ledger(Next(db, step).value) && Carries(db, Next(db, step).value)
  {
    HeadersKeep(db, Next(db, step).value.docs, Next(db, step).value.nextId);
  }

  lemma {:induction false} ArriveKeeps(db: Db, step: Step)
    requires Ledger(db) && step.Arrive?
    ensures Ledger(Next(db, step).value) && Carries(db, Next(db, step).value)
  {
    AddStockKeeps(db, step.product, step.quantity, step.price, Arrival, step.createdAt);
    AddStockGrows(db, step.product, step.quantity, step.price, Arrival, step.createdAt);
  }

  lemma {:induction false} NextKeeps(db: Db, step: Step)
    requires Ledger(db) && Next(db, step).Ok?
    ensures Ledger(Next(db, step).value)
    ensures !(step.Edit? && IsPosted(db.docs, step.id)) ==> Carries(db, Next(db, step).value)
  {
    match step
    case Arrive(_, _, _, _) => ArriveKeeps(db, step);
    case New(_, _, _, _, _, _) => PaperworkKeeps(db, step);
    case Remove(_) => PaperworkKeeps(db, step);
    case Edit(id, patch) =>
      if IsPosted(db.docs, id) {
        UpdateReceiptKeeps(db, id, patch);
      } else {
        PaperworkKeeps(db, step);
      }
    case Post(id) =>
      match db.docs[id].kind {
        case GoodsReceipt => PostReceiptKeeps(db, id);
        case BuyerReturn => PostReturnKeeps(db, id);
        case Sale => PostSaleKeeps(db, id);
        case SupplierReturn => PostSupplierReturnKeeps(db, id);
      }
    case Unpost(id) =>
      match db.docs[id].kind {
        case GoodsReceipt => UnpostReceiptKeeps(db, id);
        case BuyerReturn => UnpostReturnKeeps(db, id);
        case Sale => UnpostSaleKeeps(db, id);
        case SupplierReturn => UnpostSupplierReturnKeeps(db, id);
      }
  }

  /** Conservation over every run: whatever requests arrive in whatever order, nothing
      is oversold and the cached quantities agree with the allocation rows per receipt
      and product, and per batch for buyer returns and arrivals. */
  lemma {:induction false} LedgerOverRuns(steps: seq<Step>)
    ensures Ledger(Run(EmptyDb, steps))
    decreases |steps|
  {
    if steps != [] {
      var before := Run(EmptyDb, steps[..|steps| - 1]);
      LedgerOverRuns(steps[..|steps| - 1]);
      if Next(before, steps[|steps| - 1]).Ok? {
        NextKeeps(before, steps[|steps| - 1]);
      }
    }
  }
}
