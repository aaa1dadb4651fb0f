// Stock against paper: over every run the batches of a posted document hold what its
// items say, rows draw on batches of their item's product, and so the stock on hand is
// what the posted documents brought less what they took.

module OnHand {
  import opened Sums
  import opened Tables
  import opened Inventory
  import opened Documents
  import opened Conservation
  import opened Runs
  import F = Fifo
  import H = History

  // ---- batches against items

  function BroughtOf(s: Source, p: Id): Batch -> int {
    (b: Batch) => if b.source == s && b.product == p then b.total else 0
  }

  /** What came in of a product from one source. */
  function Brought(bs: seq<Batch>, s: Source, p: Id): int {
    Sum(bs, BroughtOf(s, p))
  }

  /** What the posted documents say came from a source. */
  function Supplied(docs: map<Id, Doc>, s: Source, p: Id): int {
    match s
    case Arrival => 0
    case FromReceipt(d) => if IsPosted(docs, d) && docs[d].kind.GoodsReceipt? then Demand(docs[d].items, p) else 0
    case FromReturn(d, i) =>
      if IsPosted(docs, d) && docs[d].kind.BuyerReturn? && i < |docs[d].items| && docs[d].items[i].product == p
      then docs[d].items[i].quantity else 0
  }

  /** Batches total, source by source and product by product, what the documents say. */
  ghost predicate Matched(docs: map<Id, Doc>, bs: seq<Batch>) {
    forall s: Source, p: Id {:trigger Brought(bs, s, p)} :: !s.Arrival? ==> Brought(bs, s, p) == Supplied(docs, s, p)
  }

  lemma {:induction false} BroughtSame(bs: seq<Batch>, bs': seq<Batch>, s: Source, p: Id)
    requires |bs'| == |bs|
    requires forall i :: 0 <= i < |bs| ==>
               && bs'[i].source == bs[i].source && bs'[i].product == bs[i].product
               && (bs[i].source == s && bs[i].product == p ==> bs'[i].total == bs[i].total)
    ensures Brought(bs', s, p) == Brought(bs, s, p)
  {
    SumSame(bs', bs, BroughtOf(s, p), BroughtOf(s, p));
  }

  lemma {:induction false} BroughtAdd(db: Db, product: Id, q: nat, price: int, source: Source, at: int, s: Source,
                                      p: Id)
    ensures Brought(AddStock(db, product, q, price, source, at).batches, s, p)
            == Brought(db.batches, s, p) + if source == s && product == p then q else 0
  {
    SumInsert(db.batches, Batch(db.nextId, product, q, q, price, source, at), CreatedAt(), BroughtOf(s, p));
  }

  /** Deleting all batches of a source and product leaves nothing of it, deleting none
      leaves everything. */
  lemma {:induction false} BroughtDelete(db: Db, doomed: set<Id>, s: Source, p: Id)
    ensures (forall b :: b in db.batches && b.source == s && b.product == p ==> b.id !in doomed) ==>
              Brought(DeleteBatches(db, doomed).batches, s, p) == Brought(db.batches, s, p)
    ensures (forall b :: b in db.batches && b.source == s && b.product == p ==> b.id in doomed) ==>
              Brought(DeleteBatches(db, doomed).batches, s, p) == 0
  {
    var f := BroughtOf(s, p);
    if forall b :: b in db.batches && b.source == s && b.product == p ==> b.id !in doomed {
      SumFilter(db.batches, Survives(doomed), f, f);
    }
    if forall b :: b in db.batches && b.source == s && b.product == p ==> b.id in doomed {
      SumZero(DeleteBatches(db, doomed).batches, f);
    }
  }

  lemma {:induction false} BroughtNone(bs: seq<Batch>, s: Source, p: Id)
    requires forall b :: b in bs ==> !(b.source == s && b.product == p)
    ensures Brought(bs, s, p) == 0
  {
    SumZero(bs, BroughtOf(s, p));
  }

  // ---- posting

  lemma {:induction false} BroughtReceiptItems(db: Db, doc: Id, items: seq<Item>, date: int, s: Source, p: Id)
    ensures Brought(AddReceiptItems(db, doc, items, date).batches, s, p)
            == Brought(db.batches, s, p) + if s == FromReceipt(doc) then Demand(items, p) else 0
    decreases |items|
  {
    if items != [] {
      var n := |items| - 1;
      BroughtReceiptItems(db, doc, items[..n], date, s, p);
      BroughtAdd(AddReceiptItems(db, doc, items[..n], date),
                 items[n].product, items[n].quantity, items[n].price, FromReceipt(doc), date, s, p);
      DemandSnoc(items, p);
    }
  }

  /** What restocking the items of a return brings from a source. */
  function Restocked(doc: Id, items: seq<Item>, s: Source, p: Id): int {
    if s.FromReturn? && s.doc == doc && s.item < |items| && items[s.item].product == p
    then items[s.item].quantity
    else 0
  }

  lemma {:induction false} BroughtReturnItems(db: Db, doc: Id, items: seq<Item>, date: int, s: Source, p: Id)
    ensures Brought(RestockItems(db, doc, items, date).db.batches, s, p)
            == Brought(db.batches, s, p) + Restocked(doc, items, s, p)
    decreases |items|
  {
    if items != [] {
      var n := |items| - 1;
      BroughtReturnItems(db, doc, items[..n], date, s, p);
      var before := RestockItems(db, doc, items[..n], date).db;
      BroughtAdd(before, items[n].product, items[n].quantity, LastCost(before.batches, items[n].product),
                 FromReturn(doc, n), date, s, p);
    }
  }

  lemma {:induction false} PostReceiptMatched(db: Db, id: Id)
    requires Matched(db.docs, db.batches) && PostReceipt(db, id).Ok?
    ensures var db' := PostReceipt(db, id).value; Matched(db'.docs, db'.batches)
  {
    var doc, db' := db.docs[id], PostReceipt(db, id).value;
    forall s: Source, p: Id {:trigger Brought(db'.batches, s, p)} | !s.Arrival?
      ensures Brought(db'.batches, s, p) == Supplied(db'.docs, s, p)
    {
      BroughtReceiptItems(db, id, doc.items, doc.date, s, p);
      assert Brought(db.batches, s, p) == Supplied(db.docs, s, p);
    }
  }

  lemma {:induction false} PostReturnMatched(db: Db, id: Id)
    requires Matched(db.docs, db.batches) && PostReturn(db, id).Ok?
    ensures var db' := PostReturn(db, id).value; Matched(db'.docs, db'.batches)
  {
    var doc, db' := db.docs[id], PostReturn(db, id).value;
    forall s: Source, p: Id {:trigger Brought(db'.batches, s, p)} | !s.Arrival?
      ensures Brought(db'.batches, s, p) == Supplied(db'.docs, s, p)
    {
      BroughtReturnItems(db, id, doc.items, doc.date, s, p);
      assert Brought(db.batches, s, p) == Supplied(db.docs, s, p);
    }
  }

  // ---- unposting

  /** Clearing the batches of one document and its posted flag. */
  lemma {:induction false} ClearMatched(db: Db, id: Id, doomed: set<Id>, docs': map<Id, Doc>)
    requires Matched(db.docs, db.batches) && id in docs' && docs' == db.docs[id := docs'[id]] && !docs'[id].posted
    requires forall b :: b in db.batches ==> (b.id in doomed <==> !b.source.Arrival? && b.source.doc == id)
    ensures Matched(docs', DeleteBatches(db, doomed).batches)
  {
    var bs' := DeleteBatches(db, doomed).batches;
    forall s: Source, p: Id {:trigger Brought(bs', s, p)} | !s.Arrival?
      ensures Brought(bs', s, p) == Supplied(docs', s, p)
    {
      BroughtDelete(db, doomed, s, p);
      assert Brought(db.batches, s, p) == Supplied(db.docs, s, p);
    }
  }

  lemma {:induction false} UnpostReceiptMatched(db: Db, id: Id)
    requires Ledger(db) && Matched(db.docs, db.batches) && UnpostReceipt(db, id).Ok?
    ensures var db' := UnpostReceipt(db, id).value; Matched(db'.docs, db'.batches)
  {
    OneIdOneBatch(db.batches);
    forall b | b in db.batches
      ensures b.id in OfReceipt(db.batches, id) <==> !b.source.Arrival? && b.source.doc == id
    {
      assert SourceOk(db.docs, b.source);
    }
    ClearMatched(db, id, OfReceipt(db.batches, id), UnpostReceipt(db, id).value.docs);
  }

  lemma {:induction false} UnpostReturnMatched(db: Db, id: Id)
    requires Ledger(db) && Matched(db.docs, db.batches) && UnpostReturn(db, id).Ok?
    ensures var db' := UnpostReturn(db, id).value; Matched(db'.docs, db'.batches)
  {
    OneIdOneBatch(db.batches);
    forall b | b in db.batches
      ensures b.id in OfReturn(db.batches, id) <==> !b.source.Arrival? && b.source.doc == id
    {
      assert SourceOk(db.docs, b.source);
    }
    ClearMatched(db, id, OfReturn(db.batches, id), UnpostReturn(db, id).value.docs);
  }

  // ---- editing a posted receipt

  ghost predicate HasGroup(bs: seq<Batch>, r: Id, p: Id) {
    exists b :: b in bs && InGroup(b, r, p)
  }

  /** The receipt still holds a batch of each product from the `k`-th on. */
  ghost predicate PresentFrom(bs: seq<Batch>, r: Id, products: seq<Id>, k: nat) {
    forall j :: k <= j < |products| ==> HasGroup(bs, r, products[j])
  }

  lemma {:induction false} ResizeBrought(bs: seq<Batch>, r: Id, p: Id, total: int, left: int, price: int)
    requires exists b :: b in bs && InGroup(b, r, p)
    ensures Brought(Resize(bs, r, p, total, left, price), FromReceipt(r), p) == total
    decreases |bs|
  {
    var rest, f := bs[1..], BroughtOf(FromReceipt(r), p);
    if InGroup(bs[0], r, p) {
      SumCons(bs[0].(total := total, left := left, price := price), Map(rest, Emptied(r, p)), f);
      SumZero(Map(rest, Emptied(r, p)), f);
    } else {
      assert exists b :: b in rest && InGroup(b, r, p) by {
        var b :| b in bs && InGroup(b, r, p);
        assert b in rest;
      }
      ResizeBrought(rest, r, p, total, left, price);
      SumCons(bs[0], Resize(rest, r, p, total, left, price), f);
    }
  }

  lemma {:induction false} ResizeElsewhere(bs: seq<Batch>, r: Id, p: Id, total: int, left: int, price: int, s: Source,
                                           q: Id)
    requires !(s == FromReceipt(r) && q == p)
    ensures Brought(Resize(bs, r, p, total, left, price), s, q) == Brought(bs, s, q)
  {
    ResizeShape(bs, r, p, total, left, price);
    BroughtSame(bs, Resize(bs, r, p, total, left, price), s, q);
  }

  lemma {:induction false} SoldNonNegative(db: Db, r: Id, p: Id)
    requires Sound(db.batches, db.rows, db.nextId) && Conserved(db.batches, db.rows)
    ensures Sold(db.batches, r, p) >= 0
  {
    var f := MinusUsedOf(db.rows, r, p);
    forall b | b in db.batches
      ensures f(b) <= 0
    {
      UsedNonNegative(db.rows, b.id);
    }
    GroupGapSplits(db.batches, db.rows, r, p);
    assert GroupGap(db.batches, db.rows, r, p) == 0;
    SumNonPositive(db.batches, f);
  }

  lemma {:induction false} DeleteGroupBrought(db: Db, r: Id, p: Id, s: Source, q: Id)
    requires DistinctIds(db.batches)
    ensures Brought(DeleteBatches(db, OfGroup(db.batches, r, p)).batches, s, q)
            == if s == FromReceipt(r) && q == p then 0 else Brought(db.batches, s, q)
  {
    OneIdOneBatch(db.batches);
    BroughtDelete(db, OfGroup(db.batches, r, p), s, q);
  }

  lemma {:induction false} ResizedBrought(bs: seq<Batch>, r: Id, p: Id, total: int, left: int, price: int, s: Source,
                                          q: Id)
    requires HasGroup(bs, r, p)
    ensures Brought(Resize(bs, r, p, total, left, price), s, q)
            == if s == FromReceipt(r) && q == p then total else Brought(bs, s, q)
  {
    if s == FromReceipt(r) && q == p {
      ResizeBrought(bs, r, p, total, left, price);
    } else {
      ResizeElsewhere(bs, r, p, total, left, price, s, q);
    }
  }

  lemma {:induction false} EditProductBrought(db: Db, r: Id, p: Id, items: seq<Item>, s: Source, q: Id)
    requires Sound(db.batches, db.rows, db.nextId) && Conserved(db.batches, db.rows)
    requires EditProduct(db, r, p, items).Ok? && HasGroup(db.batches, r, p)
    ensures Brought(EditProduct(db, r, p, items).value.batches, s, q)
            == if s == FromReceipt(r) && q == p then Demand(items, p) else Brought(db.batches, s, q)
  {
    var sold, total := Sold(db.batches, r, p), Demand(items, p);
    SoldNonNegative(db, r, p);
    if total == 0 && sold == 0 {
      DeleteGroupBrought(db, r, p, s, q);
    } else {
      ResizedBrought(db.batches, r, p, total, total - sold, FirstPrice(items, p), s, q);
    }
  }

  lemma {:induction false} DeletePresent(db: Db, r: Id, p: Id, q: Id)
    requires DistinctIds(db.batches) && HasGroup(db.batches, r, q) && q != p
    ensures HasGroup(DeleteBatches(db, OfGroup(db.batches, r, p)).batches, r, q)
  {
    var b :| b in db.batches && InGroup(b, r, q);
    OneIdOneBatch(db.batches);
    assert Survives(OfGroup(db.batches, r, p))(b);
    assert b in DeleteBatches(db, OfGroup(db.batches, r, p)).batches;
  }

  lemma {:induction false} EditProductPresent(db: Db, r: Id, p: Id, items: seq<Item>, q: Id)
    requires DistinctIds(db.batches) && EditProduct(db, r, p, items).Ok?
    requires HasGroup(db.batches, r, q) && q != p
    ensures HasGroup(EditProduct(db, r, p, items).value.batches, r, q)
  {
    var sold, total := Sold(db.batches, r, p), Demand(items, p);
    if total == 0 && sold == 0 {
      DeletePresent(db, r, p, q);
    } else if total > 0 {
      ResizePresent(db.batches, r, p, total, total - sold, FirstPrice(items, p), q);
    }
  }

  lemma {:induction false} ResizePresent(bs: seq<Batch>, r: Id, p: Id, total: int, left: int, price: int, q: Id)
    requires HasGroup(bs, r, q) && q != p
    ensures HasGroup(Resize(bs, r, p, total, left, price), r, q)
  {
    var b :| b in bs && InGroup(b, r, q);
    var i :| 0 <= i < |bs| && bs[i] == b;
    ResizeShape(bs, r, p, total, left, price);
    assert Resize(bs, r, p, total, left, price)[i] == b;
  }

  /** The state after some products have been edited: right for them, unchanged elsewhere. */
  ghost predicate EditedSoFar(db: Db, r: Id, products: seq<Id>, items: seq<Item>, db': Db) {
    && Sound(db'.batches, db'.rows, db'.nextId) && Conserved(db'.batches, db'.rows)
    && forall s: Source, q: Id {:trigger Brought(db'.batches, s, q)} ::
         Brought(db'.batches, s, q)
         == if s == FromReceipt(r) && q in products then Demand(items, q) else Brought(db.batches, s, q)
  }

  lemma {:induction false} EditOneMore(db: Db, r: Id, products: seq<Id>, items: seq<Item>, mid: Db, k: nat, db': Db)
    requires k < |products| && NoRepeats(products)
    requires EditedSoFar(db, r, products[..k], items, mid) && PresentFrom(mid.batches, r, products, k)
    requires EditProduct(mid, r, products[k], items) == Ok(db')
    ensures EditedSoFar(db, r, products[..k + 1], items, db') && PresentFrom(db'.batches, r, products, k + 1)
  {
    var p := products[k];
    assert products[..k + 1] == products[..k] + [p];
    EditProductKeeps(mid, r, p, items);
    forall s: Source, q: Id {:trigger Brought(db'.batches, s, q)}
      ensures Brought(db'.batches, s, q)
              == if s == FromReceipt(r) && q in products[..k + 1] then Demand(items, q) else Brought(db.batches, s, q)
    {
      EditProductBrought(mid, r, p, items, s, q);
    }
    forall j | k + 1 <= j < |products|
      ensures HasGroup(db'.batches, r, products[j])
    {
      EditProductPresent(mid, r, p, items, products[j]);
    }
  }

  lemma {:induction false} EditProductsBrought(db: Db, r: Id, products: seq<Id>, items: seq<Item>, k: nat)
    requires Sound(db.batches, db.rows, db.nextId) && Conserved(db.batches, db.rows)
    requires NoRepeats(products) && PresentFrom(db.batches, r, products, 0) && k <= |products|
    requires EditProducts(db, r, products[..k], items).Ok?
    ensures var db' := EditProducts(db, r, products[..k], items).value;
            EditedSoFar(db, r, products[..k], items, db') && PresentFrom(db'.batches, r, products, k)
    decreases k
  {
    if k > 0 {
      assert products[..k][..k - 1] == products[..k - 1];
      EditProductsBrought(db, r, products, items, k - 1);
      EditOneMore(db, r, products, items, EditProducts(db, r, products[..k - 1], items).value, k - 1,
                  EditProducts(db, r, products[..k], items).value);
    }
  }

  lemma {:induction false} NewProductsBrought(db: Db, r: Id, products: seq<Id>, known: seq<Id>, items: seq<Item>,
                                              date: int, s: Source, q: Id)
    requires NoRepeats(products)
    ensures Brought(AddNewProducts(db, r, products, known, items, date).batches, s, q)
            == Brought(db.batches, s, q)
               + if s == FromReceipt(r) && q in products && q !in known then Demand(items, q) else 0
    decreases |products|
  {
    if products != [] {
      var before, p := products[..|products| - 1], products[|products| - 1];
      NewProductsBrought(db, r, before, known, items, date, s, q);
      assert products == before + [p];
      if p !in known {
        BroughtAdd(AddNewProducts(db, r, before, known, items, date), p, Demand(items, p), FirstPrice(items, p),
                   FromReceipt(r), date, s, q);
      }
    }
  }

  lemma {:induction false} ItemProductsOnce(items: seq<Item>)
    ensures NoRepeats(ItemProducts(items))
    decreases |items|
  {
    if items != [] {
      ItemProductsOnce(items[..|items| - 1]);
    }
  }

  lemma {:induction false} NoDemand(items: seq<Item>, p: Id)
    requires p !in ItemProducts(items)
    ensures Demand(items, p) == 0
  {
    SumZero(items, DemandOf(p));
  }

  /** After the edit the receipt's batches total what its new items say; the batches of
      other documents are untouched. */
  lemma {:induction false} EditStockBrought(db: Db, id: Id, items: seq<Item>, date: int, s: Source, p: Id)
    requires Sound(db.batches, db.rows, db.nextId) && Conserved(db.batches, db.rows)
    requires EditStock(db, id, items, date).Ok?
    ensures Brought(EditStock(db, id, items, date).value.batches, s, p)
            == if s == FromReceipt(id) then Demand(items, p) else Brought(db.batches, s, p)
  {
    var known := BatchProducts(db.batches, id);
    H.BatchProductsOnce(db.batches, id);
    assert known[..|known|] == known;
    forall j | 0 <= j < |known|
      ensures HasGroup(db.batches, id, known[j])
    {
      assert known[j] in known;
    }
    EditProductsBrought(db, id, known, items, |known|);
    ItemProductsOnce(items);
    NewProductsBrought(EditProducts(db, id, known, items).value, id, ItemProducts(items), known, items, date, s, p);
    if s == FromReceipt(id) && p !in known {
      BroughtNone(db.batches, s, p);
      if p !in ItemProducts(items) {
        NoDemand(items, p);
      }
    }
  }

  lemma {:induction false} UpdateReceiptMatched(db: Db, id: Id, patch: Patch)
    requires Ledger(db) && Matched(db.docs, db.batches) && UpdateReceipt(db, id, patch).Ok?
    ensures var db' := UpdateReceipt(db, id, patch).value; Matched(db'.docs, db'.batches)
  {
    var db' := UpdateReceipt(db, id, patch).value;
    var items := Or(patch.items, []);
    var edited := db.docs[id].(date := patch.date.value, warehouse := patch.warehouse, items := items,
                               amount := ItemsTotal(items));
    var renamed := db.(docs := db.docs[id := edited]);
    forall s: Source, p: Id {:trigger Brought(db'.batches, s, p)} | !s.Arrival?
      ensures Brought(db'.batches, s, p) == Supplied(db'.docs, s, p)
    {
      assert Brought(db.batches, s, p) == Supplied(db.docs, s, p);
      if edited.posted {
        EditStockBrought(renamed, id, items, patch.date.value, s, p);
        EditProductsKeeps(renamed, id, BatchProducts(db.batches, id), items);
      }
    }
  }

  // ---- every request

  /** What posted documents say is all that counts. */
  lemma {:induction false} SuppliedSame(docs: map<Id, Doc>, docs': map<Id, Doc>, bs: seq<Batch>)
    requires Matched(docs, bs)
    requires forall d :: IsPosted(docs', d) && !Outgoing(docs'[d].kind) ==> IsPosted(docs, d) && docs[d] == docs'[d]
    requires forall d :: IsPosted(docs, d) && !Outgoing(docs[d].kind) ==> IsPosted(docs', d) && docs'[d] == docs[d]
    ensures Matched(docs', bs)
  {
    forall s: Source, p: Id {:trigger Brought(bs, s, p)} | !s.Arrival?
      ensures Brought(bs, s, p) == Supplied(docs', s, p)
    {
      assert Brought(bs, s, p) == Supplied(docs, s, p);
    }
  }

  lemma {:induction false} RefilledMatched(docs: map<Id, Doc>, bs: seq<Batch>, rows: seq<Row>, bs': seq<Batch>,
                                           rows': seq<Row>)
    requires Matched(docs, bs) && Refilled(bs, rows, bs', rows')
    ensures Matched(docs, bs')
  {
    forall s: Source, p: Id {:trigger Brought(bs', s, p)} | !s.Arrival?
      ensures Brought(bs', s, p) == Supplied(docs, s, p)
    {
      BroughtSame(bs, bs', s, p);
      assert Brought(bs, s, p) == Supplied(docs, s, p);
    }
  }

  lemma {:induction false} ShippingMatched(db: Db, step: Step)
    requires Ledger(db) && Matched(db.docs, db.batches) && Next(db, step).Ok? && H.Shipping(db.docs, step)
    ensures var db' := Next(db, step).value; Matched(db'.docs, db'.batches)
  {
    var db' := Next(db, step).value;
    H.ShippingRefills(db, step);
    RefilledMatched(db.docs, db.batches, db.rows, db'.batches, db'.rows);
    SuppliedSame(db.docs, db'.docs, db'.batches);
  }

  lemma {:induction false} NextMatched(db: Db, step: Step)
    requires Ledger(db) && Matched(db.docs, db.batches) && Next(db, step).Ok?
    ensures var db' := Next(db, step).value; Matched(db'.docs, db'.batches)
  {
    var db' := Next(db, step).value;
    match step
    case Arrive(product, q, price, at) =>
      forall s: Source, p: Id {:trigger Brought(db'.batches, s, p)} | !s.Arrival?
        ensures Brought(db'.batches, s, p) == Supplied(db'.docs, s, p)
      {
        BroughtAdd(db, product, q, price, Arrival, at, s, p);
      }
    case New(_, _, _, _, _, _) => SuppliedSame(db.docs, db'.docs, db.batches);
    case Remove(_) => SuppliedSame(db.docs, db'.docs, db.batches);
    case Edit(id, patch) =>
      if db.docs[id].kind.GoodsReceipt? {
        UpdateReceiptMatched(db, id, patch);
      } else {
        SuppliedSame(db.docs, db'.docs, db.batches);
      }
    case Post(id) =>
      match db.docs[id].kind {
        case GoodsReceipt => PostReceiptMatched(db, id);
        case BuyerReturn => PostReturnMatched(db, id);
        case Sale => ShippingMatched(db, step);
        case SupplierReturn => ShippingMatched(db, step);
      }
    case Unpost(id) =>
      match db.docs[id].kind {
        case GoodsReceipt => UnpostReceiptMatched(db, id);
        case BuyerReturn => UnpostReturnMatched(db, id);
        case Sale => ShippingMatched(db, step);
        case SupplierReturn => ShippingMatched(db, step);
      }
  }

  /** In every run, edits of posted receipts included, the batches of each posted receipt
      total what its items say of each product, each item of a posted buyer return has
      batches of exactly its quantity, and other documents have none. */
  lemma {:induction false} MatchedOverRuns(steps: seq<Step>)
    ensures Matched(Run(EmptyDb, steps).docs, Run(EmptyDb, steps).batches)
    decreases |steps|
  {
    if steps != [] {
      var before := Run(EmptyDb, steps[..|steps| - 1]);
      MatchedOverRuns(steps[..|steps| - 1]);
      LedgerOverRuns(steps[..|steps| - 1]);
      if Next(before, steps[|steps| - 1]).Ok? {
        NextMatched(before, steps[|steps| - 1]);
      }
    }
  }

  // ---- rows against items

  /** A row draws on a document's batch of this product. */
  ghost predicate Draws(bs: seq<Batch>, r: Row, product: Id) {
    forall b :: b in bs && b.id == r.batch ==> b.product == product && !b.source.Arrival?
  }

  /** A row draws on a document's batch of the product of the item it was written for. */
  ghost predicate Fits(docs: map<Id, Doc>, bs: seq<Batch>, r: Row) {
    && r.doc in docs && r.item < |docs[r.doc].items|
    && Draws(bs, r, docs[r.doc].items[r.item].product)
  }

  ghost predicate Fitting(db: Db) {
    forall r :: r in db.rows ==> Fits(db.docs, db.batches, r)
  }

  /** Where a batch may come from in a step that writes no row. */
  ghost predicate Follows(db: Db, b: Batch) {
    b.id >= db.nextId || exists a :: a in db.batches && SameSlot(a, b)
  }

  lemma {:induction false} FittingKept(db: Db, db': Db)
    requires Fitting(db) && Sound(db.batches, db.rows, db.nextId)
    requires forall r :: r in db'.rows ==> r in db.rows
    requires forall r :: r in db'.rows ==> r.doc in db'.docs && db'.docs[r.doc].items == db.docs[r.doc].items
    requires forall b :: b in db'.batches ==> Follows(db, b)
    ensures Fitting(db')
  {
    forall r | r in db'.rows
      ensures Fits(db'.docs, db'.batches, r)
    {
      assert Fits(db.docs, db.batches, r);
      forall b | b in db'.batches && b.id == r.batch
        ensures b.product == db'.docs[r.doc].items[r.item].product && !b.source.Arrival?
      {
        assert Follows(db, b);
        var c :| c in db.batches && c.id == r.batch;
        assert c.id < db.nextId;
        var a :| a in db.batches && SameSlot(a, b);
      }
    }
  }

  lemma {:induction false} FollowsItself(db: Db, bs: seq<Batch>)
    requires forall b :: b in bs ==> b in db.batches || b.id >= db.nextId
    ensures forall b :: b in bs ==> Follows(db, b)
  {
    assert forall b :: b in db.batches ==> SameSlot(b, b);
  }

  predicate TakenFrom(bs: seq<Batch>, takes: seq<nat>, batch: Id)
    requires |takes| == |bs|
  {
    exists i :: 0 <= i < |bs| && bs[i].id == batch && takes[i] > 0
  }

  lemma {:induction false} RowsTaken(bs: seq<Batch>, takes: seq<nat>, doc: Id, item: nat)
    requires |takes| == |bs|
    ensures forall r :: r in RowsFor(bs, takes, doc, item) ==> TakenFrom(bs, takes, r.batch)
    decreases |bs|
  {
    if bs != [] {
      var n := |bs| - 1;
      RowsTaken(bs[..n], takes[..n], doc, item);
      forall r | r in RowsFor(bs, takes, doc, item)
        ensures TakenFrom(bs, takes, r.batch)
      {
        if r in RowsFor(bs[..n], takes[..n], doc, item) {
          assert TakenFrom(bs[..n], takes[..n], r.batch);
          var i :| 0 <= i < n && bs[..n][i].id == r.batch && takes[..n][i] > 0;
          assert bs[i].id == r.batch && takes[i] > 0;
        } else {
          assert bs[n].id == r.batch && takes[n] > 0;
        }
      }
    }
  }

  /** A deduction draws on documents' batches of its product only. */
  lemma {:induction false} DeductDraws(db: Db, doc: Id, item: nat, product: Id, warehouse: Option<Id>, need: nat)
    requires DistinctIds(db.batches) && Deduct(db, doc, item, product, warehouse, need).Ok?
    ensures var db' := Deduct(db, doc, item, product, warehouse, need).value;
            db.rows <= db'.rows && forall r :: r in Added(db, db') ==> Draws(db.batches, r, product)
  {
    var caps := Caps(db.docs, db.batches, product, warehouse);
    var takes := F.Takes(caps, need);
    var more := RowsFor(db.batches, takes, doc, item);
    assert Added(db, Deduct(db, doc, item, product, warehouse, need).value) == more;
    RowsTaken(db.batches, takes, doc, item);
    F.TakesGreedy(caps, need);
    forall r | r in more
      ensures Draws(db.batches, r, product)
    {
      var i :| 0 <= i < |db.batches| && db.batches[i].id == r.batch && takes[i] > 0;
      assert caps[i] > 0;
    }
  }

  lemma {:induction false} DrawsRefilled(bs: seq<Batch>, rows: seq<Row>, bs': seq<Batch>, rows': seq<Row>, r: Row,
                                         product: Id)
    requires Refilled(bs, rows, bs', rows')
    ensures Draws(bs', r, product) <==> Draws(bs, r, product)
  {
    if Draws(bs, r, product) {
      forall b | b in bs' && b.id == r.batch
        ensures b.product == product && !b.source.Arrival?
      {
        var i :| 0 <= i < |bs'| && bs'[i] == b;
        assert bs[i] in bs;
      }
    }
    if Draws(bs', r, product) {
      forall b | b in bs && b.id == r.batch
        ensures b.product == product && !b.source.Arrival?
      {
        var i :| 0 <= i < |bs| && bs[i] == b;
        assert bs'[i] in bs';
      }
    }
  }

  /** The rows a document adds draw on batches of the product of their item. */
  ghost predicate AddsFitting(db: Db, db': Db, items: seq<Item>) {
    && db.rows <= db'.rows
    && forall r :: r in Added(db, db') ==> r.item < |items| && Draws(db.batches, r, items[r.item].product)
  }

  lemma {:induction false} DeductItemsFit(db: Db, doc: Id, warehouse: Option<Id>, items: seq<Item>)
    requires Sound(db.batches, db.rows, db.nextId) && DeductItems(db, doc, warehouse, items).Ok?
    ensures AddsFitting(db, DeductItems(db, doc, warehouse, items).value, items)
    decreases |items|
  {
    if items == [] {
      assert Added(db, db) == [];
    } else {
      var n := |items| - 1;
      var mid, last := DeductItems(db, doc, warehouse, items[..n]).value, items[n];
      DeductItemsFit(db, doc, warehouse, items[..n]);
      DeductItemsKeeps(db, doc, warehouse, items[..n]);
      DeductItemsRefills(db, doc, warehouse, items[..n]);
      DeductDraws(mid, doc, n, last.product, warehouse, last.quantity);
      DeductKeeps(mid, doc, n, last.product, warehouse, last.quantity);
      OneMoreFits(db, mid, DeductItems(db, doc, warehouse, items).value, items);
    }
  }

  lemma {:induction false} OneMoreFits(db: Db, mid: Db, db': Db, items: seq<Item>)
    requires items != [] && AddsFitting(db, mid, items[..|items| - 1]) && mid.rows <= db'.rows
    requires Refilled(db.batches, db.rows, mid.batches, mid.rows)
    requires forall r :: r in Added(mid, db') ==>
               r.item == |items| - 1 && Draws(mid.batches, r, items[|items| - 1].product)
    ensures AddsFitting(db, db', items)
  {
    AddedMembers(db, mid, db');
    forall r | r in Added(db, db')
      ensures r.item < |items| && Draws(db.batches, r, items[r.item].product)
    {
      if r !in Added(db, mid) {
        DrawsRefilled(db.batches, db.rows, mid.batches, mid.rows, r, items[|items| - 1].product);
      }
    }
  }

  lemma {:induction false} DeductedFits(db: Db, id: Id, docs': map<Id, Doc>)
    requires Ledger(db) && Fitting(db) && id in db.docs
    requires DeductItems(db, id, db.docs[id].warehouse, db.docs[id].items).Ok?
    requires id in docs' && docs' == db.docs[id := docs'[id]] && docs'[id].items == db.docs[id].items
    ensures Fitting(DeductItems(db, id, db.docs[id].warehouse, db.docs[id].items).value.(docs := docs'))
  {
    var warehouse, items := db.docs[id].warehouse, db.docs[id].items;
    DeductItemsFit(db, id, warehouse, items);
    DeductItemsKeeps(db, id, warehouse, items);
    DeductItemsRefills(db, id, warehouse, items);
    AddedFits(db, id, DeductItems(db, id, warehouse, items).value, docs');
  }

  lemma {:induction false} AddedFits(db: Db, id: Id, deducted: Db, docs': map<Id, Doc>)
    requires Fitting(db) && id in db.docs && AddsFitting(db, deducted, db.docs[id].items)
    requires forall r :: r in Added(db, deducted) ==> r.doc == id
    requires Refilled(db.batches, db.rows, deducted.batches, deducted.rows)
    requires id in docs' && docs' == db.docs[id := docs'[id]] && docs'[id].items == db.docs[id].items
    ensures Fitting(deducted.(docs := docs'))
  {
    forall r | r in deducted.rows
      ensures Fits(docs', deducted.batches, r)
    {
      assert deducted.rows == db.rows + Added(db, deducted);
      assert r in db.rows ==> Fits(db.docs, db.batches, r);
      DrawsRefilled(db.batches, db.rows, deducted.batches, deducted.rows, r, docs'[r.doc].items[r.item].product);
    }
  }

  lemma {:induction false} UnpostFits(db: Db, id: Id)
    requires Ledger(db) && Fitting(db) && UnpostDoc(db, id).Ok?
    ensures Fitting(UnpostDoc(db, id).value)
  {
    var db' := UnpostDoc(db, id).value;
    if Outgoing(db.docs[id].kind) {
      ReturnFits(db, id, db');
    } else {
      FollowsItself(db, db'.batches);
      FittingKept(db, db');
    }
  }

  lemma {:induction false} ReturnFits(db: Db, id: Id, db': Db)
    requires Ledger(db) && Fitting(db) && id in db.docs && id in db'.docs
    requires db'.batches == Return(db, id).batches && db'.rows == Return(db, id).rows
    requires db'.docs == db.docs[id := db'.docs[id]] && db'.docs[id].items == db.docs[id].items
    ensures Fitting(db')
  {
    forall b | b in db'.batches
      ensures Follows(db, b)
    {
      var i :| 0 <= i < |db'.batches| && db'.batches[i] == b;
      assert db.batches[i] in db.batches && SameSlot(db.batches[i], b);
    }
    FittingKept(db, db');
  }

  lemma {:induction false} PostFits(db: Db, id: Id)
    requires Ledger(db) && Fitting(db) && PostDoc(db, id).Ok?
    ensures Fitting(PostDoc(db, id).value)
  {
    var doc := db.docs[id];
    match doc.kind
    case GoodsReceipt =>
      AddReceiptItemsKeeps(db, id, doc.items, doc.date);
      FollowsItself(db, PostReceipt(db, id).value.batches);
      FittingKept(db, PostReceipt(db, id).value);
    case BuyerReturn =>
      RestockItemsKeeps(db, id, doc.items, doc.date);
      FollowsItself(db, PostReturn(db, id).value.batches);
      FittingKept(db, PostReturn(db, id).value);
    case Sale => DeductedFits(db, id, PostSale(db, id).value.docs);
    case SupplierReturn => DeductedFits(db, id, PostSupplierReturn(db, id).value.docs);
  }

  /** An edited receipt, posted or not, writes no row and moves no batch to another product. */
  lemma {:induction false} UpdateReceiptFits(db: Db, id: Id, patch: Patch)
    requires Ledger(db) && Fitting(db) && UpdateReceipt(db, id, patch).Ok?
    ensures Fitting(UpdateReceipt(db, id, patch).value)
  {
    var db' := UpdateReceipt(db, id, patch).value;
    UpdateReceiptKeeps(db, id, patch);
    H.UpdateReceiptDocs(db, id, patch);
    UpdateReceiptFollows(db, id, patch);
    forall r | r in db'.rows
      ensures r.doc in db'.docs && db'.docs[r.doc].items == db.docs[r.doc].items
    {
      assert RowOk(db.docs, r) && RowOk(db'.docs, r);
    }
    FittingKept(db, db');
  }

  lemma {:induction false} UpdateReceiptFollows(db: Db, id: Id, patch: Patch)
    requires Ledger(db) && UpdateReceipt(db, id, patch).Ok?
    ensures forall b :: b in UpdateReceipt(db, id, patch).value.batches ==> Follows(db, b)
  {
    var items := Or(patch.items, []);
    var edited := db.docs[id].(date := patch.date.value, warehouse := patch.warehouse, items := items,
                               amount := ItemsTotal(items));
    var renamed := db.(docs := db.docs[id := edited]);
    if edited.posted {
      EditStockFollows(renamed, id, items, patch.date.value);
    } else {
      FollowsItself(db, db.batches);
    }
  }

  lemma {:induction false} EditStockFollows(db: Db, id: Id, items: seq<Item>, date: int)
    requires Sound(db.batches, db.rows, db.nextId) && Conserved(db.batches, db.rows)
    requires EditStock(db, id, items, date).Ok?
    ensures forall b :: b in EditStock(db, id, items, date).value.batches ==> Follows(db, b)
  {
    var known := BatchProducts(db.batches, id);
    var resized := EditProducts(db, id, known, items).value;
    EditProductsKeeps(db, id, known, items);
    AddNewProductsKeeps(resized, id, ItemProducts(items), known, items, date);
  }

  lemma {:induction false} NextFits(db: Db, step: Step)
    requires Ledger(db) && Fitting(db) && Next(db, step).Ok?
    ensures Fitting(Next(db, step).value)
  {
    match step
    case Arrive(product, q, price, at) =>
      AddStockGrows(db, product, q, price, Arrival, at);
      FollowsItself(db, Next(db, step).value.batches);
      FittingKept(db, Next(db, step).value);
    case New(_, _, _, _, _, _) => PaperworkFits(db, step);
    case Remove(_) => PaperworkFits(db, step);
    case Edit(id, patch) =>
      if db.docs[id].kind.GoodsReceipt? {
        UpdateReceiptFits(db, id, patch);
      } else {
        PaperworkFits(db, step);
      }
    case Post(id) => PostFits(db, id);
    case Unpost(id) => UnpostFits(db, id);
  }

  lemma {:induction false} PaperworkFits(db: Db, step: Step)
    requires Ledger(db) && Fitting(db) && Next(db, step).Ok?
    requires step.New? || step.Remove? || (step.Edit? && !IsPosted(db.docs, step.id))
    ensures Fitting(Next(db, step).value)
  {
    var db' := Next(db, step).value;
    forall r | r in db'.rows
      ensures r.doc in db'.docs && db'.docs[r.doc].items == db.docs[r.doc].items
    {
      assert RowOk(db.docs, r);
    }
    FollowsItself(db, db'.batches);
    FittingKept(db, db');
  }

  /** In every run, each allocation row draws on a batch that a document brought, of the
      product of its item; manual arrivals are never drawn on. */
  lemma {:induction false} FittingOverRuns(steps: seq<Step>)
    ensures Fitting(Run(EmptyDb, steps))
    decreases |steps|
  {
    if steps != [] {
      var before := Run(EmptyDb, steps[..|steps| - 1]);
      FittingOverRuns(steps[..|steps| - 1]);
      LedgerOverRuns(steps[..|steps| - 1]);
      if Next(before, steps[|steps| - 1]).Ok? {
        NextFits(before, steps[|steps| - 1]);
      }
    }
  }

  // ---- stock on hand

  predicate Has(b: Batch, p: Id) {
    b.product == p
  }

  function LeftHere(p: Id): Batch -> int {
    (b: Batch) => if Has(b, p) then b.left else 0
  }

  function TotalHere(p: Id): Batch -> int {
    (b: Batch) => if Has(b, p) then b.total else 0
  }

  function UsedHere(rows: seq<Row>, p: Id): Batch -> int {
    (b: Batch) => if Has(b, p) then Used(rows, b.id) else 0
  }

  /** The stock on hand of a product, in every warehouse, as cached. */
  function OnHandQty(bs: seq<Batch>, p: Id): int {
    Sum(bs, LeftHere(p))
  }

  function ArrivedOf(p: Id): Batch -> int {
    (b: Batch) => if b.source.Arrival? && Has(b, p) then b.total else 0
  }

  /** What manual arrivals brought of a product. */
  function Arrived(bs: seq<Batch>, p: Id): int {
    Sum(bs, ArrivedOf(p))
  }

  /** What a document brings of a product, or takes, while it is posted. */
  function Bringing(docs: map<Id, Doc>, p: Id): Id -> int {
    (d: Id) => if IsPosted(docs, d) && !Outgoing(docs[d].kind) then Demand(docs[d].items, p) else 0
  }

  function Taking(docs: map<Id, Doc>, p: Id): Id -> int {
    (d: Id) => if IsPosted(docs, d) && Outgoing(docs[d].kind) then Demand(docs[d].items, p) else 0
  }

  /** What remains on hand according to the cache is what came in less what rows took. */
  lemma {:induction false} LeftIsTotalLessUsed(bs: seq<Batch>, rows: seq<Row>, p: Id)
    requires Conserved(bs, rows)
    ensures OnHandQty(bs, p) == Sum(bs, TotalHere(p)) - Sum(bs, UsedHere(rows, p))
  {
    var keep := (b: Batch) => Has(b, p);
    NoGapWhere(bs, rows, keep);
    var net := (b: Batch) => LeftHere(p)(b) + UsedHere(rows, p)(b);
    SumPlus(bs, LeftHere(p), UsedHere(rows, p), net);
    SumPlus(bs, net, GapWhere(rows, keep), TotalHere(p));
  }

  /** A value that one id of a list stands for is counted once. */
  lemma {:induction false} CountedOnce(ids: seq<Id>, d: Id, f: Id -> int)
    requires NoRepeats(ids) && d in ids && forall x :: x in ids && x != d ==> f(x) == 0
    ensures Sum(ids, f) == f(d)
  {
    var k :| 0 <= k < |ids| && ids[k] == d;
    SumSingle(ids, k, f);
  }

  // ---- what came in

  /** What one batch brought of a product for one document. */
  function BatchBrings(b: Batch, d: Id, p: Id): int {
    if !b.source.Arrival? && b.source.doc == d && Has(b, p) then b.total else 0
  }

  function FromDoc(d: Id, p: Id): Batch -> int {
    (b: Batch) => BatchBrings(b, d, p)
  }

  function FromReturnBelow(d: Id, p: Id, n: nat): Batch -> int {
    (b: Batch) => if b.source.FromReturn? && b.source.doc == d && b.source.item < n && Has(b, p) then b.total else 0
  }

  lemma {:induction false} ReturnBrought(db: Db, d: Id, p: Id, n: nat)
    requires Matched(db.docs, db.batches) && IsPosted(db.docs, d) && db.docs[d].kind.BuyerReturn?
    requires n <= |db.docs[d].items|
    ensures Sum(db.batches, FromReturnBelow(d, p, n)) == Demand(db.docs[d].items[..n], p)
    decreases n
  {
    if n == 0 {
      SumZero(db.batches, FromReturnBelow(d, p, 0));
    } else {
      var items := db.docs[d].items;
      ReturnBrought(db, d, p, n - 1);
      SumPlus(db.batches, FromReturnBelow(d, p, n - 1), BroughtOf(FromReturn(d, n - 1), p), FromReturnBelow(d, p, n));
      assert Brought(db.batches, FromReturn(d, n - 1), p) == Supplied(db.docs, FromReturn(d, n - 1), p);
      DemandSnoc(items[..n], p);
      assert items[..n][..n - 1] == items[..n - 1];
    }
  }

  lemma {:induction false} DocBrought(db: Db, d: Id, p: Id)
    requires Ledger(db) && Matched(db.docs, db.batches)
    ensures Sum(db.batches, FromDoc(d, p)) == Bringing(db.docs, p)(d)
  {
    forall b | b in db.batches
      ensures SourceOk(db.docs, b.source)
    {
    }
    if !IsPosted(db.docs, d) || Outgoing(db.docs[d].kind) {
      SumZero(db.batches, FromDoc(d, p));
    } else if db.docs[d].kind.GoodsReceipt? {
      SumSame(db.batches, db.batches, FromDoc(d, p), BroughtOf(FromReceipt(d), p));
      assert Brought(db.batches, FromReceipt(d), p) == Supplied(db.docs, FromReceipt(d), p);
    } else {
      var items := db.docs[d].items;
      ReturnBrought(db, d, p, |items|);
      assert items[..|items|] == items;
      SumSame(db.batches, db.batches, FromDoc(d, p), FromReturnBelow(d, p, |items|));
    }
  }

  function NotArrivedOf(p: Id): Batch -> int {
    (b: Batch) => if !b.source.Arrival? && Has(b, p) then b.total else 0
  }

  function FromBatch(b: Batch, p: Id): Id -> int {
    (d: Id) => BatchBrings(b, d, p)
  }

  /** Everything on the shelves came from an arrival or from a posted document. */
  lemma {:induction false} TotalBrought(db: Db, ids: seq<Id>, p: Id)
    requires Ledger(db) && Matched(db.docs, db.batches)
    requires NoRepeats(ids) && forall d :: d in ids <==> d in db.docs
    ensures Sum(db.batches, TotalHere(p)) == Arrived(db.batches, p) + Sum(ids, Bringing(db.docs, p))
  {
    SumPlus(db.batches, ArrivedOf(p), NotArrivedOf(p), TotalHere(p));
    var h, k := (b: Batch) => FromBatch(b, p), (d: Id) => FromDoc(d, p);
    forall b | b in db.batches
      ensures NotArrivedOf(p)(b) == Sum(ids, h(b))
    {
      BatchCounted(db, ids, p, b);
    }
    forall d | d in ids
      ensures Bringing(db.docs, p)(d) == Sum(db.batches, k(d))
    {
      DocBrought(db, d, p);
    }
    SumExchange(db.batches, ids, h, k, NotArrivedOf(p), Bringing(db.docs, p));
  }

  lemma {:induction false} BatchCounted(db: Db, ids: seq<Id>, p: Id, b: Batch)
    requires Ledger(db) && b in db.batches && NoRepeats(ids) && forall d :: d in ids <==> d in db.docs
    ensures NotArrivedOf(p)(b) == Sum(ids, FromBatch(b, p))
  {
    if b.source.Arrival? {
      SumZero(ids, FromBatch(b, p));
    } else {
      assert SourceOk(db.docs, b.source);
      CountedOnce(ids, b.source.doc, FromBatch(b, p));
    }
  }

  // ---- what was taken

  /** The product a row was written for. */
  function RowTakes(docs: map<Id, Doc>, r: Row, p: Id): int {
    if r.doc in docs && r.item < |docs[r.doc].items| && docs[r.doc].items[r.item].product == p then r.qty else 0
  }

  function TakenOf(docs: map<Id, Doc>, p: Id): Row -> int {
    (r: Row) => RowTakes(docs, r, p)
  }

  /** What one row takes of a product from one batch. */
  function RowUses(b: Batch, r: Row, p: Id): int {
    if Has(b, p) && r.batch == b.id then r.qty else 0
  }

  function UsedFrom(b: Batch, p: Id): Row -> int {
    (r: Row) => RowUses(b, r, p)
  }

  function UsedBatch(r: Row, p: Id): Batch -> int {
    (b: Batch) => RowUses(b, r, p)
  }

  /** Counted over batches or over rows, the same was taken. */
  lemma {:induction false} UsedIsTaken(db: Db, p: Id)
    requires Ledger(db) && Fitting(db)
    ensures Sum(db.batches, UsedHere(db.rows, p)) == Sum(db.rows, TakenOf(db.docs, p))
  {
    var h, k := (b: Batch) => UsedFrom(b, p), (r: Row) => UsedBatch(r, p);
    forall b | b in db.batches
      ensures UsedHere(db.rows, p)(b) == Sum(db.rows, h(b))
    {
      if Has(b, p) {
        SumSame(db.rows, db.rows, UsedFrom(b, p), UsedOf(b.id));
      } else {
        SumZero(db.rows, UsedFrom(b, p));
      }
    }
    forall r | r in db.rows
      ensures TakenOf(db.docs, p)(r) == Sum(db.batches, k(r))
    {
      RowCounted(db, p, r);
    }
    SumExchange(db.batches, db.rows, h, k, UsedHere(db.rows, p), TakenOf(db.docs, p));
  }

  lemma {:induction false} RowCounted(db: Db, p: Id, r: Row)
    requires Ledger(db) && Fitting(db) && r in db.rows
    ensures TakenOf(db.docs, p)(r) == Sum(db.batches, UsedBatch(r, p))
  {
    assert Fits(db.docs, db.batches, r);
    var c :| c in db.batches && c.id == r.batch;
    var i :| 0 <= i < |db.batches| && db.batches[i] == c;
    SumSingle(db.batches, i, UsedBatch(r, p));
  }

  function TakenBelow(d: Id, items: seq<Item>, p: Id, n: nat): Row -> int
    requires n <= |items|
  {
    (r: Row) => if r.doc == d && r.item < n && items[r.item].product == p then r.qty else 0
  }

  /** The first `n` items of a document are fully backed as far as they are of this product. */
  ghost predicate BackedTo(db: Db, d: Id, p: Id, n: nat)
    requires d in db.docs && n <= |db.docs[d].items|
  {
    forall i {:trigger Backing(db.rows, d, i)} :: 0 <= i < n && db.docs[d].items[i].product == p ==>
      Backing(db.rows, d, i) == db.docs[d].items[i].quantity
  }

  lemma {:induction false} ItemTaken(db: Db, d: Id, p: Id, n: nat)
    requires d in db.docs && n < |db.docs[d].items|
    ensures var items := db.docs[d].items;
            Sum(db.rows, TakenBelow(d, items, p, n + 1))
            == Sum(db.rows, TakenBelow(d, items, p, n)) + if items[n].product == p then Backing(db.rows, d, n) else 0
  {
    var items := db.docs[d].items;
    if items[n].product == p {
      SumPlus(db.rows, TakenBelow(d, items, p, n), BackingOf(d, n), TakenBelow(d, items, p, n + 1));
    } else {
      SumSame(db.rows, db.rows, TakenBelow(d, items, p, n + 1), TakenBelow(d, items, p, n));
    }
  }

  lemma {:induction false} ItemsTaken(db: Db, d: Id, p: Id, n: nat)
    requires H.Within(db) && IsPosted(db.docs, d) && Outgoing(db.docs[d].kind) && n <= |db.docs[d].items|
    ensures Sum(db.rows, TakenBelow(d, db.docs[d].items, p, n)) <= Demand(db.docs[d].items[..n], p)
    ensures Sum(db.rows, TakenBelow(d, db.docs[d].items, p, n)) == Demand(db.docs[d].items[..n], p)
            <==> BackedTo(db, d, p, n)
    decreases n
  {
    var items := db.docs[d].items;
    if n == 0 {
      SumZero(db.rows, TakenBelow(d, items, p, 0));
    } else {
      ItemsTaken(db, d, p, n - 1);
      ItemTaken(db, d, p, n - 1);
      DemandSnoc(items[..n], p);
      assert items[..n][..n - 1] == items[..n - 1];
      assert Backing(db.rows, d, n - 1) <= items[n - 1].quantity;
    }
  }

  function RowTakesFor(docs: map<Id, Doc>, r: Row, d: Id, p: Id): int {
    if r.doc == d then RowTakes(docs, r, p) else 0
  }

  function TakenBy(docs: map<Id, Doc>, d: Id, p: Id): Row -> int {
    (r: Row) => RowTakesFor(docs, r, d, p)
  }

  /** The items of this product of a posted sale or supplier return are fully backed. */
  ghost predicate BackedIn(db: Db, d: Id, p: Id) {
    IsPosted(db.docs, d) && Outgoing(db.docs[d].kind) ==> BackedTo(db, d, p, |db.docs[d].items|)
  }

  function TakenFor(db: Db, p: Id): Id -> int {
    (d: Id) => Sum(db.rows, TakenBy(db.docs, d, p))
  }

  lemma {:induction false} DocTaken(db: Db, d: Id, p: Id)
    requires Ledger(db) && H.Within(db)
    ensures TakenFor(db, p)(d) <= Taking(db.docs, p)(d)
    ensures TakenFor(db, p)(d) == Taking(db.docs, p)(d) <==> BackedIn(db, d, p)
  {
    if IsPosted(db.docs, d) && Outgoing(db.docs[d].kind) {
      var items := db.docs[d].items;
      ItemsTaken(db, d, p, |items|);
      assert items[..|items|] == items;
      SumSame(db.rows, db.rows, TakenBy(db.docs, d, p), TakenBelow(d, items, p, |items|));
    } else {
      forall r | r in db.rows
        ensures r.doc != d
      {
        assert RowOk(db.docs, r);
      }
      SumZero(db.rows, TakenBy(db.docs, d, p));
    }
  }

  function TakenIn(docs: map<Id, Doc>, r: Row, p: Id): Id -> int {
    (d: Id) => RowTakesFor(docs, r, d, p)
  }

  /** Counted over rows or over documents, the same was taken. */
  lemma {:induction false} TakenByDocument(db: Db, ids: seq<Id>, p: Id)
    requires Ledger(db) && NoRepeats(ids) && forall d :: d in ids <==> d in db.docs
    ensures Sum(db.rows, TakenOf(db.docs, p)) == Sum(ids, TakenFor(db, p))
  {
    var h, k := (r: Row) => TakenIn(db.docs, r, p), (d: Id) => TakenBy(db.docs, d, p);
    forall r | r in db.rows
      ensures TakenOf(db.docs, p)(r) == Sum(ids, h(r))
    {
      assert RowOk(db.docs, r);
      CountedOnce(ids, r.doc, TakenIn(db.docs, r, p));
    }
    SumExchange(db.rows, ids, h, k, TakenOf(db.docs, p), TakenFor(db, p));
  }

  /** Every posted item of this product is fully backed. */
  ghost predicate BackedFor(db: Db, p: Id) {
    forall d :: d in db.docs ==> BackedIn(db, d, p)
  }

  /** All rows together take at most what the posted sales and supplier returns say, and
      exactly that when every item of the product is fully backed. */
  lemma {:induction false} TotalTaken(db: Db, ids: seq<Id>, p: Id)
    requires Ledger(db) && H.Within(db)
    requires NoRepeats(ids) && forall d :: d in ids <==> d in db.docs
    ensures Sum(db.rows, TakenOf(db.docs, p)) <= Sum(ids, Taking(db.docs, p))
    ensures Sum(db.rows, TakenOf(db.docs, p)) == Sum(ids, Taking(db.docs, p)) <==> BackedFor(db, p)
  {
    TakenByDocument(db, ids, p);
    forall d | d in ids
      ensures TakenFor(db, p)(d) <= Taking(db.docs, p)(d)
      ensures TakenFor(db, p)(d) == Taking(db.docs, p)(d) <==> BackedIn(db, d, p)
    {
      DocTaken(db, d, p);
    }
    SumMonotone(ids, TakenFor(db, p), Taking(db.docs, p));
    SumEqual(ids, TakenFor(db, p), Taking(db.docs, p));
  }

  /** What the documents say is on hand of a product: what arrived, plus what the posted
      receipts and buyer returns bring, less what the posted sales and supplier returns take. */
  function OnPaper(db: Db, ids: seq<Id>, p: Id): int {
    Arrived(db.batches, p) + Sum(ids, Bringing(db.docs, p)) - Sum(ids, Taking(db.docs, p))
  }

  /** After every run, for every product, the cached stock on hand is never below what the
      documents say, and it is exactly that if and only if every posted item of the product
      is fully backed. */
  lemma {:induction false} StockIsDocuments(steps: seq<Step>, ids: seq<Id>, p: Id)
    requires NoRepeats(ids) && forall d :: d in ids <==> d in Run(EmptyDb, steps).docs
    ensures var db := Run(EmptyDb, steps);
            && OnHandQty(db.batches, p) >= OnPaper(db, ids, p)
            && (OnHandQty(db.batches, p) == OnPaper(db, ids, p) <==> BackedFor(db, p))
  {
    LedgerOverRuns(steps);
    MatchedOverRuns(steps);
    FittingOverRuns(steps);
    H.WithinOverRuns(steps);
    StockIs(Run(EmptyDb, steps), ids, p);
  }

  lemma {:induction false} StockIs(db: Db, ids: seq<Id>, p: Id)
    requires Ledger(db) && Matched(db.docs, db.batches) && Fitting(db) && H.Within(db)
    requires NoRepeats(ids) && forall d :: d in ids <==> d in db.docs
    ensures OnHandQty(db.batches, p) >= OnPaper(db, ids, p)
    ensures OnHandQty(db.batches, p) == OnPaper(db, ids, p) <==> BackedFor(db, p)
  {
    LeftIsTotalLessUsed(db.batches, db.rows, p);
    TotalBrought(db, ids, p);
    UsedIsTaken(db, p);
    TotalTaken(db, ids, p);
  }
}
