// What posting writes down, batch by batch: product, quantity, price and date of the
// batches of a receipt or a buyer return, and what the dates mean for later deductions.

module Postings {
  import opened Sums
  import opened Fifo
  import opened Tables
  import opened Inventory
  import opened Documents
  import opened Conservation
  import opened Runs
  import H = History
  import O = OnHand

  // ---- the last cost

  /** The `k`-th batch is the youngest of the product, and its price is `c`. */
  ghost predicate YoungestAt(bs: seq<Batch>, p: Id, c: int, k: nat) {
    && k < |bs| && bs[k].product == p && bs[k].price == c
    && forall j :: k < j < |bs| ==> bs[j].product != p
  }

  /** `c` is the price of the youngest batch of the product, or zero when there is none. */
  ghost predicate IsLastCost(bs: seq<Batch>, p: Id, c: int) {
    if exists b :: b in bs && b.product == p then exists k: nat :: YoungestAt(bs, p, c, k) else c == 0
  }

  lemma {:induction false} LastCostIs(bs: seq<Batch>, p: Id)
    ensures IsLastCost(bs, p, LastCost(bs, p))
    decreases |bs|
  {
    if bs != [] {
      var n := |bs| - 1;
      if bs[n].product == p {
        assert YoungestAt(bs, p, bs[n].price, n);
      } else {
        LastCostIs(bs[..n], p);
        LastCostSnoc(bs, p, LastCost(bs[..n], p));
      }
    }
  }

  lemma {:induction false} LastCostSnoc(bs: seq<Batch>, p: Id, c: int)
    requires bs != [] && bs[|bs| - 1].product != p && IsLastCost(bs[..|bs| - 1], p, c)
    ensures IsLastCost(bs, p, c)
  {
    var init := bs[..|bs| - 1];
    assert bs == init + [bs[|bs| - 1]];
    if b :| b in bs && b.product == p {
      assert b in init;
      var k: nat :| YoungestAt(init, p, c, k);
      assert YoungestAt(bs, p, c, k);
    }
  }

  /** One more batch of the product at its last cost, or of another product, leaves the last
      cost alone, wherever its date puts it. */
  lemma {:induction false} LastCostStays(bs: seq<Batch>, b: Batch, p: Id, c: int)
    requires IsLastCost(bs, p, c) && (b.product == p ==> b.price == c)
    ensures IsLastCost(InsertBatch(bs, b), p, c)
  {
    var n := InsertSplits(bs, b, CreatedAt());
    InsertMembers(bs, b, CreatedAt());
    if exists x :: x in bs && x.product == p {
      var k: nat :| YoungestAt(bs, p, c, k);
      StaysYoungest(bs, b, p, c, n, k);
    } else if b.product == p {
      FirstOfProduct(bs, b, n);
    }
  }

  lemma {:induction false} FirstOfProduct(bs: seq<Batch>, b: Batch, n: nat)
    requires n <= |bs| && forall x :: x in bs ==> x.product != b.product
    ensures YoungestAt(bs[..n] + [b] + bs[n..], b.product, b.price, n)
  {
    var r := bs[..n] + [b] + bs[n..];
    forall j | n < j < |r|
      ensures r[j].product != b.product
    {
      assert r[j] == bs[j - 1] && bs[j - 1] in bs;
    }
  }

  lemma {:induction false} StaysYoungest(bs: seq<Batch>, b: Batch, p: Id, c: int, n: nat, k: nat)
    requires n <= |bs| && YoungestAt(bs, p, c, k) && (b.product == p ==> b.price == c)
    ensures exists m: nat :: YoungestAt(bs[..n] + [b] + bs[n..], p, c, m)
  {
    var r := bs[..n] + [b] + bs[n..];
    var m := if k >= n then k + 1 else if b.product == p then n else k;
    forall j | m < j < |r|
      ensures r[j].product != p
    {
      assert r[j] == if j < n then bs[j] else if j == n then b else bs[j - 1];
    }
    assert r[m] == if m < n then bs[m] else if m == n then b else bs[m - 1];
    assert YoungestAt(r, p, c, m);
  }

  lemma {:induction false} OneLastCost(bs: seq<Batch>, p: Id, c: int, c': int)
    requires IsLastCost(bs, p, c) && IsLastCost(bs, p, c')
    ensures c == c'
  {
    if exists b :: b in bs && b.product == p {
      var k: nat :| YoungestAt(bs, p, c, k);
      var k': nat :| YoungestAt(bs, p, c', k');
      assert k == k';
    }
  }

  /** So far every product still has the last cost it had, and every batch of the return was
      restocked at it. */
  ghost predicate RestockedAtLast(bs: seq<Batch>, bs': seq<Batch>, doc: Id) {
    && (forall p, c :: IsLastCost(bs, p, c) ==> IsLastCost(bs', p, c))
    && forall b :: b in bs' && b.source.FromReturn? && b.source.doc == doc ==> IsLastCost(bs, b.product, b.price)
  }

  lemma {:induction false} RestockOneAtLast(bs: seq<Batch>, bs': seq<Batch>, doc: Id, b: Batch)
    requires RestockedAtLast(bs, bs', doc) && b.price == LastCost(bs', b.product)
    ensures RestockedAtLast(bs, InsertBatch(bs', b), doc)
  {
    var p := b.product;
    LastCostIs(bs, p);
    LastCostIs(bs', p);
    OneLastCost(bs', p, LastCost(bs, p), b.price);
    InsertMembers(bs', b, CreatedAt());
    forall q, c | IsLastCost(bs, q, c)
      ensures IsLastCost(InsertBatch(bs', b), q, c)
    {
      if q == p {
        OneLastCost(bs, p, c, b.price);
      }
      LastCostStays(bs', b, q, c);
    }
  }

  lemma {:induction false} RestockItemsAtLast(db: Db, doc: Id, items: seq<Item>, date: int)
    requires forall b :: b in db.batches ==> !(b.source.FromReturn? && b.source.doc == doc)
    ensures RestockedAtLast(db.batches, RestockItems(db, doc, items, date).db.batches, doc)
    decreases |items|
  {
    if items != [] {
      var n := |items| - 1;
      var item, before := items[n], RestockItems(db, doc, items[..n], date).db;
      RestockItemsAtLast(db, doc, items[..n], date);
      var cost := LastCost(before.batches, item.product);
      RestockOneAtLast(db.batches, before.batches, doc,
                       Batch(before.nextId, item.product, item.quantity, item.quantity, cost,
                             FromReturn(doc, n), date));
    }
  }

  /** Every item of a buyer return is restocked at the price of the youngest batch its product
      had before the return was posted, in whatever warehouse that lies, and at zero when the
      product had none. */
  lemma {:induction false} RestocksAtLastCost(db: Db, id: Id)
    requires Ledger(db) && PostReturn(db, id).Ok?
    ensures forall b :: b in PostReturn(db, id).value.batches && b.source.FromReturn? && b.source.doc == id ==>
              IsLastCost(db.batches, b.product, b.price)
  {
    forall b | b in db.batches
      ensures !(b.source.FromReturn? && b.source.doc == id)
    {
      assert SourceOk(db.docs, b.source);
    }
    RestockItemsAtLast(db, id, db.docs[id].items, db.docs[id].date);
  }

  // ---- the batches of a document

  /** What a batch was created with. */
  datatype Slip = Slip(source: Source, product: Id, quantity: int, price: int, date: int)

  function SlipOf(): Batch -> Slip {
    (b: Batch) => Slip(b.source, b.product, b.total, b.price, b.createdAt)
  }

  function Of(d: Id): Batch -> bool {
    (b: Batch) => !b.source.Arrival? && b.source.doc == d
  }

  /** The slips of a document's batches, in table order. */
  function Slips(bs: seq<Batch>, d: Id): seq<Slip> {
    Map(Filter(bs, Of(d)), SlipOf())
  }

  lemma {:induction false} SlipsSame(bs: seq<Batch>, bs': seq<Batch>, d: Id)
    requires |bs'| == |bs|
    requires forall i :: 0 <= i < |bs| ==>
               bs'[i].source == bs[i].source && (Of(d)(bs[i]) ==> SlipOf()(bs'[i]) == SlipOf()(bs[i]))
    ensures Slips(bs', d) == Slips(bs, d)
    decreases |bs|
  {
    if bs != [] {
      var n := |bs| - 1;
      SlipsSame(bs[..n], bs'[..n], d);
      SlipsLast(bs, d);
      SlipsLast(bs', d);
    }
  }

  lemma {:induction false} SlipsLast(bs: seq<Batch>, d: Id)
    requires bs != []
    ensures var n := |bs| - 1;
            Slips(bs, d) == Slips(bs[..n], d) + if Of(d)(bs[n]) then [SlipOf()(bs[n])] else []
  {
    var n := |bs| - 1;
    MapAppend(Filter(bs[..n], Of(d)), if Of(d)(bs[n]) then [bs[n]] else [], SlipOf());
  }

  lemma {:induction false} MapAppend<T, U>(a: seq<T>, b: seq<T>, f: T -> U)
    ensures Map(a + b, f) == Map(a, f) + Map(b, f)
  {
  }

  lemma {:induction false} SlipsOther(bs: seq<Batch>, b: Batch, d: Id)
    requires !Of(d)(b)
    ensures Slips(InsertBatch(bs, b), d) == Slips(bs, d)
  {
    var k := InsertSplits(bs, b, CreatedAt());
    assert bs == bs[..k] + bs[k..];
    FilterSkips(bs[..k], b, bs[k..], Of(d));
  }

  /** A batch of the document goes behind those it already has, if none of them is younger. */
  lemma {:induction false} SlipsNext(bs: seq<Batch>, b: Batch, d: Id)
    requires Of(d)(b) && forall x :: x in bs && Of(d)(x) ==> x.createdAt <= b.createdAt
    ensures Slips(InsertBatch(bs, b), d) == Slips(bs, d) + [SlipOf()(b)]
  {
    FilterNext(bs, b, d);
    MapAppend(Filter(bs, Of(d)), [b], SlipOf());
    assert Map([b], SlipOf()) == [SlipOf()(b)];
  }

  lemma {:induction false} FilterNext(bs: seq<Batch>, b: Batch, d: Id)
    requires Of(d)(b) && forall x :: x in bs && Of(d)(x) ==> x.createdAt <= b.createdAt
    ensures Filter(InsertBatch(bs, b), Of(d)) == Filter(bs, Of(d)) + [b]
  {
    var k := InsertSplits(bs, b, CreatedAt());
    assert bs == bs[..k] + bs[k..];
    forall x | x in bs[k..]
      ensures !Of(d)(x)
    {
      var i :| k <= i < |bs| && bs[i] == x;
      assert CreatedAt()(b) < CreatedAt()(x);
    }
    FilterAppends(bs[..k], b, bs[k..], Of(d));
  }

  lemma {:induction false} SlipsDelete(db: Db, doomed: set<Id>, d: Id)
    requires forall b :: b in db.batches && Of(d)(b) ==> b.id !in doomed
    ensures Slips(DeleteBatches(db, doomed).batches, d) == Slips(db.batches, d)
  {
    FilterTwice(db.batches, Survives(doomed), Of(d), Of(d));
  }

  // ---- other documents

  lemma {:induction false} ReceiptItemsOther(db: Db, doc: Id, items: seq<Item>, date: int, d: Id)
    requires d != doc
    ensures Slips(AddReceiptItems(db, doc, items, date).batches, d) == Slips(db.batches, d)
    decreases |items|
  {
    if items != [] {
      var n := |items| - 1;
      var before := AddReceiptItems(db, doc, items[..n], date);
      ReceiptItemsOther(db, doc, items[..n], date, d);
      SlipsOther(before.batches, Batch(before.nextId, items[n].product, items[n].quantity, items[n].quantity,
                                       items[n].price, FromReceipt(doc), date), d);
    }
  }

  lemma {:induction false} RestockItemsOther(db: Db, doc: Id, items: seq<Item>, date: int, d: Id)
    requires d != doc
    ensures Slips(RestockItems(db, doc, items, date).db.batches, d) == Slips(db.batches, d)
    decreases |items|
  {
    if items != [] {
      var n := |items| - 1;
      var before := RestockItems(db, doc, items[..n], date).db;
      RestockItemsOther(db, doc, items[..n], date, d);
      SlipsOther(before.batches, Batch(before.nextId, items[n].product, items[n].quantity, items[n].quantity,
                                       LastCost(before.batches, items[n].product), FromReturn(doc, n), date), d);
    }
  }

  lemma {:induction false} ResizeOther(bs: seq<Batch>, r: Id, p: Id, total: int, left: int, price: int, d: Id)
    requires d != r
    ensures Slips(Resize(bs, r, p, total, left, price), d) == Slips(bs, d)
  {
    ResizeShape(bs, r, p, total, left, price);
    SlipsSame(bs, Resize(bs, r, p, total, left, price), d);
  }

  lemma {:induction false} EditProductOther(db: Db, r: Id, p: Id, items: seq<Item>, d: Id)
    requires DistinctIds(db.batches) && EditProduct(db, r, p, items).Ok? && d != r
    ensures Slips(EditProduct(db, r, p, items).value.batches, d) == Slips(db.batches, d)
  {
    var sold, total := Sold(db.batches, r, p), Demand(items, p);
    if total == 0 && sold == 0 {
      OneIdOneBatch(db.batches);
      SlipsDelete(db, OfGroup(db.batches, r, p), d);
    } else if total > 0 {
      ResizeOther(db.batches, r, p, total, total - sold, FirstPrice(items, p), d);
    }
  }

  lemma {:induction false} EditProductsOther(db: Db, r: Id, products: seq<Id>, items: seq<Item>, d: Id)
    requires Sound(db.batches, db.rows, db.nextId) && Conserved(db.batches, db.rows)
    requires EditProducts(db, r, products, items).Ok? && d != r
    ensures Slips(EditProducts(db, r, products, items).value.batches, d) == Slips(db.batches, d)
    decreases |products|
  {
    if products != [] {
      var n := |products| - 1;
      EditProductsOther(db, r, products[..n], items, d);
      EditProductsKeeps(db, r, products[..n], items);
      EditProductOther(EditProducts(db, r, products[..n], items).value, r, products[n], items, d);
    }
  }

  lemma {:induction false} NewProductsOther(db: Db, r: Id, products: seq<Id>, known: seq<Id>, items: seq<Item>,
                                            date: int, d: Id)
    requires d != r
    ensures Slips(AddNewProducts(db, r, products, known, items, date).batches, d) == Slips(db.batches, d)
    decreases |products|
  {
    if products != [] {
      var n := |products| - 1;
      var p, before := products[n], AddNewProducts(db, r, products[..n], known, items, date);
      NewProductsOther(db, r, products[..n], known, items, date, d);
      if p !in known {
        var q := Demand(items, p);
        SlipsOther(before.batches, Batch(before.nextId, p, q, q, FirstPrice(items, p), FromReceipt(r), date), d);
      }
    }
  }

  lemma {:induction false} UpdateReceiptOther(db: Db, id: Id, patch: Patch, d: Id)
    requires Ledger(db) && UpdateReceipt(db, id, patch).Ok? && d != id
    ensures Slips(UpdateReceipt(db, id, patch).value.batches, d) == Slips(db.batches, d)
  {
    var items := Or(patch.items, []);
    var edited := db.docs[id].(date := patch.date.value, warehouse := patch.warehouse, items := items,
                               amount := ItemsTotal(items));
    var renamed := db.(docs := db.docs[id := edited]);
    if edited.posted {
      var known := BatchProducts(db.batches, id);
      EditProductsOther(renamed, id, known, items, d);
      NewProductsOther(EditProducts(renamed, id, known, items).value, id, ItemProducts(items), known, items,
                       patch.date.value, d);
    }
  }

  lemma {:induction false} ShippingSlips(db: Db, step: Step, d: Id)
    requires Ledger(db) && H.Shipping(db.docs, step) && Next(db, step).Ok?
    ensures Slips(Next(db, step).value.batches, d) == Slips(db.batches, d)
  {
    H.ShippingRefills(db, step);
    SlipsSame(db.batches, Next(db, step).value.batches, d);
  }

  lemma {:induction false} PostOther(db: Db, id: Id, d: Id)
    requires Ledger(db) && PostDoc(db, id).Ok? && d != id
    ensures Slips(PostDoc(db, id).value.batches, d) == Slips(db.batches, d)
  {
    var doc := db.docs[id];
    match doc.kind
    case GoodsReceipt => ReceiptItemsOther(db, id, doc.items, doc.date, d);
    case BuyerReturn => RestockItemsOther(db, id, doc.items, doc.date, d);
    case Sale => ShippingSlips(db, Post(id), d);
    case SupplierReturn => ShippingSlips(db, Post(id), d);
  }

  lemma {:induction false} UnpostOther(db: Db, id: Id, d: Id)
    requires Ledger(db) && UnpostDoc(db, id).Ok? && d != id
    ensures Slips(UnpostDoc(db, id).value.batches, d) == Slips(db.batches, d)
  {
    OneIdOneBatch(db.batches);
    match db.docs[id].kind
    case GoodsReceipt => SlipsDelete(db, OfReceipt(db.batches, id), d);
    case BuyerReturn => SlipsDelete(db, OfReturn(db.batches, id), d);
    case Sale => ShippingSlips(db, Unpost(id), d);
    case SupplierReturn => ShippingSlips(db, Unpost(id), d);
  }

  /** A request leaves what the batches of other documents were created with alone. */
  lemma {:induction false} NextOther(db: Db, step: Step, d: Id)
    requires Ledger(db) && Next(db, step).Ok? && d != H.Changed(db, step)
    ensures Slips(Next(db, step).value.batches, d) == Slips(db.batches, d)
  {
    match step
    case Arrive(p, q, price, at) =>
      SlipsOther(db.batches, Batch(db.nextId, p, q, q, price, Arrival, at), d);
    case New(_, _, _, _, _, _) =>
    case Remove(_) =>
    case Edit(id, patch) =>
      if db.docs[id].kind.GoodsReceipt? {
        UpdateReceiptOther(db, id, patch, d);
      }
    case Post(id) => PostOther(db, id, d);
    case Unpost(id) => UnpostOther(db, id, d);
  }

  // ---- what posting writes

  function ItemSlip(d: Id, date: int): Item -> Slip {
    (i: Item) => Slip(FromReceipt(d), i.product, i.quantity, i.price, date)
  }

  /** The batches of a receipt are its items, one by one and in their order, dated as the
      receipt is. */
  ghost predicate ReceiptAsPosted(db: Db, d: Id)
    requires d in db.docs
  {
    Slips(db.batches, d) == Map(db.docs[d].items, ItemSlip(d, db.docs[d].date))
  }

  /** The batches of a buyer return are its items, one by one and in their order, dated as the
      return is; their prices are no item's. */
  ghost predicate ReturnAsPosted(db: Db, d: Id)
    requires d in db.docs
  {
    var doc, slips := db.docs[d], Slips(db.batches, d);
    && |slips| == |doc.items|
    && forall i :: 0 <= i < |slips| ==>
         slips[i] == Slip(FromReturn(d, i), doc.items[i].product, doc.items[i].quantity, slips[i].price, doc.date)
  }

  lemma {:induction false} NoSlips(bs: seq<Batch>, d: Id)
    requires forall b :: b in bs ==> !Of(d)(b)
    ensures Slips(bs, d) == []
  {
    FilterNone(bs, Of(d));
  }

  lemma {:induction false} DatedWithin(bs: seq<Batch>, d: Id, date: int)
    requires forall s :: s in Slips(bs, d) ==> s.date == date
    ensures forall x :: x in bs && Of(d)(x) ==> x.createdAt == date
  {
    forall x | x in bs && Of(d)(x)
      ensures x.createdAt == date
    {
      assert x in Filter(bs, Of(d));
      var i :| 0 <= i < |Filter(bs, Of(d))| && Filter(bs, Of(d))[i] == x;
      assert Slips(bs, d)[i] == SlipOf()(x) && Slips(bs, d)[i] in Slips(bs, d);
    }
  }

  /** One more batch of a document all of whose batches have the same date. */
  lemma {:induction false} NextSlip(bs: seq<Batch>, b: Batch, d: Id, slips: seq<Slip>)
    requires Slips(bs, d) == slips && Of(d)(b) && forall s :: s in slips ==> s.date == b.createdAt
    ensures Slips(InsertBatch(bs, b), d) == slips + [SlipOf()(b)]
  {
    DatedWithin(bs, d, b.createdAt);
    SlipsNext(bs, b, d);
  }

  lemma {:induction false} MapLast<T, U>(s: seq<T>, f: T -> U)
    requires s != []
    ensures Map(s, f) == Map(s[..|s| - 1], f) + [f(s[|s| - 1])]
  {
  }

  lemma {:induction false} ReceiptItemsSlips(db: Db, d: Id, items: seq<Item>, date: int)
    requires forall b :: b in db.batches ==> !Of(d)(b)
    ensures Slips(AddReceiptItems(db, d, items, date).batches, d) == Map(items, ItemSlip(d, date))
    decreases |items|
  {
    if items == [] {
      NoSlips(db.batches, d);
    } else {
      var n := |items| - 1;
      var last, before := items[n], AddReceiptItems(db, d, items[..n], date);
      ReceiptItemsSlips(db, d, items[..n], date);
      MapLast(items, ItemSlip(d, date));
      NextSlip(before.batches, Batch(before.nextId, last.product, last.quantity, last.quantity, last.price,
                                     FromReceipt(d), date), d, Map(items[..n], ItemSlip(d, date)));
    }
  }

  /** The slips restocking writes for the first items of a return. */
  ghost predicate RestockSlips(slips: seq<Slip>, d: Id, items: seq<Item>, date: int) {
    && |slips| == |items|
    && forall i :: 0 <= i < |slips| ==>
         slips[i] == Slip(FromReturn(d, i), items[i].product, items[i].quantity, slips[i].price, date)
  }

  lemma {:induction false} ReturnItemsSlips(db: Db, d: Id, items: seq<Item>, date: int)
    requires forall b :: b in db.batches ==> !Of(d)(b)
    ensures RestockSlips(Slips(RestockItems(db, d, items, date).db.batches, d), d, items, date)
    decreases |items|
  {
    if items == [] {
      NoSlips(db.batches, d);
    } else {
      var n := |items| - 1;
      var last, before := items[n], RestockItems(db, d, items[..n], date).db;
      ReturnItemsSlips(db, d, items[..n], date);
      NextSlip(before.batches, Batch(before.nextId, last.product, last.quantity, last.quantity,
                                     LastCost(before.batches, last.product), FromReturn(d, n), date),
               d, Slips(before.batches, d));
    }
  }

  /** Some edit of the posted receipt was accepted after it was last posted. */
  ghost predicate EditedSince(steps: seq<Step>, d: Id)
    decreases |steps|
  {
    steps != [] &&
    var before, step := steps[..|steps| - 1], steps[|steps| - 1];
    var db := Run(EmptyDb, before);
    if Next(db, step).Err? || H.Changed(db, step) != d then EditedSince(before, d)
    else step.Edit? && IsPosted(db.docs, d)
  }

  /** A posted receipt, or a posted buyer return, stands as it was posted. */
  ghost predicate AsPosted(db: Db, d: Id) {
    && (IsPosted(db.docs, d) && db.docs[d].kind.GoodsReceipt? ==> ReceiptAsPosted(db, d))
    && (IsPosted(db.docs, d) && db.docs[d].kind.BuyerReturn? ==> ReturnAsPosted(db, d))
  }

  lemma {:induction false} ReceiptWrites(db: Db, d: Id)
    requires Ledger(db) && PostReceipt(db, d).Ok?
    ensures ReceiptAsPosted(PostReceipt(db, d).value, d)
  {
    NothingOf(db, d);
    ReceiptItemsSlips(db, d, db.docs[d].items, db.docs[d].date);
  }

  lemma {:induction false} ReturnWrites(db: Db, d: Id)
    requires Ledger(db) && PostReturn(db, d).Ok?
    ensures ReturnAsPosted(PostReturn(db, d).value, d)
  {
    NothingOf(db, d);
    ReturnItemsSlips(db, d, db.docs[d].items, db.docs[d].date);
  }

  lemma {:induction false} PostWrites(db: Db, d: Id)
    requires Ledger(db) && PostDoc(db, d).Ok?
    ensures AsPosted(PostDoc(db, d).value, d)
  {
    match db.docs[d].kind
    case GoodsReceipt => ReceiptWrites(db, d);
    case BuyerReturn => ReturnWrites(db, d);
    case Sale => H.PostOthers(db, d);
    case SupplierReturn => H.PostOthers(db, d);
  }

  lemma {:induction false} NothingOf(db: Db, d: Id)
    requires Ledger(db) && PostDoc(db, d).Ok?
    ensures forall b :: b in db.batches ==> !Of(d)(b)
  {
    forall b | b in db.batches
      ensures !Of(d)(b)
    {
      assert SourceOk(db.docs, b.source);
    }
  }

  /** A request about the document itself posts it, edits it, or leaves it unposted. */
  lemma {:induction false} ChangedAsPosted(db: Db, step: Step)
    requires Ledger(db) && Next(db, step).Ok?
    requires !(step.Edit? && IsPosted(db.docs, H.Changed(db, step)))
    ensures AsPosted(Next(db, step).value, H.Changed(db, step))
  {
    match step
    case Arrive(_, _, _, _) =>
    case New(_, _, _, _, _, _) =>
    case Remove(_) =>
    case Edit(_, _) =>
    case Post(id) => PostWrites(db, id);
    case Unpost(id) => H.UnpostOthers(db, id);
  }

  lemma {:induction false} OtherAsPosted(db: Db, step: Step, d: Id)
    requires Ledger(db) && Next(db, step).Ok? && d != H.Changed(db, step) && AsPosted(db, d)
    ensures AsPosted(Next(db, step).value, d)
  {
    H.NextOthers(db, step);
    NextOther(db, step, d);
  }

  /** After every run, the batches of a posted receipt that was not edited since it was posted
      are its items, one by one, with their quantities and prices and the receipt's date; and
      those of a posted buyer return are its items with their quantities and its date. */
  lemma {:induction false} AsPostedOverRuns(steps: seq<Step>, d: Id)
    requires !EditedSince(steps, d)
    ensures AsPosted(Run(EmptyDb, steps), d)
    decreases |steps|
  {
    if steps != [] {
      var before, step := steps[..|steps| - 1], steps[|steps| - 1];
      var db := Run(EmptyDb, before);
      LedgerOverRuns(before);
      if Next(db, step).Ok? && H.Changed(db, step) == d {
        ChangedAsPosted(db, step);
      } else {
        AsPostedOverRuns(before, d);
        if Next(db, step).Ok? {
          OtherAsPosted(db, step, d);
        }
      }
    }
  }

  // ---- dates decide who is sold first

  lemma {:induction false} DatedAsDocument(db: Db, b: Batch)
    requires Ledger(db) && b in db.batches && !b.source.Arrival? && AsPosted(db, b.source.doc)
    ensures b.source.doc in db.docs && b.createdAt == db.docs[b.source.doc].date
  {
    var d := b.source.doc;
    assert SourceOk(db.docs, b.source);
    var slips := Slips(db.batches, d);
    forall s | s in slips
      ensures s.date == db.docs[d].date
    {
      var i :| 0 <= i < |slips| && slips[i] == s;
    }
    DatedWithin(db.batches, d, db.docs[d].date);
  }

  /** After every run: a sale of a product from a warehouse takes from a batch of one document
      only when the batches of every earlier-dated document are empty, receipts and buyer
      returns alike, as long as neither was edited since it was posted. */
  lemma {:induction false} EarlierDocumentsFirst(steps: seq<Step>, doc: Id, item: nat, p: Id, w: Id, need: nat,
                                                 i: nat, j: nat)
    requires var db := Run(EmptyDb, steps);
             && Deduct(db, doc, item, p, Some(w), need).Ok? && i < |db.batches| && j < |db.batches|
    requires var db := Run(EmptyDb, steps);
             var early, late := db.batches[i], db.batches[j];
             && early.product == p && WarehouseOf(db.docs, early) == Some(w) && !late.source.Arrival?
             && !EditedSince(steps, early.source.doc) && !EditedSince(steps, late.source.doc)
             && early.source.doc in db.docs && late.source.doc in db.docs
             && db.docs[early.source.doc].date < db.docs[late.source.doc].date
    ensures var db := Run(EmptyDb, steps);
            var db' := Deduct(db, doc, item, p, Some(w), need).value;
            db'.batches[j].left < db.batches[j].left ==> db'.batches[i].left == 0
  {
    var db := Run(EmptyDb, steps);
    LedgerOverRuns(steps);
    AsPostedOverRuns(steps, db.batches[i].source.doc);
    AsPostedOverRuns(steps, db.batches[j].source.doc);
    assert db.batches[i] in db.batches && db.batches[j] in db.batches;
    DatedAsDocument(db, db.batches[i]);
    DatedAsDocument(db, db.batches[j]);
    YoungerLast(db, doc, item, p, w, need, i, j);
  }

  lemma {:induction false} YoungerLast(db: Db, doc: Id, item: nat, p: Id, w: Id, need: nat, i: nat, j: nat)
    requires Sound(db.batches, db.rows, db.nextId) && Deduct(db, doc, item, p, Some(w), need).Ok?
    requires i < |db.batches| && j < |db.batches| && db.batches[i].createdAt < db.batches[j].createdAt
    requires db.batches[i].product == p && WarehouseOf(db.docs, db.batches[i]) == Some(w)
    ensures var db' := Deduct(db, doc, item, p, Some(w), need).value;
            db'.batches[j].left < db.batches[j].left ==> db'.batches[i].left == 0
  {
    var caps := Caps(db.docs, db.batches, p, Some(w));
    TakesGreedy(caps, need);
    assert db.batches[i] in db.batches;
    assert i < j;
    assert caps[i] == CapOf(db.docs, p, Some(w))(db.batches[i]);
  }
}
