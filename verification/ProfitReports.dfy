// The two sales reports: profit by client reads the document headers, profit by product
// recomputes it from the allocation rows and the linked batches of returns. What keeps
// them in step over every run, and exactly how they differ.

module ProfitReports {
  import opened Sums
  import opened Tables
  import opened Inventory
  import opened Documents
  import opened Conservation
  import opened Runs
  import opened History

  predicate Sells(kind: Kind) {
    kind.Sale? || kind.BuyerReturn?
  }

  // ---- by client

  function HeaderProfitOf(docs: map<Id, Doc>): Id -> int {
    (id: Id) => if IsPosted(docs, id) && Sells(docs[id].kind) then docs[id].profit else 0
  }

  /** Total profit of the by-client report over the selected documents. */
  function ProfitByClient(db: Db, ids: seq<Id>): int {
    Sum(ids, HeaderProfitOf(db.docs))
  }

  // ---- by product

  function ItemCostOf(doc: Id, item: nat): Row -> int {
    (r: Row) => if r.doc == doc && r.item == item then r.qty * r.price else 0
  }

  /** The purchase cost the allocation rows record for one item of a sale. */
  function ItemCost(rows: seq<Row>, doc: Id, item: nat): int {
    Sum(rows, ItemCostOf(doc, item))
  }

  function IsLink(doc: Id, item: nat): Batch -> bool {
    (b: Batch) => b.source == FromReturn(doc, item)
  }

  /** The price of the batch linked to an item of a buyer return; zero when it has none. */
  function LinkPrice(bs: seq<Batch>, doc: Id, item: nat): int {
    var links := Filter(bs, IsLink(doc, item));
    if links == [] then 0 else links[0].price
  }

  function ItemProfit(db: Db, doc: Id, item: nat): int
    requires doc in db.docs && item < |db.docs[doc].items|
  {
    var i := db.docs[doc].items[item];
    if db.docs[doc].kind.Sale? then i.total - ItemCost(db.rows, doc, item)
    else LinkPrice(db.batches, doc, item) * i.quantity - i.total
  }

  /** The profit of the first `n` items of a document. */
  function ItemsProfit(db: Db, doc: Id, n: nat): int
    requires doc in db.docs && n <= |db.docs[doc].items|
  {
    if n == 0 then 0 else ItemsProfit(db, doc, n - 1) + ItemProfit(db, doc, n - 1)
  }

  function ItemsProfitOf(db: Db): Id -> int {
    (id: Id) =>
      if IsPosted(db.docs, id) && Sells(db.docs[id].kind) then ItemsProfit(db, id, |db.docs[id].items|) else 0
  }

  /** Total profit of the by-product report over the selected documents. */
  function ProfitByProduct(db: Db, ids: seq<Id>): int {
    Sum(ids, ItemsProfitOf(db))
  }

  // ---- what the headers record

  function DocCostOf(doc: Id): Row -> int {
    (r: Row) => if r.doc == doc then r.qty * r.price else 0
  }

  function DocCost(rows: seq<Row>, doc: Id): int {
    Sum(rows, DocCostOf(doc))
  }

  /** The margin a returned item takes back. */
  function Margin(item: Item, cost: int): int {
    (item.price - cost) * item.quantity
  }

  /** The margins a buyer return reverses over its first `n` items. */
  function ReturnProfit(bs: seq<Batch>, doc: Id, items: seq<Item>, n: nat): int
    requires n <= |items|
  {
    if n == 0 then 0
    else ReturnProfit(bs, doc, items, n - 1) - Margin(items[n - 1], LinkPrice(bs, doc, n - 1))
  }

  /** Every item of the document is backed in full. */
  ghost predicate DocBacked(db: Db, id: Id)
    requires id in db.docs
  {
    forall i {:trigger Backing(db.rows, id, i)} ::
      0 <= i < |db.docs[id].items| ==> Backing(db.rows, id, i) == db.docs[id].items[i].quantity
  }

  ghost predicate RecordedDoc(db: Db, id: Id)
    requires id in db.docs
  {
    var doc := db.docs[id];
    && (doc.kind.Sale? && DocBacked(db, id) ==> doc.profit == doc.amount - DocCost(db.rows, id))
    && (doc.kind.BuyerReturn? ==> doc.profit == ReturnProfit(db.batches, id, doc.items, |doc.items|))
  }

  /** The profit stored with a posted buyer return, and with a posted sale while it is
      fully backed, is the one its rows and batches give. */
  ghost predicate Recorded(db: Db) {
    && (forall id :: IsPosted(db.docs, id) ==> RecordedDoc(db, id))
    && (forall id: Id, i: nat {:trigger db.docs[id].items[i]} ::
          id in db.docs && db.docs[id].kind.BuyerReturn? && 0 <= i < |db.docs[id].items| ==>
            db.docs[id].items[i].total == db.docs[id].items[i].quantity * db.docs[id].items[i].price)
  }

  // ---- the difference between the reports

  function CostBelowOf(doc: Id, n: nat): Row -> int {
    (r: Row) => if r.doc == doc && r.item < n then r.qty * r.price else 0
  }

  function TotalBelow(items: seq<Item>, n: nat): int
    requires n <= |items|
  {
    ItemsTotal(items[..n])
  }

  lemma {:induction false} SaleItemsProfit(db: Db, id: Id, n: nat)
    requires id in db.docs && db.docs[id].kind.Sale? && n <= |db.docs[id].items|
    ensures ItemsProfit(db, id, n) == TotalBelow(db.docs[id].items, n) - Sum(db.rows, CostBelowOf(id, n))
    decreases n
  {
    if n == 0 {
      SumZero(db.rows, CostBelowOf(id, 0));
    } else {
      SaleItemsProfit(db, id, n - 1);
      SumPlus(db.rows, CostBelowOf(id, n - 1), ItemCostOf(id, n - 1), CostBelowOf(id, n));
      var items := db.docs[id].items;
      assert items[..n] == items[..n - 1] + [items[n - 1]];
      SumSnoc(items[..n - 1], items[n - 1], ItemTotal());
    }
  }

  lemma {:induction false} ReturnItemsProfit(db: Db, id: Id, n: nat)
    requires Recorded(db) && id in db.docs && db.docs[id].kind.BuyerReturn? && n <= |db.docs[id].items|
    ensures ItemsProfit(db, id, n) == ReturnProfit(db.batches, id, db.docs[id].items, n)
    decreases n
  {
    if n > 0 {
      ReturnItemsProfit(db, id, n - 1);
      var i := db.docs[id].items[n - 1];
      assert i.total == i.quantity * i.price;
      var c := LinkPrice(db.batches, id, n - 1);
      assert (i.price - c) * i.quantity == i.price * i.quantity - c * i.quantity;
    }
  }

  lemma {:induction false} AllCostsBelow(db: Db, id: Id)
    requires Owned(db.docs, db.batches, db.rows) && IsPosted(db.docs, id)
    ensures Sum(db.rows, CostBelowOf(id, |db.docs[id].items|)) == DocCost(db.rows, id)
  {
    var n := |db.docs[id].items|;
    forall i | 0 <= i < |db.rows|
      ensures CostBelowOf(id, n)(db.rows[i]) == DocCostOf(id)(db.rows[i])
    {
      assert RowOk(db.docs, db.rows[i]);
    }
    SumSame(db.rows, db.rows, CostBelowOf(id, n), DocCostOf(id));
  }

  /** How far a sale's header amount is from the sum of its item totals. */
  function HeaderExcessOf(docs: map<Id, Doc>): Id -> int {
    (id: Id) => if IsPosted(docs, id) && docs[id].kind.Sale? then docs[id].amount - ItemsTotal(docs[id].items) else 0
  }

  /** Over any selection of documents, profit by client less profit by product is exactly
      what the posted sales' header amounts exceed their item totals by; posted buyer
      returns contribute no difference. */
  lemma {:induction false} ProfitDifference(db: Db, ids: seq<Id>)
    requires Ledger(db) && Recorded(db) && FullyBacked(db)
    ensures ProfitByClient(db, ids) == ProfitByProduct(db, ids) + Sum(ids, HeaderExcessOf(db.docs))
  {
    forall id | id in ids
      ensures HeaderProfitOf(db.docs)(id) == ItemsProfitOf(db)(id) + HeaderExcessOf(db.docs)(id)
    {
      DocDifference(db, id);
    }
    SumPlus(ids, ItemsProfitOf(db), HeaderExcessOf(db.docs), HeaderProfitOf(db.docs));
  }

  lemma {:induction false} DocDifference(db: Db, id: Id)
    requires Ledger(db) && Recorded(db) && FullyBacked(db)
    ensures HeaderProfitOf(db.docs)(id) == ItemsProfitOf(db)(id) + HeaderExcessOf(db.docs)(id)
  {
    if IsPosted(db.docs, id) {
      var doc := db.docs[id];
      assert RecordedDoc(db, id);
      if doc.kind.Sale? {
        SaleItemsProfit(db, id, |doc.items|);
        AllCostsBelow(db, id);
        assert doc.items[..|doc.items|] == doc.items;
      } else if doc.kind.BuyerReturn? {
        ReturnItemsProfit(db, id, |doc.items|);
      }
    }
  }

  /** Of a posted sale the by-client report shows the stored profit, and the by-product report
      its items' totals less the recorded cost. */
  lemma {:induction false} SaleShown(db: Db, id: Id)
    requires Ledger(db) && IsPosted(db.docs, id) && db.docs[id].kind.Sale?
    ensures ProfitByClient(db, [id]) == db.docs[id].profit
    ensures ProfitByProduct(db, [id]) == Sum(db.docs[id].items, (i: Item) => i.total) - DocCost(db.rows, id)
  {
    var doc := db.docs[id];
    SumOnly(id, HeaderProfitOf(db.docs));
    SumOnly(id, ItemsProfitOf(db));
    SaleItemsProfit(db, id, |doc.items|);
    AllCostsBelow(db, id);
    assert doc.items[..|doc.items|] == doc.items;
    SumSame(doc.items, doc.items, ItemTotal(), (i: Item) => i.total);
  }

  /** Of a posted buyer return both reports show the stored profit. */
  lemma {:induction false} ReturnShown(db: Db, id: Id)
    requires Recorded(db) && IsPosted(db.docs, id) && db.docs[id].kind.BuyerReturn?
    ensures ProfitByClient(db, [id]) == db.docs[id].profit
    ensures ProfitByProduct(db, [id]) == db.docs[id].profit
  {
    SumOnly(id, HeaderProfitOf(db.docs));
    SumOnly(id, ItemsProfitOf(db));
    assert RecordedDoc(db, id);
    ReturnItemsProfit(db, id, |db.docs[id].items|);
  }

  /** Of any other document neither shows anything. */
  lemma {:induction false} NothingShown(db: Db, id: Id)
    requires id in db.docs
    requires !db.docs[id].posted || db.docs[id].kind.GoodsReceipt? || db.docs[id].kind.SupplierReturn?
    ensures ProfitByClient(db, [id]) == 0 && ProfitByProduct(db, [id]) == 0
  {
    SumOnly(id, HeaderProfitOf(db.docs));
    SumOnly(id, ItemsProfitOf(db));
  }

  /** What the two reports show for one document after a run. */
  lemma {:induction false} ReportsOne(steps: seq<Step>, id: Id)
    requires id in Run(EmptyDb, steps).docs
    ensures var db := Run(EmptyDb, steps);
            var doc := db.docs[id];
            if doc.posted && doc.kind.Sale? then
              && ProfitByClient(db, [id]) == doc.profit
              && ProfitByProduct(db, [id]) == Sum(doc.items, (i: Item) => i.total) - DocCost(db.rows, id)
            else if doc.posted && doc.kind.BuyerReturn? then
              ProfitByClient(db, [id]) == doc.profit && ProfitByProduct(db, [id]) == doc.profit
            else
              ProfitByClient(db, [id]) == 0 && ProfitByProduct(db, [id]) == 0
  {
    var db := Run(EmptyDb, steps);
    LedgerOverRuns(steps);
    RecordedOverRuns(steps);
    if db.docs[id].posted && db.docs[id].kind.Sale? {
      SaleShown(db, id);
    } else if db.docs[id].posted && db.docs[id].kind.BuyerReturn? {
      ReturnShown(db, id);
    } else {
      NothingShown(db, id);
    }
  }

  lemma {:induction false} SumOnly(id: Id, f: Id -> int)
    ensures Sum([id], f) == f(id)
  {
    SumSnoc([], id, f);
    assert [] + [id] == [id];
  }

  // ---- links that do not move

  /** A batch for another document or item does not disturb a link. */
  lemma {:induction false} LinkInsert(bs: seq<Batch>, b: Batch, doc: Id, item: nat)
    requires b.source != FromReturn(doc, item)
    ensures LinkPrice(InsertBatch(bs, b), doc, item) == LinkPrice(bs, doc, item)
  {
    var k := InsertSplits(bs, b, CreatedAt());
    assert bs == bs[..k] + bs[k..];
    FilterSkips(bs[..k], b, bs[k..], IsLink(doc, item));
  }

  lemma {:induction false} LinkNew(bs: seq<Batch>, b: Batch, doc: Id, item: nat)
    requires b.source == FromReturn(doc, item) && forall x :: x in bs ==> x.source != FromReturn(doc, item)
    ensures LinkPrice(InsertBatch(bs, b), doc, item) == b.price
  {
    var k := InsertSplits(bs, b, CreatedAt());
    var p := IsLink(doc, item);
    FilterConcat(bs[..k] + [b], bs[k..], p);
    FilterNone(bs[..k], p);
    FilterNone(bs[k..], p);
    assert (bs[..k] + [b])[..k] == bs[..k];
  }

  function PriceOf(): Batch -> int {
    (b: Batch) => b.price
  }

  lemma {:induction false} LinkSame(bs: seq<Batch>, bs': seq<Batch>, doc: Id, item: nat)
    requires |bs'| == |bs|
    requires forall i :: 0 <= i < |bs| ==>
               bs'[i].source == bs[i].source && (bs[i].source.FromReturn? ==> bs'[i].price == bs[i].price)
    ensures LinkPrice(bs', doc, item) == LinkPrice(bs, doc, item)
  {
    LinkPrices(bs, bs', doc, item);
    var a, b := Filter(bs, IsLink(doc, item)), Filter(bs', IsLink(doc, item));
    assert |a| == |b|;
    if a != [] {
      assert Map(a, PriceOf())[0] == Map(b, PriceOf())[0];
    }
  }

  lemma {:induction false} LinkPrices(bs: seq<Batch>, bs': seq<Batch>, doc: Id, item: nat)
    requires |bs'| == |bs|
    requires forall i :: 0 <= i < |bs| ==>
               bs'[i].source == bs[i].source && (bs[i].source.FromReturn? ==> bs'[i].price == bs[i].price)
    ensures Map(Filter(bs', IsLink(doc, item)), PriceOf()) == Map(Filter(bs, IsLink(doc, item)), PriceOf())
    ensures |Filter(bs', IsLink(doc, item))| == |Filter(bs, IsLink(doc, item))|
    decreases |bs|
  {
    if bs != [] {
      var n := |bs| - 1;
      LinkPrices(bs[..n], bs'[..n], doc, item);
      var a, b := Filter(bs[..n], IsLink(doc, item)), Filter(bs'[..n], IsLink(doc, item));
      assert Map(a + [bs[n]], PriceOf()) == Map(a, PriceOf()) + [bs[n].price];
      assert Map(b + [bs'[n]], PriceOf()) == Map(b, PriceOf()) + [bs'[n].price];
      assert a + [] == a && b + [] == b;
    }
  }

  lemma {:induction false} LinkDelete(bs: seq<Batch>, doomed: set<Id>, doc: Id, item: nat)
    requires forall b :: b in bs && b.source == FromReturn(doc, item) ==> b.id !in doomed
    ensures LinkPrice(Filter(bs, Survives(doomed)), doc, item) == LinkPrice(bs, doc, item)
  {
    FilterTwice(bs, Survives(doomed), IsLink(doc, item), IsLink(doc, item));
  }

  /** Every link of every return but `except` keeps its price. */
  ghost predicate LinksKept(bs: seq<Batch>, bs': seq<Batch>, except: Option<Id>) {
    forall d: Id, i: nat {:trigger LinkPrice(bs', d, i)} ::
      except != Some(d) ==> LinkPrice(bs', d, i) == LinkPrice(bs, d, i)
  }

  lemma {:induction false} LinksRefilled(bs: seq<Batch>, rows: seq<Row>, bs': seq<Batch>, rows': seq<Row>)
    requires Refilled(bs, rows, bs', rows')
    ensures LinksKept(bs, bs', None)
  {
    forall d: Id, i: nat {:trigger LinkPrice(bs', d, i)}
      ensures LinkPrice(bs', d, i) == LinkPrice(bs, d, i)
    {
      LinkSame(bs, bs', d, i);
    }
  }

  lemma {:induction false} LinksAdd(db: Db, product: Id, q: nat, price: int, source: Source, at: int)
    ensures LinksKept(db.batches, AddStock(db, product, q, price, source, at).batches,
                      if source.FromReturn? then Some(source.doc) else None)
  {
    var b := Batch(db.nextId, product, q, q, price, source, at);
    forall d: Id, i: nat {:trigger LinkPrice(InsertBatch(db.batches, b), d, i)}
      | !(source.FromReturn? && source.doc == d)
      ensures LinkPrice(InsertBatch(db.batches, b), d, i) == LinkPrice(db.batches, d, i)
    {
      LinkInsert(db.batches, b, d, i);
    }
  }

  lemma {:induction false} LinksReceipt(db: Db, doc: Id, items: seq<Item>, date: int)
    ensures LinksKept(db.batches, AddReceiptItems(db, doc, items, date).batches, None)
    decreases |items|
  {
    if items != [] {
      var n := |items| - 1;
      LinksReceipt(db, doc, items[..n], date);
      LinksAdd(AddReceiptItems(db, doc, items[..n], date), items[n].product, items[n].quantity, items[n].price,
               FromReceipt(doc), date);
    }
  }

  lemma {:induction false} LinksNewProducts(db: Db, r: Id, products: seq<Id>, known: seq<Id>, items: seq<Item>,
                                            date: int)
    ensures LinksKept(db.batches, AddNewProducts(db, r, products, known, items, date).batches, None)
    decreases |products|
  {
    if products != [] {
      var n := |products| - 1;
      LinksNewProducts(db, r, products[..n], known, items, date);
      if products[n] !in known {
        LinksAdd(AddNewProducts(db, r, products[..n], known, items, date), products[n],
                 Demand(items, products[n]), FirstPrice(items, products[n]), FromReceipt(r), date);
      }
    }
  }

  lemma {:induction false} LinksDelete(db: Db, doomed: set<Id>, except: Option<Id>)
    requires DistinctIds(db.batches)
    requires forall b :: b in db.batches && b.source.FromReturn? && except != Some(b.source.doc) ==> b.id !in doomed
    ensures LinksKept(db.batches, DeleteBatches(db, doomed).batches, except)
  {
    forall d: Id, i: nat {:trigger LinkPrice(DeleteBatches(db, doomed).batches, d, i)} | except != Some(d)
      ensures LinkPrice(DeleteBatches(db, doomed).batches, d, i) == LinkPrice(db.batches, d, i)
    {
      LinkDelete(db.batches, doomed, d, i);
    }
  }

  lemma {:induction false} LinksResize(bs: seq<Batch>, r: Id, p: Id, total: int, left: int, price: int)
    ensures LinksKept(bs, Resize(bs, r, p, total, left, price), None)
  {
    ResizeShape(bs, r, p, total, left, price);
    var bs' := Resize(bs, r, p, total, left, price);
    forall d: Id, i: nat {:trigger LinkPrice(bs', d, i)}
      ensures LinkPrice(bs', d, i) == LinkPrice(bs, d, i)
    {
      LinkSame(bs, bs', d, i);
    }
  }

  lemma {:induction false} LinksEditProduct(db: Db, r: Id, p: Id, items: seq<Item>)
    requires DistinctIds(db.batches) && EditProduct(db, r, p, items).Ok?
    ensures LinksKept(db.batches, EditProduct(db, r, p, items).value.batches, None)
  {
    var sold, total := Sold(db.batches, r, p), Demand(items, p);
    if total == 0 && sold == 0 {
      OneIdOneBatch(db.batches);
      LinksDelete(db, OfGroup(db.batches, r, p), None);
    } else if total > 0 {
      LinksResize(db.batches, r, p, total, total - sold, FirstPrice(items, p));
    }
  }

  lemma {:induction false} LinksEditProducts(db: Db, r: Id, products: seq<Id>, items: seq<Item>)
    requires Sound(db.batches, db.rows, db.nextId) && Conserved(db.batches, db.rows)
    requires EditProducts(db, r, products, items).Ok?
    ensures LinksKept(db.batches, EditProducts(db, r, products, items).value.batches, None)
    decreases |products|
  {
    if products != [] {
      var n := |products| - 1;
      LinksEditProducts(db, r, products[..n], items);
      EditProductsKeeps(db, r, products[..n], items);
      LinksEditProduct(EditProducts(db, r, products[..n], items).value, r, products[n], items);
    }
  }

  lemma {:induction false} LinksEditStock(db: Db, id: Id, items: seq<Item>, date: int)
    requires Sound(db.batches, db.rows, db.nextId) && Conserved(db.batches, db.rows)
    requires EditStock(db, id, items, date).Ok?
    ensures LinksKept(db.batches, EditStock(db, id, items, date).value.batches, None)
  {
    var known := BatchProducts(db.batches, id);
    LinksEditProducts(db, id, known, items);
    LinksNewProducts(EditProducts(db, id, known, items).value, id, ItemProducts(items), known, items, date);
  }

  // ---- posting a buyer return records what its links give

  lemma {:induction false} ReturnProfitStep(bs: seq<Batch>, doc: Id, items: seq<Item>, n: nat, c: int)
    requires n < |items| && LinkPrice(bs, doc, n) == c
    ensures ReturnProfit(bs, doc, items, n + 1)
            == ReturnProfit(bs, doc, items, n) - Margin(items[n], c)
  {
  }

  lemma {:induction false} ReturnProfitSame(bs: seq<Batch>, bs': seq<Batch>, doc: Id, items: seq<Item>, n: nat)
    requires n <= |items|
    requires forall i: nat {:trigger LinkPrice(bs', doc, i)} ::
               i < n ==> LinkPrice(bs', doc, i) == LinkPrice(bs, doc, i)
    ensures ReturnProfit(bs', doc, items, n) == ReturnProfit(bs, doc, items, n)
    decreases n
  {
    if n > 0 {
      ReturnProfitSame(bs, bs', doc, items, n - 1);
      assert LinkPrice(bs', doc, n - 1) == LinkPrice(bs, doc, n - 1);
    }
  }

  /** So far the profit is what the links of the first `n` items give, and no other item is linked. */
  ghost predicate Restocked(r: Restock, doc: Id, items: seq<Item>, n: nat)
    requires n <= |items|
  {
    && r.profit == ReturnProfit(r.db.batches, doc, items, n)
    && (forall b :: b in r.db.batches && b.source.FromReturn? && b.source.doc == doc ==> b.source.item < n)
  }

  lemma {:induction false} RestockItemRecords(r: Restock, doc: Id, items: seq<Item>, n: nat, date: int)
    requires n < |items| && Restocked(r, doc, items, n)
    ensures Restocked(RestockItem(r, doc, n, items[n], date), doc, items, n + 1)
    ensures LinksKept(r.db.batches, RestockItem(r, doc, n, items[n], date).db.batches, Some(doc))
  {
    var item := items[n];
    var cost := LastCost(r.db.batches, item.product);
    LinksAdd(r.db, item.product, item.quantity, cost, FromReturn(doc, n), date);
    OneMoreRestocked(r, Batch(r.db.nextId, item.product, item.quantity, item.quantity, cost, FromReturn(doc, n), date),
                     doc, items, n, RestockItem(r, doc, n, item, date));
  }

  lemma {:induction false} OneMoreRestocked(r: Restock, b: Batch, doc: Id, items: seq<Item>, n: nat, r': Restock)
    requires n < |items| && Restocked(r, doc, items, n) && b.source == FromReturn(doc, n)
    requires r'.db.batches == InsertBatch(r.db.batches, b)
    requires r'.profit == r.profit - Margin(items[n], b.price)
    ensures Restocked(r', doc, items, n + 1)
  {
    LinkedNext(r.db.batches, b, doc, items, n);
    InsertMembers(r.db.batches, b, CreatedAt());
  }

  lemma {:induction false} LinkedNext(bs: seq<Batch>, b: Batch, doc: Id, items: seq<Item>, n: nat)
    requires n < |items| && b.source == FromReturn(doc, n)
    requires forall x :: x in bs && x.source.FromReturn? && x.source.doc == doc ==> x.source.item < n
    ensures ReturnProfit(InsertBatch(bs, b), doc, items, n + 1)
            == ReturnProfit(bs, doc, items, n) - Margin(items[n], b.price)
  {
    var after := InsertBatch(bs, b);
    LinksWithNext(bs, b, doc, n);
    ReturnProfitSame(bs, after, doc, items, n);
    ReturnProfitStep(after, doc, items, n, b.price);
  }

  lemma {:induction false} LinksWithNext(bs: seq<Batch>, b: Batch, doc: Id, n: nat)
    requires b.source == FromReturn(doc, n)
    requires forall x :: x in bs && x.source.FromReturn? && x.source.doc == doc ==> x.source.item < n
    ensures LinkPrice(InsertBatch(bs, b), doc, n) == b.price
    ensures forall i: nat {:trigger LinkPrice(InsertBatch(bs, b), doc, i)} ::
              i < n ==> LinkPrice(InsertBatch(bs, b), doc, i) == LinkPrice(bs, doc, i)
  {
    LinkNew(bs, b, doc, n);
    forall i: nat {:trigger LinkPrice(InsertBatch(bs, b), doc, i)} | i < n
      ensures LinkPrice(InsertBatch(bs, b), doc, i) == LinkPrice(bs, doc, i)
    {
      LinkInsert(bs, b, doc, i);
    }
  }

  lemma {:induction false} RestockRecords(db: Db, doc: Id, items: seq<Item>, date: int, n: nat)
    requires n <= |items|
    requires forall b :: b in db.batches ==> !(b.source.FromReturn? && b.source.doc == doc)
    ensures Restocked(RestockItems(db, doc, items[..n], date), doc, items, n)
    ensures LinksKept(db.batches, RestockItems(db, doc, items[..n], date).db.batches, Some(doc))
    decreases n
  {
    if n > 0 {
      RestockRecords(db, doc, items, date, n - 1);
      assert items[..n][..n - 1] == items[..n - 1] && items[..n][n - 1] == items[n - 1];
      RestockItemRecords(RestockItems(db, doc, items[..n - 1], date), doc, items, n - 1, date);
    }
  }

  // ---- the record over every run

  lemma {:induction false} RecordKept(db: Db, db': Db, id: Id)
    requires Recorded(db) && IsPosted(db.docs, id) && id in db'.docs && db'.docs[id] == db.docs[id]
    requires Within(db) && BackingFalls(db, db', id)
    requires db.docs[id].kind.Sale? && DocBacked(db', id) ==> DocCost(db'.rows, id) == DocCost(db.rows, id)
    requires db.docs[id].kind.BuyerReturn? ==>
               forall i: nat {:trigger LinkPrice(db'.batches, id, i)} ::
                 0 <= i < |db.docs[id].items| ==> LinkPrice(db'.batches, id, i) == LinkPrice(db.batches, id, i)
    ensures RecordedDoc(db', id)
  {
    assert RecordedDoc(db, id);
    if db.docs[id].kind.BuyerReturn? {
      ReturnProfitSame(db.batches, db'.batches, id, db.docs[id].items, |db.docs[id].items|);
    } else if db.docs[id].kind.Sale? && DocBacked(db', id) {
      WasBacked(db, db', id);
    }
  }

  /** The backing of one document's items does not grow. */
  ghost predicate BackingFalls(db: Db, db': Db, id: Id) {
    forall i: nat {:trigger Backing(db'.rows, id, i)} :: Backing(db'.rows, id, i) <= Backing(db.rows, id, i)
  }

  /** What is fully backed although its backing cannot have grown was fully backed before. */
  lemma {:induction false} WasBacked(db: Db, db': Db, id: Id)
    requires Within(db) && BackingFalls(db, db', id) && IsPosted(db.docs, id) && Outgoing(db.docs[id].kind)
    requires id in db'.docs && db'.docs[id] == db.docs[id] && DocBacked(db', id)
    ensures DocBacked(db, id)
    ensures forall i: nat :: i < |db.docs[id].items| ==> Backing(db'.rows, id, i) == Backing(db.rows, id, i)
  {
    forall i {:trigger Backing(db.rows, id, i)} | 0 <= i < |db.docs[id].items|
      ensures Backing(db.rows, id, i) == db.docs[id].items[i].quantity == Backing(db'.rows, id, i)
    {
      assert Backing(db'.rows, id, i) <= Backing(db.rows, id, i) <= db.docs[id].items[i].quantity;
    }
  }

  /** All documents but `changed` keep their record. */
  ghost predicate Undisturbed(db: Db, db': Db, changed: Id) {
    && (forall d :: d in db'.docs && d != changed ==> d in db.docs && db'.docs[d] == db.docs[d])
    && (forall d: Id {:trigger DocCost(db'.rows, d)} ::
          d != changed && IsPosted(db'.docs, d) && db'.docs[d].kind.Sale? && DocBacked(db', d) ==>
            DocCost(db'.rows, d) == DocCost(db.rows, d))
    && (forall d: Id {:trigger BackingFalls(db, db', d)} :: d != changed ==> BackingFalls(db, db', d))
    && LinksKept(db.batches, db'.batches, Some(changed))
  }

  lemma {:induction false} UndisturbedRecords(db: Db, db': Db, changed: Id)
    requires Recorded(db) && Within(db) && Undisturbed(db, db', changed)
    requires IsPosted(db'.docs, changed) ==> RecordedDoc(db', changed)
    requires changed in db'.docs && db'.docs[changed].kind.BuyerReturn? ==>
               forall i {:trigger db'.docs[changed].items[i]} :: 0 <= i < |db'.docs[changed].items| ==>
                 db'.docs[changed].items[i].total
                 == db'.docs[changed].items[i].quantity * db'.docs[changed].items[i].price
    ensures Recorded(db')
  {
    forall id | IsPosted(db'.docs, id)
      ensures RecordedDoc(db', id)
    {
      if id != changed {
        assert BackingFalls(db, db', id);
        RecordKept(db, db', id);
      }
    }
  }

  lemma {:induction false} CostUnaffected(rows: seq<Row>, more: seq<Row>, d: Id)
    requires forall r :: r in more ==> r.doc != d
    ensures DocCost(rows + more, d) == DocCost(rows, d)
  {
    SumConcat(rows, more, DocCostOf(d));
    SumZero(more, DocCostOf(d));
  }

  lemma {:induction false} RowsAddedUndisturbed(db: Db, id: Id, db': Db)
    requires Refilled(db.batches, db.rows, db'.batches, db'.rows)
    requires db.rows <= db'.rows && forall r :: r in Added(db, db') ==> r.doc == id
    requires id in db'.docs && db'.docs == db.docs[id := db'.docs[id]]
    ensures Undisturbed(db, db', id)
  {
    LinksRefilled(db.batches, db.rows, db'.batches, db'.rows);
    assert db'.rows == db.rows + Added(db, db');
    forall d: Id {:trigger DocCost(db'.rows, d)} | d != id
      ensures DocCost(db'.rows, d) == DocCost(db.rows, d)
    {
      CostUnaffected(db.rows, Added(db, db'), d);
    }
    forall d: Id | d != id
      ensures BackingFalls(db, db', d)
    {
      BackingUnaffected(db, db', d);
    }
  }

  lemma {:induction false} BackingUnaffected(db: Db, db': Db, d: Id)
    requires db.rows <= db'.rows && forall r :: r in Added(db, db') ==> r.doc != d
    ensures BackingFalls(db, db', d)
  {
    assert db'.rows == db.rows + Added(db, db');
    forall i: nat {:trigger Backing(db'.rows, d, i)}
      ensures Backing(db'.rows, d, i) <= Backing(db.rows, d, i)
    {
      SumConcat(db.rows, Added(db, db'), BackingOf(d, i));
      OthersUnbacked(Added(db, db'), d, i);
    }
  }

  lemma {:induction false} FilteredFalls(db: Db, db': Db, p: Row -> bool, d: Id)
    requires Sound(db.batches, db.rows, db.nextId) && db'.rows == Filter(db.rows, p)
    ensures BackingFalls(db, db', d)
  {
    forall i: nat {:trigger Backing(db'.rows, d, i)}
      ensures Backing(db'.rows, d, i) <= Backing(db.rows, d, i)
    {
      FewerRows(db.rows, p, d, i);
    }
  }

  lemma {:induction false} DeductionUndisturbed(db: Db, id: Id, db': Db)
    requires Ledger(db) && id in db.docs
    requires DeductItems(db, id, db.docs[id].warehouse, db.docs[id].items).Ok?
    requires db' == DeductItems(db, id, db.docs[id].warehouse, db.docs[id].items).value.(docs := db'.docs)
    requires id in db'.docs && db'.docs == db.docs[id := db'.docs[id]]
    ensures Undisturbed(db, db', id)
  {
    DeductItemsRefills(db, id, db.docs[id].warehouse, db.docs[id].items);
    DeductItemsKeeps(db, id, db.docs[id].warehouse, db.docs[id].items);
    RowsAddedUndisturbed(db, id, db');
  }

  lemma {:induction false} AddedCost(db: Db, db': Db, id: Id)
    requires Owned(db.docs, db.batches, db.rows) && !IsPosted(db.docs, id)
    requires db.rows <= db'.rows && forall r :: r in Added(db, db') ==> r.doc == id
    ensures DocCost(db'.rows, id) == Cost(Added(db, db'))
  {
    var more := Added(db, db');
    assert db'.rows == db.rows + more;
    forall r | r in db.rows
      ensures DocCostOf(id)(r) == 0
    {
      assert RowOk(db.docs, r);
    }
    SumConcat(db.rows, more, DocCostOf(id));
    SumZero(db.rows, DocCostOf(id));
    SumSame(more, more, DocCostOf(id), RowCost());
  }

  lemma {:induction false} SaleRecords(db: Db, id: Id)
    requires Ledger(db) && PostSale(db, id).Ok?
    ensures RecordedDoc(PostSale(db, id).value, id)
  {
    var doc := db.docs[id];
    DeductItemsKeeps(db, id, doc.warehouse, doc.items);
    AddedCost(db, DeductItems(db, id, doc.warehouse, doc.items).value, id);
  }

  lemma {:induction false} ReturnUndisturbed(db: Db, id: Id, db': Db)
    requires Sound(db.batches, db.rows, db.nextId)
    requires db'.batches == Return(db, id).batches && db'.rows == Return(db, id).rows
    requires id in db'.docs && db'.docs == db.docs[id := db'.docs[id]]
    ensures Undisturbed(db, db', id)
  {
    ReturnKeeps(db, id);
    LinksRefilled(db.batches, db.rows, db'.batches, db'.rows);
    forall d: Id {:trigger DocCost(db'.rows, d)} | d != id
      ensures DocCost(db'.rows, d) == DocCost(db.rows, d)
    {
      SumFilter(db.rows, NotOf(id), DocCostOf(d), DocCostOf(d));
    }
    forall d: Id | d != id
      ensures BackingFalls(db, db', d)
    {
      FilteredFalls(db, db', NotOf(id), d);
    }
  }

  /** A sale that is still fully backed after the cascade has lost no row to it. */
  lemma {:induction false} CascadeCost(db: Db, db': Db, doomed: set<Id>, d: Id)
    requires Ledger(db) && Within(db) && IsPosted(db.docs, d) && Outgoing(db.docs[d].kind)
    requires db'.rows == Filter(db.rows, RowSurvives(doomed))
    requires d in db'.docs && db'.docs[d] == db.docs[d] && DocBacked(db', d)
    ensures DocCost(db'.rows, d) == DocCost(db.rows, d)
  {
    FilteredFalls(db, db', RowSurvives(doomed), d);
    WasBacked(db, db', d);
    forall r | r in db.rows && r.doc == d
      ensures RowSurvives(doomed)(r)
    {
      assert RowOk(db.docs, r);
      if r.batch in doomed {
        LostRow(db.rows, doomed, r);
      }
    }
    SumFilter(db.rows, RowSurvives(doomed), DocCostOf(d), DocCostOf(d));
  }

  lemma {:induction false} CascadeUndisturbed(db: Db, id: Id, db': Db)
    requires Ledger(db) && Within(db) && UnpostReturn(db, id) == Ok(db')
    ensures Undisturbed(db, db', id)
  {
    var doomed := OfReturn(db.batches, id);
    OneIdOneBatch(db.batches);
    LinksDelete(db, doomed, Some(id));
    forall d: Id {:trigger DocCost(db'.rows, d)} |
      d != id && IsPosted(db'.docs, d) && db'.docs[d].kind.Sale? && DocBacked(db', d)
      ensures DocCost(db'.rows, d) == DocCost(db.rows, d)
    {
      CascadeCost(db, db', doomed, d);
    }
    forall d: Id
      ensures BackingFalls(db, db', d)
    {
      FilteredFalls(db, db', RowSurvives(doomed), d);
    }
  }

  lemma {:induction false} PaperworkRecords(db: Db, step: Step)
    requires Ledger(db) && Recorded(db) && Within(db) && Next(db, step).Ok?
    requires step.New? || step.Remove? || (step.Edit? && !IsPosted(db.docs, step.id))
    ensures Recorded(Next(db, step).value)
  {
    var changed := if step.New? then db.nextId else step.id;
    UndisturbedRecords(db, Next(db, step).value, changed);
  }

  lemma {:induction false} EditPostedRecords(db: Db, id: Id, patch: Patch)
    requires Ledger(db) && Recorded(db) && Within(db) && IsPosted(db.docs, id) && UpdateReceipt(db, id, patch).Ok?
    ensures Recorded(UpdateReceipt(db, id, patch).value)
  {
    var items := Or(patch.items, []);
    var edited := db.docs[id].(date := patch.date.value, warehouse := patch.warehouse, items := items,
                               amount := ItemsTotal(items));
    var renamed := db.(docs := db.docs[id := edited]);
    UpdateReceiptKeeps(db, id, patch);
    UpdateReceiptDocs(db, id, patch);
    LinksEditStock(renamed, id, items, patch.date.value);
    UndisturbedRecords(db, UpdateReceipt(db, id, patch).value, id);
  }

  lemma {:induction false} PostRecords(db: Db, id: Id)
    requires Ledger(db) && Recorded(db) && Within(db) && PostDoc(db, id).Ok?
    ensures Recorded(PostDoc(db, id).value)
  {
    var doc, db' := db.docs[id], PostDoc(db, id).value;
    match doc.kind {
      case GoodsReceipt => LinksReceipt(db, id, doc.items, doc.date);
      case BuyerReturn => ReturnRecords(db, id);
      case Sale =>
        DeductionUndisturbed(db, id, db');
        SaleRecords(db, id);
      case SupplierReturn => DeductionUndisturbed(db, id, db');
    }
    UndisturbedRecords(db, db', id);
  }

  lemma {:induction false} ReturnRecords(db: Db, id: Id)
    requires Ledger(db) && Recorded(db) && PostReturn(db, id).Ok?
    ensures Undisturbed(db, PostReturn(db, id).value, id) && RecordedDoc(PostReturn(db, id).value, id)
  {
    forall b | b in db.batches
      ensures !(b.source.FromReturn? && b.source.doc == id)
    {
      assert SourceOk(db.docs, b.source);
    }
    var items := db.docs[id].items;
    assert items[..|items|] == items;
    RestockRecords(db, id, items, db.docs[id].date, |items|);
  }

  lemma {:induction false} UnpostRecords(db: Db, id: Id)
    requires Ledger(db) && Recorded(db) && Within(db) && UnpostDoc(db, id).Ok?
    ensures Recorded(UnpostDoc(db, id).value)
  {
    var db' := UnpostDoc(db, id).value;
    OneIdOneBatch(db.batches);
    match db.docs[id].kind {
      case GoodsReceipt =>
        UnpostReceiptCascade(db, id);
        LinksDelete(db, OfReceipt(db.batches, id), None);
      case BuyerReturn => CascadeUndisturbed(db, id, db');
      case Sale => ReturnUndisturbed(db, id, db');
      case SupplierReturn => ReturnUndisturbed(db, id, db');
    }
    UndisturbedRecords(db, db', id);
  }

  lemma {:induction false} NextRecords(db: Db, step: Step)
    requires Ledger(db) && Recorded(db) && Within(db) && Next(db, step).Ok?
    ensures Recorded(Next(db, step).value)
  {
    match step
    case Arrive(p, q, price, at) =>
      LinksAdd(db, p, q, price, Arrival, at);
      UndisturbedRecords(db, Next(db, step).value, db.nextId);
    case New(_, _, _, _, _, _) => PaperworkRecords(db, step);
    case Remove(_) => PaperworkRecords(db, step);
    case Edit(id, patch) =>
      if IsPosted(db.docs, id) {
        EditPostedRecords(db, id, patch);
      } else {
        PaperworkRecords(db, step);
      }
    case Post(id) => PostRecords(db, id);
    case Unpost(id) => UnpostRecords(db, id);
  }

  lemma {:induction false} RecordedOverRuns(steps: seq<Step>)
    ensures Recorded(Run(EmptyDb, steps))
    decreases |steps|
  {
    if steps != [] {
      var before := steps[..|steps| - 1];
      RecordedOverRuns(before);
      LedgerOverRuns(before);
      WithinOverRuns(before);
      if Next(Run(EmptyDb, before), steps[|steps| - 1]).Ok? {
        NextRecords(Run(EmptyDb, before), steps[|steps| - 1]);
      }
    }
  }

  /** Whenever every posted item is fully backed, however the tables came to that, the two
      sales reports differ, over any selection of documents, exactly by the header excess
      of the sales. */
  lemma {:induction false} ReportsWhenBacked(steps: seq<Step>, ids: seq<Id>)
    requires FullyBacked(Run(EmptyDb, steps))
    ensures var db := Run(EmptyDb, steps);
            ProfitByClient(db, ids) == ProfitByProduct(db, ids) + Sum(ids, HeaderExcessOf(db.docs))
  {
    RecordedOverRuns(steps);
    LedgerOverRuns(steps);
    ProfitDifference(Run(EmptyDb, steps), ids);
  }
}
