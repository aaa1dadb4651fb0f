// Bulk reposting: the selected documents are unposted kind by kind and posted again in
// date order. When the replay succeeds, and why its order within a date is the best.

module Replay {
  import opened Sums
  import opened Tables
  import opened Inventory
  import opened Documents
  import opened Conservation

  datatype Action = REPOST | POST | UNPOST

  /** The filters of a run; an empty set of kinds selects every kind. */
  datatype Options = Options(action: Action, start: Option<int>, end: Option<int>, kinds: set<Kind>)

  const Unfiltered := Options(REPOST, None, None, {})

  // ---- selection

  /** Supplier returns are never reposted; deleted receipts and sales are passed over. */
  predicate Matches(options: Options, doc: Doc) {
    && !doc.kind.SupplierReturn?
    && (options.kinds == {} || doc.kind in options.kinds)
    && (doc.posted <==> !options.action.POST?)
    && (doc.deleted ==> doc.kind.BuyerReturn?)
    && (options.start.Some? ==> options.start.value <= doc.date)
    && (options.end.Some? ==> doc.date <= options.end.value)
  }

  /** The rows of the three queries, in whatever order the database returns them. */
  datatype Listing = Listing(sales: seq<Id>, buyerReturns: seq<Id>, receipts: seq<Id>) {
    function All(): seq<Id> {
      sales + buyerReturns + receipts
    }
  }

  ghost predicate ListsKind(db: Db, options: Options, kind: Kind, ids: seq<Id>) {
    NoRepeats(ids)
    && forall id :: id in ids <==> id in db.docs && db.docs[id].kind == kind && Matches(options, db.docs[id])
  }

  ghost predicate Lists(db: Db, options: Options, listing: Listing) {
    && ListsKind(db, options, Sale, listing.sales)
    && ListsKind(db, options, BuyerReturn, listing.buyerReturns)
    && ListsKind(db, options, GoodsReceipt, listing.receipts)
  }

  // ---- order

  function Weight(kind: Kind): nat {
    match kind
    case GoodsReceipt => 1
    case BuyerReturn => 3
    case Sale => 4
    case SupplierReturn => 0
  }

  /** Date, then kind, then creation time; the id settles what the comparator leaves equal. */
  predicate Precedes(docs: map<Id, Doc>, a: Id, b: Id)
    requires a in docs && b in docs
  {
    var x, y := docs[a], docs[b];
    x.date < y.date
    || (x.date == y.date && (Weight(x.kind) < Weight(y.kind)
    || (Weight(x.kind) == Weight(y.kind) && (x.created < y.created
    || (x.created == y.created && a < b)))))
  }

  ghost predicate Ordered(docs: map<Id, Doc>, ids: seq<Id>) {
    && (forall id :: id in ids ==> id in docs)
    && (forall i, j :: 0 <= i < j < |ids| ==> Precedes(docs, ids[i], ids[j]))
  }

  function InsertInOrder(docs: map<Id, Doc>, ids: seq<Id>, id: Id): seq<Id>
    requires id in docs && forall x :: x in ids ==> x in docs
    decreases |ids|
  {
    if ids == [] || Precedes(docs, ids[|ids| - 1], id) then ids + [id]
    else InsertInOrder(docs, ids[..|ids| - 1], id) + [ids[|ids| - 1]]
  }

  /** The documents in posting order. */
  function Sort(docs: map<Id, Doc>, ids: seq<Id>): (r: seq<Id>)
    requires forall x :: x in ids ==> x in docs
    ensures multiset(r) == multiset(ids)
    ensures forall x :: x in r ==> x in docs
    decreases |ids|
  {
    if ids == [] then []
    else
      var r := Sort(docs, ids[..|ids| - 1]);
      InsertPermutes(docs, r, ids[|ids| - 1]);
      assert ids == ids[..|ids| - 1] + [ids[|ids| - 1]];
      MultisetMembers(InsertInOrder(docs, r, ids[|ids| - 1]), ids);
      InsertInOrder(docs, r, ids[|ids| - 1])
  }

  lemma {:induction false} MultisetMembers(a: seq<Id>, b: seq<Id>)
    requires multiset(a) == multiset(b)
    ensures forall x :: x in a <==> x in b
  {
    forall x
      ensures x in a <==> x in b
    {
      assert x in a <==> x in multiset(a);
      assert x in b <==> x in multiset(b);
    }
  }

  lemma {:induction false} InsertPermutes(docs: map<Id, Doc>, ids: seq<Id>, id: Id)
    requires id in docs && forall x :: x in ids ==> x in docs
    ensures multiset(InsertInOrder(docs, ids, id)) == multiset(ids) + multiset{id}
    decreases |ids|
  {
    if !(ids == [] || Precedes(docs, ids[|ids| - 1], id)) {
      InsertPermutes(docs, ids[..|ids| - 1], id);
      assert ids == ids[..|ids| - 1] + [ids[|ids| - 1]];
    }
  }

  lemma {:induction false} OrderedSnoc(docs: map<Id, Doc>, ids: seq<Id>, id: Id)
    requires Ordered(docs, ids) && id in docs
    requires forall x :: x in ids ==> Precedes(docs, x, id)
    ensures Ordered(docs, ids + [id])
  {
    var r := ids + [id];
    forall i, j | 0 <= i < j < |r|
      ensures Precedes(docs, r[i], r[j])
    {
      assert r[i] in ids;
    }
  }

  lemma {:induction false} OrderedInit(docs: map<Id, Doc>, ids: seq<Id>)
    requires Ordered(docs, ids) && ids != []
    ensures Ordered(docs, ids[..|ids| - 1])
    ensures var before, last := ids[..|ids| - 1], ids[|ids| - 1]; forall x :: x in before ==> Precedes(docs, x, last)
  {
  }

  lemma {:induction false} InsertInOrderMembers(docs: map<Id, Doc>, ids: seq<Id>, id: Id)
    requires id in docs && forall x :: x in ids ==> x in docs
    ensures var r := InsertInOrder(docs, ids, id); forall x :: x in r <==> x in ids || x == id
  {
    InsertPermutes(docs, ids, id);
    assert multiset(ids + [id]) == multiset(InsertInOrder(docs, ids, id));
    MultisetMembers(InsertInOrder(docs, ids, id), ids + [id]);
  }

  lemma {:induction false} LastPrecedes(docs: map<Id, Doc>, ids: seq<Id>, id: Id)
    requires id in docs && Ordered(docs, ids) && ids != [] && Precedes(docs, ids[|ids| - 1], id)
    ensures forall x :: x in ids ==> Precedes(docs, x, id)
  {
    OrderedInit(docs, ids);
    assert ids == ids[..|ids| - 1] + [ids[|ids| - 1]];
  }

  lemma {:induction false} InsertOrdered(docs: map<Id, Doc>, ids: seq<Id>, id: Id)
    requires id in docs && Ordered(docs, ids) && id !in ids
    ensures Ordered(docs, InsertInOrder(docs, ids, id))
    decreases |ids|
  {
    if ids == [] {
      OrderedSnoc(docs, ids, id);
    } else if Precedes(docs, ids[|ids| - 1], id) {
      LastPrecedes(docs, ids, id);
      OrderedSnoc(docs, ids, id);
    } else {
      var before, last := ids[..|ids| - 1], ids[|ids| - 1];
      OrderedInit(docs, ids);
      InsertOrdered(docs, before, id);
      InsertInOrderMembers(docs, before, id);
      assert Precedes(docs, id, last);
      OrderedSnoc(docs, InsertInOrder(docs, before, id), last);
    }
  }

  /** Sorting orders the documents. */
  lemma {:induction false} SortOrders(docs: map<Id, Doc>, ids: seq<Id>)
    requires NoRepeats(ids) && forall x :: x in ids ==> x in docs
    ensures Ordered(docs, Sort(docs, ids))
    decreases |ids|
  {
    if ids != [] {
      var before := ids[..|ids| - 1];
      SortOrders(docs, before);
      MultisetMembers(Sort(docs, before), before);
      InsertOrdered(docs, Sort(docs, before), ids[|ids| - 1]);
    }
  }

  /** An ordered arrangement of given documents is unique, so the order in which the
      queries return their rows does not matter. */
  lemma {:induction false} OrderedUnique(docs: map<Id, Doc>, a: seq<Id>, b: seq<Id>)
    requires Ordered(docs, a) && Ordered(docs, b)
    requires forall x :: x in a <==> x in b
    ensures a == b
    decreases |a|
  {
    if a == [] {
      NoMembers(b);
    } else {
      LastsAgree(docs, a, b);
      InitsAgree(docs, a, b);
      var n, m := |a| - 1, |b| - 1;
      OrderedUnique(docs, a[..n], b[..m]);
      assert a == a[..n] + [a[n]] && b == b[..m] + [b[m]];
    }
  }

  lemma {:induction false} LastsAgree(docs: map<Id, Doc>, a: seq<Id>, b: seq<Id>)
    requires Ordered(docs, a) && Ordered(docs, b) && a != []
    requires forall x :: x in a <==> x in b
    ensures b != [] && a[|a| - 1] == b[|b| - 1]
  {
    assert a[|a| - 1] in b;
    LastIsGreatest(docs, a, b[|b| - 1]);
    LastIsGreatest(docs, b, a[|a| - 1]);
  }

  lemma {:induction false} InitsAgree(docs: map<Id, Doc>, a: seq<Id>, b: seq<Id>)
    requires Ordered(docs, a) && Ordered(docs, b) && a != [] && b != [] && a[|a| - 1] == b[|b| - 1]
    requires forall x :: x in a <==> x in b
    ensures var a', b' := a[..|a| - 1], b[..|b| - 1];
            Ordered(docs, a') && Ordered(docs, b') && forall x :: x in a' <==> x in b'
  {
    var a', b' := a[..|a| - 1], b[..|b| - 1];
    forall x
      ensures x in a' <==> x in b'
    {
      NotLast(docs, a, x);
      NotLast(docs, b, x);
    }
  }

  lemma {:induction false} LastIsGreatest(docs: map<Id, Doc>, a: seq<Id>, y: Id)
    requires Ordered(docs, a) && y in a
    ensures y == a[|a| - 1] || Precedes(docs, y, a[|a| - 1])
  {
    var i :| 0 <= i < |a| && a[i] == y;
  }

  lemma {:induction false} NotLast(docs: map<Id, Doc>, a: seq<Id>, z: Id)
    requires Ordered(docs, a) && a != []
    ensures z in a[..|a| - 1] <==> z in a && z != a[|a| - 1]
  {
    var n := |a| - 1;
    if z in a[..n] {
      var i :| 0 <= i < n && a[i] == z;
      assert Precedes(docs, a[i], a[n]);
    }
  }

  // ---- the run

  function UnpostAll(db: Db, ids: seq<Id>): Result<Db>
    decreases |ids|
  {
    if ids == [] then Ok(db)
    else
      var before :- UnpostAll(db, ids[..|ids| - 1]);
      UnpostDoc(before, ids[|ids| - 1])
  }

  function PostAll(db: Db, ids: seq<Id>): Result<Db>
    decreases |ids|
  {
    if ids == [] then Ok(db)
    else
      var before :- PostAll(db, ids[..|ids| - 1]);
      PostDoc(before, ids[|ids| - 1])
  }

  /** One run, all or nothing: sales, then buyer returns, then receipts are unposted,
      and everything is posted again in order. */
  function Repost(db: Db, action: Action, listing: Listing): Result<Db>
    requires forall id :: id in listing.All() ==> id in db.docs
  {
    var cleared :- if action.POST? then Ok(db) else UnpostAll(db, listing.All());
    if action.UNPOST? then Ok(cleared) else PostAll(cleared, Sort(db.docs, listing.All()))
  }

  // ---- a run is a run of single requests

  lemma {:induction false} RunConcat(db: Db, a: seq<Step>, b: seq<Step>)
    ensures Run(db, a + b) == Run(Run(db, a), b)
    decreases |b|
  {
    if b == [] {
      assert a + b == a;
    } else {
      assert (a + b)[..|a + b| - 1] == a + b[..|b| - 1];
      RunConcat(db, a, b[..|b| - 1]);
    }
  }

  function Unposts(ids: seq<Id>): seq<Step> {
    Map(ids, (id: Id) => Unpost(id))
  }

  function Posts(ids: seq<Id>): seq<Step> {
    Map(ids, (id: Id) => Post(id))
  }

  lemma {:induction false} RunSnoc(db: Db, steps: seq<Step>, step: Step)
    ensures Run(db, steps + [step]) == Apply(Run(db, steps), step)
  {
    assert (steps + [step])[..|steps|] == steps;
  }

  lemma {:induction false} UnpostLast(db: Db, ids: seq<Id>)
    requires ids != [] && UnpostAll(db, ids).Ok?
    ensures UnpostAll(db, ids[..|ids| - 1]).Ok?
    ensures UnpostAll(db, ids).value
            == Apply(UnpostAll(db, ids[..|ids| - 1]).value, Unpost(ids[|ids| - 1]))
  {
  }

  lemma {:induction false} PostLast(db: Db, ids: seq<Id>)
    requires ids != [] && PostAll(db, ids).Ok?
    ensures PostAll(db, ids[..|ids| - 1]).Ok?
    ensures PostAll(db, ids).value == Apply(PostAll(db, ids[..|ids| - 1]).value, Post(ids[|ids| - 1]))
  {
  }

  lemma {:induction false} OneMoreUnpost(db: Db, ids: seq<Id>, mid: Db, after: Db)
    requires ids != [] && Run(db, Unposts(ids[..|ids| - 1])) == mid
    requires after == Apply(mid, Unpost(ids[|ids| - 1]))
    ensures Run(db, Unposts(ids)) == after
  {
    var before, id := ids[..|ids| - 1], ids[|ids| - 1];
    assert Unposts(ids) == Unposts(before) + [Unpost(id)];
    RunSnoc(db, Unposts(before), Unpost(id));
  }

  lemma {:induction false} UnpostAllRuns(db: Db, ids: seq<Id>)
    requires UnpostAll(db, ids).Ok?
    ensures Run(db, Unposts(ids)) == UnpostAll(db, ids).value
    decreases |ids|
  {
    if ids == [] {
      assert Unposts(ids) == [];
    } else {
      UnpostLast(db, ids);
      UnpostAllRuns(db, ids[..|ids| - 1]);
      OneMoreUnpost(db, ids, UnpostAll(db, ids[..|ids| - 1]).value, UnpostAll(db, ids).value);
    }
  }

  lemma {:induction false} OneMorePost(db: Db, ids: seq<Id>, mid: Db, after: Db)
    requires ids != [] && Run(db, Posts(ids[..|ids| - 1])) == mid
    requires after == Apply(mid, Post(ids[|ids| - 1]))
    ensures Run(db, Posts(ids)) == after
  {
    var before, id := ids[..|ids| - 1], ids[|ids| - 1];
    assert Posts(ids) == Posts(before) + [Post(id)];
    RunSnoc(db, Posts(before), Post(id));
  }

  lemma {:induction false} PostAllRuns(db: Db, ids: seq<Id>)
    requires PostAll(db, ids).Ok?
    ensures Run(db, Posts(ids)) == PostAll(db, ids).value
    decreases |ids|
  {
    if ids == [] {
      assert Posts(ids) == [];
    } else {
      PostLast(db, ids);
      PostAllRuns(db, ids[..|ids| - 1]);
      OneMorePost(db, ids, PostAll(db, ids[..|ids| - 1]).value, PostAll(db, ids).value);
    }
  }

  /** A committed bulk run does what single requests in that order would do, so every
      law about runs of requests covers it. */
  lemma {:induction false} RepostIsRun(db: Db, action: Action, listing: Listing)
    requires forall id :: id in listing.All() ==> id in db.docs
    requires Repost(db, action, listing).Ok?
    ensures Repost(db, action, listing).value
            == Run(db, (if action.POST? then [] else Unposts(listing.All()))
                       + if action.UNPOST? then [] else Posts(Sort(db.docs, listing.All())))
  {
    var ids := listing.All();
    var first := if action.POST? then [] else Unposts(ids);
    var second := if action.UNPOST? then [] else Posts(Sort(db.docs, ids));
    RunConcat(db, first, second);
    if !action.POST? {
      UnpostAllRuns(db, ids);
    }
    if !action.UNPOST? {
      PostAllRuns(Run(db, first), Sort(db.docs, ids));
    }
  }

  // ---- when the replay succeeds

  /** What posting a document adds to the stock of a product in a warehouse. */
  function SupplyOf(docs: map<Id, Doc>, p: Id, w: Option<Id>): Id -> int {
    (id: Id) =>
      if id in docs && (docs[id].kind.GoodsReceipt? || docs[id].kind.BuyerReturn?) && w.Some? && docs[id].warehouse == w
      then Demand(docs[id].items, p) else 0
  }

  function Supply(docs: map<Id, Doc>, ids: seq<Id>, p: Id, w: Option<Id>): int {
    Sum(ids, SupplyOf(docs, p, w))
  }

  /** What posting a document takes from it. */
  function OutflowOf(docs: map<Id, Doc>, p: Id, w: Option<Id>): Id -> int {
    (id: Id) => if id in docs && docs[id].kind.Sale? && docs[id].warehouse == w then Demand(docs[id].items, p) else 0
  }

  function Outflow(docs: map<Id, Doc>, ids: seq<Id>, p: Id, w: Option<Id>): int {
    Sum(ids, OutflowOf(docs, p, w))
  }

  /** At every sale in the list, opening stock plus the supply posted so far covers the
      demand of all sales up to and including it, product by product. */
  ghost predicate Covered(db: Db, ids: seq<Id>) {
    forall k, p {:trigger Outflow(db.docs, ids[..k + 1], p, db.docs[ids[k]].warehouse)} ::
      0 <= k < |ids| && ids[k] in db.docs && db.docs[ids[k]].kind.Sale? ==>
        var w := db.docs[ids[k]].warehouse;
        Outflow(db.docs, ids[..k + 1], p, w) <= Available(db.docs, db.batches, p, w) + Supply(db.docs, ids[..k], p, w)
  }

  /** Documents a replay may be asked to post. */
  ghost predicate Postable(docs: map<Id, Doc>, ids: seq<Id>) {
    NoRepeats(ids) && forall id :: id in ids ==> id in docs && !docs[id].posted && !docs[id].kind.SupplierReturn?
  }

  /** Posting moves only status and profit. */
  ghost predicate SameHeaders(docs: map<Id, Doc>, docs': map<Id, Doc>) {
    docs'.Keys == docs.Keys && forall d :: d in docs ==> SameHeader(docs[d], docs'[d])
  }

  predicate SameHeader(a: Doc, b: Doc) {
    b == a.(posted := b.posted, profit := b.profit)
  }

  lemma {:induction false} AvailableSameHeaders(docs: map<Id, Doc>, docs': map<Id, Doc>, bs: seq<Batch>, p: Id,
                                                w: Option<Id>)
    requires SameHeaders(docs, docs')
    ensures Available(docs', bs, p, w) == Available(docs, bs, p, w)
  {
    forall i | 0 <= i < |bs|
      ensures CapOf(docs', p, w)(bs[i]) == CapOf(docs, p, w)(bs[i])
    {
      assert WarehouseOf(docs', bs[i]) == WarehouseOf(docs, bs[i]);
    }
    SumSame(bs, bs, CapOf(docs', p, w), CapOf(docs, p, w));
  }

  lemma {:induction false} StockAdded(db: Db, product: Id, q: nat, price: int, source: Source, at: int, p: Id,
                                      w: Option<Id>)
    ensures Available(db.docs, AddStock(db, product, q, price, source, at).batches, p, w)
            == Available(db.docs, db.batches, p, w)
               + CapOf(db.docs, p, w)(Batch(db.nextId, product, q, q, price, source, at))
  {
    SumInsert(db.batches, Batch(db.nextId, product, q, q, price, source, at), CreatedAt(), CapOf(db.docs, p, w));
  }

  lemma {:induction false} ReceiptCap(docs: map<Id, Doc>, id: Id, p: Id, w: Option<Id>, b: Batch)
    requires id in docs && docs[id].kind.GoodsReceipt? && b.source == FromReceipt(id) && b.left >= 0
    ensures CapOf(docs, p, w)(b) == if b.product == p && w.Some? && docs[id].warehouse == w then b.left else 0
  {
  }

  lemma {:induction false} ReceiptSupplies(db: Db, id: Id, items: seq<Item>, date: int, p: Id, w: Option<Id>)
    requires id in db.docs && db.docs[id].kind.GoodsReceipt?
    ensures Available(db.docs, AddReceiptItems(db, id, items, date).batches, p, w)
            == Available(db.docs, db.batches, p, w)
               + if w.Some? && db.docs[id].warehouse == w then Demand(items, p) else 0
    decreases |items|
  {
    if items != [] {
      var n := |items| - 1;
      ReceiptSupplies(db, id, items[..n], date, p, w);
      DemandSnoc(items, p);
      var before := AddReceiptItems(db, id, items[..n], date);
      StockAdded(before, items[n].product, items[n].quantity, items[n].price, FromReceipt(id), date, p, w);
      ReceiptCap(db.docs, id, p, w, Batch(before.nextId, items[n].product, items[n].quantity, items[n].quantity,
                                          items[n].price, FromReceipt(id), date));
    }
  }

  lemma {:induction false} ReturnSupplies(db: Db, id: Id, items: seq<Item>, date: int, p: Id, w: Option<Id>)
    requires id in db.docs && db.docs[id].kind.BuyerReturn?
    ensures Available(db.docs, RestockItems(db, id, items, date).db.batches, p, w)
            == Available(db.docs, db.batches, p, w)
               + if w.Some? && db.docs[id].warehouse == w then Demand(items, p) else 0
    decreases |items|
  {
    if items != [] {
      var n := |items| - 1;
      ReturnSupplies(db, id, items[..n], date, p, w);
      DemandSnoc(items, p);
      var before := RestockItems(db, id, items[..n], date).db;
      StockAdded(before, items[n].product, items[n].quantity, LastCost(before.batches, items[n].product),
                 FromReturn(id, n), date, p, w);
    }
  }

  /** Available stock in another warehouse is untouched by a deduction. */
  lemma {:induction false} OtherWarehouse(db: Db, doc: Id, v: Option<Id>, items: seq<Item>, p: Id, w: Option<Id>)
    requires w != v && DeductItems(db, doc, v, items).Ok?
    ensures Available(db.docs, DeductItems(db, doc, v, items).value.batches, p, w)
            == Available(db.docs, db.batches, p, w)
    decreases |items|
  {
    if items != [] {
      var n := |items| - 1;
      var before, after := DeductItems(db, doc, v, items[..n]).value, DeductItems(db, doc, v, items).value;
      OtherWarehouse(db, doc, v, items[..n], p, w);
      forall i | 0 <= i < |before.batches|
        ensures CapOf(db.docs, p, w)(after.batches[i]) == CapOf(db.docs, p, w)(before.batches[i])
      {
        assert WarehouseOf(db.docs, before.batches[i]) == w ==>
                 CapOf(db.docs, items[n].product, v)(before.batches[i]) == 0;
      }
      SumSame(after.batches, before.batches, CapOf(db.docs, p, w), CapOf(db.docs, p, w));
    }
  }

  lemma {:induction false} SaleTakes(db: Db, id: Id, p: Id, w: Option<Id>)
    requires id in db.docs && DeductItems(db, id, db.docs[id].warehouse, db.docs[id].items).Ok?
    ensures Available(db.docs, DeductItems(db, id, db.docs[id].warehouse, db.docs[id].items).value.batches, p, w)
            == Available(db.docs, db.batches, p, w)
               - if db.docs[id].warehouse == w then Demand(db.docs[id].items, p) else 0
  {
    var doc := db.docs[id];
    if doc.warehouse == w {
      DeductItemsAtOnce(db, id, w, doc.items);
    } else {
      OtherWarehouse(db, id, doc.warehouse, doc.items, p, w);
    }
  }

  /** Posting one document: what it does to available stock, and when it is possible. */
  lemma {:induction false} PostDocStock(db: Db, id: Id)
    requires id in db.docs && !db.docs[id].posted && !db.docs[id].kind.SupplierReturn?
    ensures PostDoc(db, id).Ok? <==>
              (db.docs[id].kind.Sale? ==>
                 forall p :: Demand(db.docs[id].items, p) <= Available(db.docs, db.batches, p, db.docs[id].warehouse))
    ensures PostDoc(db, id).Ok? ==> SameHeaders(db.docs, PostDoc(db, id).value.docs)
    ensures PostDoc(db, id).Ok? ==> forall d :: d in db.docs && d != id ==> PostDoc(db, id).value.docs[d] == db.docs[d]
    ensures PostDoc(db, id).Ok? ==> forall p, w ::
              var db' := PostDoc(db, id).value;
              Available(db'.docs, db'.batches, p, w)
              == Available(db.docs, db.batches, p, w) + SupplyOf(db.docs, p, w)(id) - OutflowOf(db.docs, p, w)(id)
  {
    var doc := db.docs[id];
    if doc.kind.Sale? {
      DeductItemsAtOnce(db, id, doc.warehouse, doc.items);
    }
    if PostDoc(db, id).Ok? {
      var db' := PostDoc(db, id).value;
      forall p, w
        ensures Available(db'.docs, db'.batches, p, w)
                == Available(db.docs, db.batches, p, w) + SupplyOf(db.docs, p, w)(id) - OutflowOf(db.docs, p, w)(id)
      {
        AvailableSameHeaders(db.docs, db'.docs, db'.batches, p, w);
        match doc.kind {
          case GoodsReceipt => ReceiptSupplies(db, id, doc.items, doc.date, p, w);
          case BuyerReturn => ReturnSupplies(db, id, doc.items, doc.date, p, w);
          case Sale => SaleTakes(db, id, p, w);
        }
      }
    }
  }

  lemma {:induction false} PostableBefore(docs: map<Id, Doc>, ids: seq<Id>)
    requires Postable(docs, ids) && ids != []
    ensures Postable(docs, ids[..|ids| - 1]) && ids[|ids| - 1] !in ids[..|ids| - 1]
  {
  }

  /** After a replay: headers kept, documents outside the list untouched, and stock moved
      by exactly what the list supplies and takes. */
  lemma {:induction false} PostAllStock(db: Db, ids: seq<Id>)
    requires Postable(db.docs, ids) && PostAll(db, ids).Ok?
    ensures var db' := PostAll(db, ids).value;
            && SameHeaders(db.docs, db'.docs)
            && (forall d :: d in db.docs && d !in ids ==> db'.docs[d] == db.docs[d])
            && (forall p, w :: Available(db'.docs, db'.batches, p, w)
                               == Available(db.docs, db.batches, p, w)
                                 + Supply(db.docs, ids, p, w) - Outflow(db.docs, ids, p, w))
    decreases |ids|
  {
    if ids != [] {
      var n := |ids| - 1;
      PostableBefore(db.docs, ids);
      PostAllStock(db, ids[..n]);
      var before := PostAll(db, ids[..n]).value;
      PostDocStock(before, ids[n]);
      assert before.docs[ids[n]] == db.docs[ids[n]];
    }
  }

  lemma {:induction false} CoveredSnoc(db: Db, ids: seq<Id>)
    requires ids != [] && forall id :: id in ids ==> id in db.docs
    ensures var n := |ids| - 1; var last := ids[n]; var w := db.docs[last].warehouse;
            Covered(db, ids) <==>
              && Covered(db, ids[..n])
              && (db.docs[last].kind.Sale? ==> forall p {:trigger Outflow(db.docs, ids, p, w)} ::
                    Outflow(db.docs, ids, p, w)
                    <= Available(db.docs, db.batches, p, w) + Supply(db.docs, ids[..n], p, w))
  {
    var n := |ids| - 1;
    var before := ids[..n];
    assert forall k {:trigger before[k]} ::
      0 <= k < n ==> before[..k + 1] == ids[..k + 1] && before[..k] == ids[..k] && before[k] == ids[k];
    assert ids[..n + 1] == ids;
    if Covered(db, ids) {
      forall k, p {:trigger Outflow(db.docs, before[..k + 1], p, db.docs[before[k]].warehouse)} |
        0 <= k < n && before[k] in db.docs && db.docs[before[k]].kind.Sale?
        ensures var w := db.docs[before[k]].warehouse;
                Outflow(db.docs, before[..k + 1], p, w)
                <= Available(db.docs, db.batches, p, w) + Supply(db.docs, before[..k], p, w)
      {
        var w := db.docs[ids[k]].warehouse;
        assert Outflow(db.docs, ids[..k + 1], p, w)
               <= Available(db.docs, db.batches, p, w) + Supply(db.docs, ids[..k], p, w);
      }
      forall p {:trigger Outflow(db.docs, ids, p, db.docs[ids[n]].warehouse)} | db.docs[ids[n]].kind.Sale?
        ensures var w := db.docs[ids[n]].warehouse;
                Outflow(db.docs, ids, p, w) <= Available(db.docs, db.batches, p, w) + Supply(db.docs, ids[..n], p, w)
      {
        var w := db.docs[ids[n]].warehouse;
        assert Outflow(db.docs, ids[..n + 1], p, w)
               <= Available(db.docs, db.batches, p, w) + Supply(db.docs, ids[..n], p, w);
      }
    }
  }

  /** The replay succeeds exactly when the list is covered. */
  lemma {:induction false} ReplaySucceeds(db: Db, ids: seq<Id>)
    requires Postable(db.docs, ids)
    ensures PostAll(db, ids).Ok? <==> Covered(db, ids)
    decreases |ids|
  {
    if ids != [] {
      var n := |ids| - 1;
      PostableBefore(db.docs, ids);
      ReplaySucceeds(db, ids[..n]);
      CoveredSnoc(db, ids);
      if PostAll(db, ids[..n]).Ok? {
        LastPosts(db, ids);
      } else {
        FailsEarlier(db, ids);
      }
    }
  }

  lemma {:induction false} FailsEarlier(db: Db, ids: seq<Id>)
    requires ids != [] && PostAll(db, ids[..|ids| - 1]).Err?
    ensures PostAll(db, ids) == PostAll(db, ids[..|ids| - 1])
  {
  }

  lemma {:induction false} LastPosts(db: Db, ids: seq<Id>)
    requires ids != [] && Postable(db.docs, ids) && PostAll(db, ids[..|ids| - 1]).Ok?
    ensures var n := |ids| - 1; var last := db.docs[ids[n]];
            PostAll(db, ids).Ok? <==>
              (last.kind.Sale? ==> forall p {:trigger Outflow(db.docs, ids, p, last.warehouse)} ::
                 Outflow(db.docs, ids, p, last.warehouse)
                 <= Available(db.docs, db.batches, p, last.warehouse) + Supply(db.docs, ids[..n], p, last.warehouse))
  {
    var n := |ids| - 1;
    var id := ids[n];
    var w := db.docs[id].warehouse;
    PostableBefore(db.docs, ids);
    PostAllStock(db, ids[..n]);
    var before := PostAll(db, ids[..n]).value;
    assert before.docs[id] == db.docs[id];
    PostDocStock(before, id);
    if db.docs[id].kind.Sale? {
      forall p
        ensures Demand(db.docs[id].items, p) <= Available(before.docs, before.batches, p, w) <==>
                Outflow(db.docs, ids, p, w) <= Available(db.docs, db.batches, p, w) + Supply(db.docs, ids[..n], p, w)
      {
        assert Outflow(db.docs, ids, p, w) == Outflow(db.docs, ids[..n], p, w) + OutflowOf(db.docs, p, w)(id);
      }
    }
  }

  // ---- the order within a date is the best

  /** Earlier dates first, whatever the order within a date. */
  ghost predicate ByDate(docs: map<Id, Doc>, ids: seq<Id>) {
    && (forall id :: id in ids ==> id in docs)
    && forall i, j :: 0 <= i < j < |ids| ==> docs[ids[i]].date <= docs[ids[j]].date
  }

  function UpTo(docs: map<Id, Doc>, d: int, f: Id -> int): Id -> int {
    (id: Id) => if id in docs && docs[id].date <= d then f(id) else 0
  }

  /** How far an arrangement by date has come when date `d` is over. */
  lemma {:induction false} DateBoundary(docs: map<Id, Doc>, ids: seq<Id>, d: int) returns (m: nat)
    requires ByDate(docs, ids)
    ensures m <= |ids|
    ensures forall i :: 0 <= i < m ==> docs[ids[i]].date <= d
    ensures forall i :: m <= i < |ids| ==> docs[ids[i]].date > d
    decreases |ids|
  {
    if ids == [] || docs[ids[|ids| - 1]].date <= d {
      m := |ids|;
    } else {
      m := DateBoundary(docs, ids[..|ids| - 1], d);
    }
  }

  lemma {:induction false} PrefixUpTo(docs: map<Id, Doc>, ids: seq<Id>, d: int, m: nat, f: Id -> int)
    requires forall id :: id in ids ==> id in docs
    requires m <= |ids|
    requires forall i :: 0 <= i < m ==> docs[ids[i]].date <= d
    requires forall i :: m <= i < |ids| ==> docs[ids[i]].date > d
    ensures Sum(ids[..m], f) == Sum(ids, UpTo(docs, d, f))
  {
    var g := UpTo(docs, d, f);
    assert ids == ids[..m] + ids[m..];
    SumConcat(ids[..m], ids[m..], g);
    SumZero(ids[m..], g);
    SumSame(ids[..m], ids[..m], f, g);
  }

  /** Opening stock and supply so far cover the demand so far at every point of a covered
      list, not only at its sales. */
  lemma {:induction false} CoveredEverywhere(db: Db, ids: seq<Id>, m: nat, p: Id, w: Option<Id>)
    requires Covered(db, ids) && m <= |ids| && forall id :: id in ids ==> id in db.docs
    ensures Outflow(db.docs, ids[..m], p, w) <= Available(db.docs, db.batches, p, w) + Supply(db.docs, ids[..m], p, w)
    decreases m
  {
    if m > 0 {
      var k := m - 1;
      CoveredEverywhere(db, ids, k, p, w);
      assert ids[..m][..k] == ids[..k];
      var id := ids[k];
      if db.docs[id].kind.Sale? && db.docs[id].warehouse == w {
        assert Outflow(db.docs, ids[..k + 1], p, db.docs[ids[k]].warehouse)
               <= Available(db.docs, db.batches, p, w) + Supply(db.docs, ids[..k], p, w);
      }
    }
  }

  lemma {:induction false} SupplyAfterSale(docs: map<Id, Doc>, ids: seq<Id>, k: nat, p: Id, w: Option<Id>, id: Id)
    requires Ordered(docs, ids) && k < |ids| && docs[ids[k]].kind.Sale? && id in ids[k..]
    requires forall x :: x in ids ==> !docs[x].kind.SupplierReturn?
    ensures UpTo(docs, docs[ids[k]].date, SupplyOf(docs, p, w))(id) == 0
  {
    var j :| k <= j < |ids| && ids[j] == id;
    assert j > k ==> Precedes(docs, ids[k], ids[j]);
  }

  lemma {:induction false} DatesBeforeSale(docs: map<Id, Doc>, ids: seq<Id>, k: nat)
    requires Ordered(docs, ids) && k < |ids|
    ensures forall i :: 0 <= i < k + 1 ==> ids[i] in docs && docs[ids[i]].date <= docs[ids[k]].date
  {
    forall i | 0 <= i < k + 1
      ensures ids[i] in docs && docs[ids[i]].date <= docs[ids[k]].date
    {
      assert i < k ==> Precedes(docs, ids[i], ids[k]);
    }
  }

  /** In the code's order all supply of a sale's date, and of earlier dates, comes before it. */
  lemma {:induction false} SupplyBeforeSale(docs: map<Id, Doc>, ids: seq<Id>, k: nat, p: Id, w: Option<Id>)
    requires Ordered(docs, ids) && k < |ids| && docs[ids[k]].kind.Sale?
    requires forall id :: id in ids ==> !docs[id].kind.SupplierReturn?
    ensures Supply(docs, ids[..k], p, w) == Sum(ids, UpTo(docs, docs[ids[k]].date, SupplyOf(docs, p, w)))
  {
    var supply := UpTo(docs, docs[ids[k]].date, SupplyOf(docs, p, w));
    assert ids == ids[..k] + ids[k..];
    SumConcat(ids[..k], ids[k..], supply);
    forall id | id in ids[k..]
      ensures supply(id) == 0
    {
      SupplyAfterSale(docs, ids, k, p, w, id);
    }
    SumZero(ids[k..], supply);
    DatesBeforeSale(docs, ids, k);
    SumSame(ids[..k], ids[..k], SupplyOf(docs, p, w), supply);
  }

  lemma {:induction false} DemandUpToSale(docs: map<Id, Doc>, ids: seq<Id>, k: nat, p: Id, w: Option<Id>)
    requires Ordered(docs, ids) && k < |ids|
    ensures Outflow(docs, ids[..k + 1], p, w) <= Sum(ids, UpTo(docs, docs[ids[k]].date, OutflowOf(docs, p, w)))
  {
    var outflow := UpTo(docs, docs[ids[k]].date, OutflowOf(docs, p, w));
    assert ids == ids[..k + 1] + ids[k + 1..];
    SumConcat(ids[..k + 1], ids[k + 1..], outflow);
    DatesBeforeSale(docs, ids, k);
    SumSame(ids[..k + 1], ids[..k + 1], OutflowOf(docs, p, w), outflow);
    SumNonNegative(ids[k + 1..], outflow);
  }

  /** If any arrangement of the documents by date can be posted, the code's order can. */
  lemma {:induction false} CodeOrderIsBest(db: Db, ids: seq<Id>, other: seq<Id>)
    requires Postable(db.docs, ids) && Postable(db.docs, other)
    requires multiset(other) == multiset(ids) && ByDate(db.docs, other)
    requires PostAll(db, other).Ok?
    ensures PostAll(db, Sort(db.docs, ids)).Ok?
  {
    var sorted := Sort(db.docs, ids);
    SortOrders(db.docs, ids);
    MultisetMembers(sorted, ids);
    OrderedNoRepeats(db.docs, sorted);
    ReplaySucceeds(db, other);
    ReplaySucceeds(db, sorted);
    forall k, p {:trigger Outflow(db.docs, sorted[..k + 1], p, db.docs[sorted[k]].warehouse)} |
      0 <= k < |sorted| && sorted[k] in db.docs && db.docs[sorted[k]].kind.Sale?
      ensures var w := db.docs[sorted[k]].warehouse;
              Outflow(db.docs, sorted[..k + 1], p, w)
              <= Available(db.docs, db.batches, p, w) + Supply(db.docs, sorted[..k], p, w)
    {
      BestAt(db, sorted, other, k, p);
    }
  }

  lemma {:induction false} BestAt(db: Db, sorted: seq<Id>, other: seq<Id>, k: nat, p: Id)
    requires Ordered(db.docs, sorted) && ByDate(db.docs, other) && multiset(sorted) == multiset(other)
    requires forall id :: id in sorted ==> !db.docs[id].kind.SupplierReturn?
    requires Covered(db, other)
    requires k < |sorted| && db.docs[sorted[k]].kind.Sale?
    ensures var w := db.docs[sorted[k]].warehouse;
            Outflow(db.docs, sorted[..k + 1], p, w)
            <= Available(db.docs, db.batches, p, w) + Supply(db.docs, sorted[..k], p, w)
  {
    var w, d := db.docs[sorted[k]].warehouse, db.docs[sorted[k]].date;
    var supply, outflow := SupplyOf(db.docs, p, w), OutflowOf(db.docs, p, w);
    var m := DateBoundary(db.docs, other, d);
    CoveredEverywhere(db, other, m, p, w);
    PrefixUpTo(db.docs, other, d, m, supply);
    PrefixUpTo(db.docs, other, d, m, outflow);
    SumPermutation(sorted, other, UpTo(db.docs, d, supply));
    SumPermutation(sorted, other, UpTo(db.docs, d, outflow));
    SupplyBeforeSale(db.docs, sorted, k, p, w);
    DemandUpToSale(db.docs, sorted, k, p, w);
  }

  lemma {:induction false} OrderedNoRepeats(docs: map<Id, Doc>, ids: seq<Id>)
    requires Ordered(docs, ids)
    ensures NoRepeats(ids)
  {
    forall i, j | 0 <= i < j < |ids|
      ensures ids[i] != ids[j]
    {
      assert Precedes(docs, ids[i], ids[j]);
    }
  }
}
