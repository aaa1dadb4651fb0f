// An unfiltered repost starts from the same blank tables whatever happened before, so
// reposting again changes nothing but the ids of the batches.

module Canonical {
  import opened Sums
  import opened Tables
  import opened Inventory
  import opened Documents
  import opened Conservation
  import opened Runs
  import opened OnHand
  import H = History
  import R = Renumbering
  import opened Replay
  import opened Clearing

  // ---- the blank tables

  /** A document the unfiltered run selects is unposted first; others stay as they are. */
  function BlankDoc(doc: Doc): Doc {
    if Matches(Unfiltered, doc) then ClearedDoc(doc) else doc
  }

  function BlankDocs(docs: map<Id, Doc>): map<Id, Doc> {
    map d | d in docs :: BlankDoc(docs[d])
  }

  function Full(): Batch -> Batch {
    (b: Batch) => b.(left := b.total)
  }

  function IsArrival(): Batch -> bool {
    (b: Batch) => b.source.Arrival?
  }

  /** The manual arrivals, each as full as it came. */
  function Arrivals(bs: seq<Batch>): seq<Batch> {
    Filter(Map(bs, Full()), IsArrival())
  }

  /** No selected document posted, no allocation, no batch but the manual arrivals. */
  function Blank(db: Db): Db {
    Db(BlankDocs(db.docs), Arrivals(db.batches), [], db.nextId)
  }

  /** What holds of the tables besides the ledger: rows draw on documents' batches, and only
      sales are flagged as deleted. */
  ghost predicate Plain(db: Db) {
    Fitting(db) && forall d :: d in db.docs && db.docs[d].deleted ==> db.docs[d].kind.Sale?
  }

  /** Stock of a receipt is held by documents the unfiltered run selects, and by no others:
      neither by a supplier return nor by a sale that is flagged as deleted. */
  ghost predicate ReceiptsFreed(db: Db) {
    forall r, b :: r in db.rows && b in db.batches && b.id == r.batch && b.source.FromReceipt? ==>
      r.doc in db.docs && Matches(Unfiltered, db.docs[r.doc])
  }

  // ---- phase one of an unfiltered run

  lemma {:induction false} RefilledFull(bs: seq<Batch>, rows: seq<Row>, bs': seq<Batch>, rows': seq<Row>)
    requires Refilled(bs, rows, bs', rows')
    ensures Map(bs', Full()) == Map(bs, Full())
  {
    forall i | 0 <= i < |bs|
      ensures Map(bs', Full())[i] == Map(bs, Full())[i]
    {
    }
  }

  lemma {:induction false} RefilledPerBatch(bs: seq<Batch>, rows: seq<Row>, bs': seq<Batch>, rows': seq<Row>)
    requires Refilled(bs, rows, bs', rows')
    ensures ConservedPerBatch(bs', rows') <==> ConservedPerBatch(bs, rows)
  {
    forall i | 0 <= i < |bs|
      ensures Gap(rows', bs'[i]) == Gap(rows, bs[i])
    {
    }
    GapsKept(bs, rows, bs', rows');
    GapsKept(bs', rows', bs, rows);
  }

  /** A receipt's group of which no batch is short accounts batch by batch, and is not used. */
  lemma {:induction false} GroupSettled(db: Db, b: Batch)
    requires Ledger(db) && b in db.batches && b.source.FromReceipt?
    requires forall c :: c in db.batches && InGroup(c, b.source.doc, b.product) ==> c.left >= c.total
    ensures Gap(db.rows, b) == 0 && Used(db.rows, b.id) == 0
  {
    var r, p := b.source.doc, b.product;
    var f := GroupGapOf(db.rows, r, p);
    UnsoldGroup(db, r, p);
    forall c | c in db.batches
      ensures f(c) <= 0
    {
    }
    SumNonPositive(db.batches, f);
    assert GroupGap(db.batches, db.rows, r, p) == 0;
    assert f(b) == Gap(db.rows, b);
  }

  /** The batches of receipts are unused and account one by one. */
  ghost predicate Settled(db: Db) {
    forall b :: b in db.batches && b.source.FromReceipt? ==> Gap(db.rows, b) == 0 && Used(db.rows, b.id) == 0
  }

  lemma {:induction false} UntouchedIsSettled(db: Db, receipts: set<Id>)
    requires Ledger(db)
    requires forall d :: IsPosted(db.docs, d) && db.docs[d].kind.GoodsReceipt? ==> d in receipts
    ensures Untouched(db.batches, receipts) <==> Settled(db)
  {
    if Untouched(db.batches, receipts) {
      forall b | b in db.batches && b.source.FromReceipt?
        ensures Gap(db.rows, b) == 0 && Used(db.rows, b.id) == 0
      {
        assert SourceOk(db.docs, b.source);
        assert forall c :: c in db.batches && InGroup(c, b.source.doc, b.product) ==> c.left >= c.total;
        GroupSettled(db, b);
      }
    }
  }

  /** Once the selected sales are gone, the receipts' batches are unused exactly when no
      other document held them. */
  lemma {:induction false} SettledIff(db: Db, a: Db, listing: Listing)
    requires Ledger(db) && Lists(db, Unfiltered, listing) && SalesGone(db, listing.sales, a)
    ensures Settled(a) <==> ConservedPerBatch(db.batches, db.rows) && ReceiptsFreed(db)
  {
    RefilledPerBatch(db.batches, db.rows, a.batches, a.rows);
    FreedIff(db, a, listing);
    if Settled(a) {
      forall b | b in a.batches
        ensures Gap(a.rows, b) == 0
      {
      }
    }
  }

  /** No batch of a receipt is used. */
  ghost predicate ReceiptsUnused(db: Db) {
    forall b :: b in db.batches && b.source.FromReceipt? ==> Used(db.rows, b.id) == 0
  }

  lemma {:induction false} UnusedIff(db: Db)
    requires Ledger(db)
    ensures ReceiptsUnused(db) <==>
            forall r, b :: r in db.rows && b in db.batches && b.id == r.batch ==> !b.source.FromReceipt?
  {
    if ReceiptsUnused(db) {
      forall r, b | r in db.rows && b in db.batches && b.id == r.batch
        ensures !b.source.FromReceipt?
      {
        if b.source.FromReceipt? {
          NotUsedNoRow(db.rows, b.id);
        }
      }
    }
    if forall r, b :: r in db.rows && b in db.batches && b.id == r.batch ==> !b.source.FromReceipt? {
      forall b | b in db.batches && b.source.FromReceipt?
        ensures Used(db.rows, b.id) == 0
      {
        UnusedIsZero(db.rows, b.id);
      }
    }
  }

  lemma {:induction false} SurvivingRow(rows: seq<Row>, sales: seq<Id>, r: Row)
    requires r in rows
    ensures r in Filter(rows, H.NotAmong(Members(sales))) <==> r.doc !in sales
  {
    assert H.NotAmong(Members(sales))(r) <==> r.doc !in sales;
  }

  lemma {:induction false} FreedIff(db: Db, a: Db, listing: Listing)
    requires Ledger(db) && Lists(db, Unfiltered, listing) && SalesGone(db, listing.sales, a)
    ensures ReceiptsUnused(a) <==> ReceiptsFreed(db)
  {
    UnusedIff(a);
    if ReceiptsUnused(a) {
      forall r, b | r in db.rows && b in db.batches && b.id == r.batch && b.source.FromReceipt?
        ensures r.doc in db.docs && Matches(Unfiltered, db.docs[r.doc])
      {
        var i :| 0 <= i < |db.batches| && db.batches[i] == b;
        assert a.batches[i] in a.batches;
        SurvivingRow(db.rows, listing.sales, r);
      }
    }
    if ReceiptsFreed(db) {
      forall r, b | r in a.rows && b in a.batches && b.id == r.batch
        ensures !b.source.FromReceipt?
      {
        var i :| 0 <= i < |a.batches| && a.batches[i] == b;
        assert db.batches[i] in db.batches && RowOk(db.docs, r);
      }
    }
  }

  lemma {:induction false} ListedAll(db: Db, listing: Listing, docs: map<Id, Doc>)
    requires Plain(db) && Lists(db, Unfiltered, listing)
    requires docs == ClearedOnly(db.docs, Members(listing.sales))
    ensures forall d :: IsPosted(docs, d) && docs[d].kind.BuyerReturn? ==> d in listing.buyerReturns
    ensures forall d :: IsPosted(docs, d) && docs[d].kind.GoodsReceipt? ==> d in listing.receipts
  {
    forall d | IsPosted(docs, d)
      ensures docs[d] == db.docs[d]
    {
    }
  }

  lemma {:induction false} ClearedThrice(db: Db, listing: Listing)
    requires Lists(db, Unfiltered, listing)
    ensures ClearedOnly(ClearedOnly(ClearedOnly(db.docs, Members(listing.sales)), Members(listing.buyerReturns)),
                        Members(listing.receipts)) == BlankDocs(db.docs)
  {
    forall d | d in db.docs
      ensures Matches(Unfiltered, db.docs[d]) <==>
              d in listing.sales || d in listing.buyerReturns || d in listing.receipts
    {
    }
  }

  lemma {:induction false} OnlyArrivals(a: Db, returned: seq<Id>, receipts: seq<Id>)
    requires Ledger(a)
    requires forall d :: IsPosted(a.docs, d) && a.docs[d].kind.BuyerReturn? ==> d in returned
    requires forall d :: IsPosted(a.docs, d) && a.docs[d].kind.GoodsReceipt? ==> d in receipts
    ensures Without(a.batches, Members(returned), Members(receipts)) == Filter(a.batches, IsArrival())
  {
    forall b | b in a.batches
      ensures IsArrival()(b)
              <==> NotFrom(BuyerReturn, Members(returned))(b) && NotFrom(GoodsReceipt, Members(receipts))(b)
    {
      assert SourceOk(a.docs, b.source);
    }
    FilterTwice(a.batches, NotFrom(BuyerReturn, Members(returned)), NotFrom(GoodsReceipt, Members(receipts)),
                IsArrival());
  }

  lemma {:induction false} NoneOnArrivals(db: Db, a: Db, bs: seq<Batch>, rows: seq<Row>)
    requires Fitting(db) && Refilled(db.batches, db.rows, a.batches, a.rows)
    requires bs == Filter(a.batches, IsArrival()) && forall r :: r in rows ==> r in db.rows
    ensures forall r :: r in rows ==> r.batch !in BatchIds(bs)
  {
    forall r, b | r in rows && b in bs
      ensures b.id != r.batch
    {
      assert Fits(db.docs, db.batches, r);
      var i :| 0 <= i < |a.batches| && a.batches[i] == b;
      assert db.batches[i] in db.batches;
    }
  }

  /** With the documents' batches gone, no row is left: none draws on an arrival. */
  lemma {:induction false} NoRowLeft(db: Db, a: Db, db': Db)
    requires Fitting(db) && Ledger(db') && db'.batches == Filter(a.batches, IsArrival())
    requires Refilled(db.batches, db.rows, a.batches, a.rows)
    requires forall r :: r in db'.rows ==> r in db.rows
    ensures db'.rows == []
  {
    var anchored := (r: Row) => r.batch in BatchIds(db'.batches);
    NoneOnArrivals(db, a, db'.batches, db'.rows);
    FilterAll(db'.rows, anchored);
    FilterNone(db'.rows, anchored);
  }

  /** With no row left, arrivals are as full as they came. */
  lemma {:induction false} ArrivalsFull(bs: seq<Batch>, kept: seq<Batch>)
    requires kept == Filter(bs, IsArrival()) && Conserved(kept, [])
    ensures kept == Arrivals(bs)
  {
    FilterMap(bs, Full(), IsArrival(), IsArrival());
    forall i | 0 <= i < |kept|
      ensures Map(kept, Full())[i] == kept[i]
    {
      assert kept[i] in kept;
      assert Gap([], kept[i]) == 0;
    }
    assert Map(kept, Full()) == kept;
  }

  lemma {:induction false} LeavesBlank(db: Db, listing: Listing, a: Db, db': Db)
    requires Ledger(db) && Plain(db) && Lists(db, Unfiltered, listing)
    requires SalesGone(db, listing.sales, a) && Gone(a, listing.buyerReturns, listing.receipts, db')
    ensures db' == Blank(db)
  {
    ListedAll(db, listing, a.docs);
    OnlyArrivals(a, listing.buyerReturns, listing.receipts);
    NoRowLeft(db, a, db');
    ArrivalsFull(a.batches, db'.batches);
    RefilledFull(db.batches, db.rows, a.batches, a.rows);
    ClearedThrice(db, listing);
  }

  /** Phase one of an unfiltered repost succeeds exactly when the batches are right one by
      one and no unselected document holds stock of a receipt, and then leaves blank tables:
      no allocation, no document's batch, no selected document posted. */
  lemma {:induction false} PhaseOne(db: Db, listing: Listing)
    requires Ledger(db) && Plain(db) && Lists(db, Unfiltered, listing)
    ensures UnpostAll(db, listing.All()).Ok? <==> ConservedPerBatch(db.batches, db.rows) && ReceiptsFreed(db)
    ensures UnpostAll(db, listing.All()).Ok? ==> UnpostAll(db, listing.All()).value == Blank(db)
  {
    PhaseOneExact(db, Unfiltered, listing);
    ListedPosted(db, Unfiltered, listing, ClearedOnly(db.docs, Members(listing.sales)));
    SalesUnposted(db, listing.sales);
    ReleasedIff(db, listing, UnpostAll(db, listing.sales).value);
    if UnpostAll(db, listing.All()).Ok? {
      ReachesBlank(db, listing, UnpostAll(db, listing.All()).value);
    }
  }

  lemma {:induction false} ReleasedIff(db: Db, listing: Listing, a: Db)
    requires Ledger(db) && Plain(db) && Lists(db, Unfiltered, listing) && SalesGone(db, listing.sales, a)
    ensures Released(db, listing) <==> ConservedPerBatch(db.batches, db.rows) && ReceiptsFreed(db)
  {
    ReleasedIsUntouched(db, a, listing);
    ListedAll(db, listing, a.docs);
    UntouchedIsSettled(a, Members(listing.receipts));
    SettledIff(db, a, listing);
  }

  lemma {:induction false} ReachesBlank(db: Db, listing: Listing, db': Db)
    requires Ledger(db) && Plain(db) && Lists(db, Unfiltered, listing) && PhaseOneLeaves(db, listing, db')
    ensures db' == Blank(db)
  {
    var a :| SalesGone(db, listing.sales, a) && Gone(a, listing.buyerReturns, listing.receipts, db');
    LeavesBlank(db, listing, a, db');
  }

  // ---- phase two starts and ends alike

  lemma {:induction false} UnpostAllKeeps(db: Db, ids: seq<Id>)
    requires Ledger(db) && UnpostAll(db, ids).Ok?
    ensures var db' := UnpostAll(db, ids).value;
            Ledger(db') && (ConservedPerBatch(db.batches, db.rows) ==> ConservedPerBatch(db'.batches, db'.rows))
    decreases |ids|
  {
    if ids != [] {
      UnpostAllKeeps(db, ids[..|ids| - 1]);
      NextKeeps(UnpostAll(db, ids[..|ids| - 1]).value, Unpost(ids[|ids| - 1]));
    }
  }

  lemma {:induction false} PostAllKeeps(db: Db, ids: seq<Id>)
    requires Ledger(db) && PostAll(db, ids).Ok?
    ensures var db' := PostAll(db, ids).value;
            Ledger(db') && (ConservedPerBatch(db.batches, db.rows) ==> ConservedPerBatch(db'.batches, db'.rows))
    decreases |ids|
  {
    if ids != [] {
      PostAllKeeps(db, ids[..|ids| - 1]);
      NextKeeps(PostAll(db, ids[..|ids| - 1]).value, Post(ids[|ids| - 1]));
    }
  }

  /** A posted document differs from what it was only in status and, unless it is a
      receipt, profit. */
  predicate PostedFrom(before: Doc, after: Doc) {
    after == before.(posted := true, profit := after.profit)
      && (before.kind.GoodsReceipt? ==> after.profit == before.profit)
  }

  /** The headers once the documents `ids` have been posted. */
  ghost predicate HeadersPosted(docs: map<Id, Doc>, ids: seq<Id>, docs': map<Id, Doc>) {
    docs'.Keys == docs.Keys && forall d :: d in docs ==>
      if d in ids then PostedFrom(docs[d], docs'[d]) else docs'[d] == docs[d]
  }

  lemma {:induction false} OneMorePosted(docs: map<Id, Doc>, ids: seq<Id>, mid: Db)
    requires ids != [] && HeadersPosted(docs, ids[..|ids| - 1], mid.docs)
    requires ids[|ids| - 1] in docs && ids[|ids| - 1] !in ids[..|ids| - 1] && PostDoc(mid, ids[|ids| - 1]).Ok?
    ensures HeadersPosted(docs, ids, PostDoc(mid, ids[|ids| - 1]).value.docs)
  {
    var id := ids[|ids| - 1];
    OnePosted(mid, id);
    assert ids == ids[..|ids| - 1] + [id];
  }

  lemma {:induction false} PostAllPosts(db: Db, ids: seq<Id>)
    requires Postable(db.docs, ids) && PostAll(db, ids).Ok?
    ensures HeadersPosted(db.docs, ids, PostAll(db, ids).value.docs)
    decreases |ids|
  {
    if ids != [] {
      var n := |ids| - 1;
      PostableBefore(db.docs, ids);
      PostAllPosts(db, ids[..n]);
      OneMorePosted(db.docs, ids, PostAll(db, ids[..n]).value);
    }
  }

  lemma {:induction false} OnePosted(db: Db, id: Id)
    requires id in db.docs && PostDoc(db, id).Ok?
    ensures var docs' := PostDoc(db, id).value.docs;
            id in docs' && docs' == db.docs[id := docs'[id]] && PostedFrom(db.docs[id], docs'[id])
  {
  }

  // ---- arrivals are never touched

  lemma {:induction false} ArrivalsInsert(bs: seq<Batch>, b: Batch)
    requires !b.source.Arrival?
    ensures Arrivals(InsertBatch(bs, b)) == Arrivals(bs)
  {
    var full := Map(bs, Full());
    R.InsertRenumbered(bs, b, Full());
    var k := InsertSplits(full, Full()(b), CreatedAt());
    assert full == full[..k] + full[k..];
    FilterSkips(full[..k], Full()(b), full[k..], IsArrival());
  }

  lemma {:induction false} ArrivalsReceipt(db: Db, doc: Id, items: seq<Item>, date: int)
    ensures Arrivals(AddReceiptItems(db, doc, items, date).batches) == Arrivals(db.batches)
    decreases |items|
  {
    if items != [] {
      var n := |items| - 1;
      ArrivalsReceipt(db, doc, items[..n], date);
      var before := AddReceiptItems(db, doc, items[..n], date);
      ArrivalsInsert(before.batches, Batch(before.nextId, items[n].product, items[n].quantity, items[n].quantity,
                                           items[n].price, FromReceipt(doc), date));
    }
  }

  lemma {:induction false} ArrivalsRestock(db: Db, doc: Id, items: seq<Item>, date: int)
    ensures Arrivals(RestockItems(db, doc, items, date).db.batches) == Arrivals(db.batches)
    decreases |items|
  {
    if items != [] {
      var n := |items| - 1;
      ArrivalsRestock(db, doc, items[..n], date);
      var before := RestockItems(db, doc, items[..n], date).db;
      ArrivalsInsert(before.batches, Batch(before.nextId, items[n].product, items[n].quantity, items[n].quantity,
                                           LastCost(before.batches, items[n].product), FromReturn(doc, n), date));
    }
  }

  lemma {:induction false} ArrivalsDeduct(db: Db, doc: Id, warehouse: Option<Id>, items: seq<Item>)
    requires Sound(db.batches, db.rows, db.nextId) && DeductItems(db, doc, warehouse, items).Ok?
    ensures Arrivals(DeductItems(db, doc, warehouse, items).value.batches) == Arrivals(db.batches)
  {
    DeductItemsRefills(db, doc, warehouse, items);
    var db' := DeductItems(db, doc, warehouse, items).value;
    RefilledFull(db.batches, db.rows, db'.batches, db'.rows);
  }

  lemma {:induction false} ArrivalsPost(db: Db, id: Id)
    requires Ledger(db) && PostDoc(db, id).Ok?
    ensures Arrivals(PostDoc(db, id).value.batches) == Arrivals(db.batches)
  {
    var doc := db.docs[id];
    match doc.kind {
      case GoodsReceipt => ArrivalsReceipt(db, id, doc.items, doc.date);
      case BuyerReturn => ArrivalsRestock(db, id, doc.items, doc.date);
      case Sale => ArrivalsDeduct(db, id, doc.warehouse, doc.items);
      case SupplierReturn => ArrivalsDeduct(db, id, doc.warehouse, doc.items);
    }
  }

  lemma {:induction false} ArrivalsPostAll(db: Db, ids: seq<Id>)
    requires Ledger(db) && PostAll(db, ids).Ok?
    ensures Arrivals(PostAll(db, ids).value.batches) == Arrivals(db.batches)
    decreases |ids|
  {
    if ids != [] {
      ArrivalsPostAll(db, ids[..|ids| - 1]);
      PostAllKeeps(db, ids[..|ids| - 1]);
      ArrivalsPost(PostAll(db, ids[..|ids| - 1]).value, ids[|ids| - 1]);
    }
  }

  lemma {:induction false} ArrivalsTwice(bs: seq<Batch>)
    ensures Arrivals(Arrivals(bs)) == Arrivals(bs)
  {
    var kept := Arrivals(bs);
    forall i | 0 <= i < |kept|
      ensures Map(kept, Full())[i] == kept[i]
    {
      assert kept[i] in kept && kept[i] in Map(bs, Full());
      var j :| 0 <= j < |bs| && Map(bs, Full())[j] == kept[i];
    }
    assert Map(kept, Full()) == kept;
    FilterAll(kept, IsArrival());
  }

  // ---- reposting twice

  lemma {:induction false} NoRepeatsConcat(a: seq<Id>, b: seq<Id>)
    requires NoRepeats(a) && NoRepeats(b) && forall x :: x in a ==> x !in b
    ensures NoRepeats(a + b)
  {
    forall i, j | 0 <= i < j < |a + b|
      ensures (a + b)[i] != (a + b)[j]
    {
      if i < |a| <= j {
        assert a[i] in a && b[j - |a|] in b;
      }
    }
  }

  lemma {:induction false} ListingDisjoint(db: Db, options: Options, listing: Listing)
    requires Lists(db, options, listing)
    ensures NoRepeats(listing.All())
    ensures forall id :: id in listing.All() <==>
              id in db.docs && Matches(options, db.docs[id])
  {
    NoRepeatsConcat(listing.sales, listing.buyerReturns);
    NoRepeatsConcat(listing.sales + listing.buyerReturns, listing.receipts);
    forall id
      ensures id in listing.All() <==> id in listing.sales || id in listing.buyerReturns || id in listing.receipts
    {
    }
    forall id | id in db.docs && Matches(options, db.docs[id])
      ensures id in listing.All()
    {
      assert !db.docs[id].kind.SupplierReturn?;
    }
  }

  /** The documents an unfiltered run lists, in posting order, are those the blank tables
      can post. */
  lemma {:induction false} BlankPostable(db: Db, listing: Listing)
    requires Lists(db, Unfiltered, listing)
    ensures (forall x :: x in listing.All() ==> x in db.docs)
    ensures var ids := Sort(db.docs, listing.All());
            Postable(BlankDocs(db.docs), ids) && Selects(db.docs, ids)
  {
    ListingDisjoint(db, Unfiltered, listing);
    SortOrders(db.docs, listing.All());
    OrderedNoRepeats(db.docs, Sort(db.docs, listing.All()));
    MultisetMembers(Sort(db.docs, listing.All()), listing.All());
  }

  /** These are the documents the unfiltered run selects. */
  ghost predicate Selects(docs: map<Id, Doc>, ids: seq<Id>) {
    forall d :: d in ids <==> d in docs && Matches(Unfiltered, docs[d])
  }

  /** Manual arrivals lie in no warehouse, so the blank tables hold nothing to deduct. */
  lemma {:induction false} BlankHoldsNothing(db: Db)
    ensures forall p, w :: Available(Blank(db).docs, Blank(db).batches, p, w) == 0
  {
    forall p, w
      ensures Available(Blank(db).docs, Blank(db).batches, p, w) == 0
    {
      SumZero(Blank(db).batches, CapOf(Blank(db).docs, p, w));
    }
  }

  lemma {:induction false} OrderedSameHeaders(docs: map<Id, Doc>, docs': map<Id, Doc>, ids: seq<Id>)
    requires docs'.Keys == docs.Keys
    requires forall d :: d in docs ==> docs'[d].date == docs[d].date && docs'[d].kind == docs[d].kind
                                       && docs'[d].created == docs[d].created
    requires Ordered(docs, ids)
    ensures Ordered(docs', ids)
  {
    forall i, j | 0 <= i < j < |ids|
      ensures Precedes(docs', ids[i], ids[j])
    {
      assert Precedes(docs, ids[i], ids[j]);
    }
  }

  // ---- what a successful repost leaves

  lemma {:induction false} PostAllFits(db: Db, ids: seq<Id>)
    requires Ledger(db) && Fitting(db) && PostAll(db, ids).Ok?
    ensures Fitting(PostAll(db, ids).value)
    decreases |ids|
  {
    if ids != [] {
      PostAllFits(db, ids[..|ids| - 1]);
      PostAllKeeps(db, ids[..|ids| - 1]);
      NextFits(PostAll(db, ids[..|ids| - 1]).value, Post(ids[|ids| - 1]));
    }
  }

  lemma {:induction false} DeductedRows(db: Db, id: Id, doc: Doc)
    requires Sound(db.batches, db.rows, db.nextId) && DeductItems(db, id, doc.warehouse, doc.items).Ok?
    ensures forall r :: r in DeductItems(db, id, doc.warehouse, doc.items).value.rows ==> r in db.rows || r.doc == id
  {
    DeductItemsKeeps(db, id, doc.warehouse, doc.items);
    GrownRows(db, DeductItems(db, id, doc.warehouse, doc.items).value, id);
  }

  lemma {:induction false} GrownRows(db: Db, db': Db, id: Id)
    requires db.rows <= db'.rows && forall r :: r in Added(db, db') ==> r.doc == id
    ensures forall r :: r in db'.rows ==> r in db.rows || r.doc == id
  {
    assert db'.rows == db.rows + Added(db, db');
  }

  lemma {:induction false} PostDocRows(db: Db, id: Id)
    requires Ledger(db) && PostDoc(db, id).Ok?
    ensures forall r :: r in PostDoc(db, id).value.rows ==> r in db.rows || r.doc == id
  {
    match db.docs[id].kind
    case GoodsReceipt =>
    case BuyerReturn =>
    case Sale => DeductedRows(db, id, db.docs[id]);
    case SupplierReturn => DeductedRows(db, id, db.docs[id]);
  }

  lemma {:induction false} PostAllRows(db: Db, ids: seq<Id>)
    requires Ledger(db) && PostAll(db, ids).Ok?
    ensures forall r :: r in PostAll(db, ids).value.rows ==> r in db.rows || r.doc in ids
    decreases |ids|
  {
    if ids != [] {
      PostAllRows(db, ids[..|ids| - 1]);
      PostAllKeeps(db, ids[..|ids| - 1]);
      PostDocRows(PostAll(db, ids[..|ids| - 1]).value, ids[|ids| - 1]);
    }
  }

  /** What a successful unfiltered repost of `db` leaves. */
  ghost predicate Reposted(db: Db, ids: seq<Id>, db1: Db) {
    && Ledger(db1) && Fitting(db1) && ConservedPerBatch(db1.batches, db1.rows)
    && (forall r :: r in db1.rows ==> r.doc in ids)
    && db1.docs.Keys == db.docs.Keys
    && (forall d :: d in db.docs ==>
          if d in ids then PostedFrom(ClearedDoc(db.docs[d]), db1.docs[d]) else db1.docs[d] == db.docs[d])
    && Arrivals(db1.batches) == Arrivals(db.batches)
  }

  lemma {:induction false} RepostIsReplay(db: Db, listing: Listing)
    requires Ledger(db) && Plain(db) && Lists(db, Unfiltered, listing)
    requires forall x :: x in listing.All() ==> x in db.docs
    requires Repost(db, REPOST, listing).Ok?
    ensures Ledger(Blank(db)) && ConservedPerBatch(db.batches, db.rows)
    ensures Repost(db, REPOST, listing) == PostAll(Blank(db), Sort(db.docs, listing.All()))
  {
    PhaseOne(db, listing);
    UnpostAllKeeps(db, listing.All());
  }

  lemma {:induction false} BlankAccounts(db: Db)
    requires Ledger(Blank(db))
    ensures ConservedPerBatch(Blank(db).batches, Blank(db).rows) && Fitting(Blank(db))
  {
  }

  lemma {:induction false} ReplayPosts(db: Db, ids: seq<Id>, docs': map<Id, Doc>)
    requires Selects(db.docs, ids) && HeadersPosted(BlankDocs(db.docs), ids, docs')
    ensures docs'.Keys == db.docs.Keys
    ensures forall d :: d in db.docs ==>
              if d in ids then PostedFrom(ClearedDoc(db.docs[d]), docs'[d]) else docs'[d] == db.docs[d]
  {
  }

  lemma {:induction false} ReplayLeaves(db: Db, ids: seq<Id>, blank: Db)
    requires Ledger(blank) && blank == Blank(db) && Selects(db.docs, ids)
    requires Postable(blank.docs, ids) && PostAll(blank, ids).Ok?
    ensures Reposted(db, ids, PostAll(blank, ids).value)
  {
    BlankAccounts(db);
    PostAllKeeps(blank, ids);
    PostAllFits(blank, ids);
    PostAllRows(blank, ids);
    PostAllPosts(blank, ids);
    ReplayPosts(db, ids, PostAll(blank, ids).value.docs);
    ArrivalsPostAll(blank, ids);
    ArrivalsTwice(db.batches);
  }

  lemma {:induction false} RepostLeaves(db: Db, listing: Listing)
    requires Ledger(db) && Plain(db) && Lists(db, Unfiltered, listing)
    requires forall x :: x in listing.All() ==> x in db.docs
    requires Repost(db, REPOST, listing).Ok?
    ensures Repost(db, REPOST, listing) == PostAll(Blank(db), Sort(db.docs, listing.All()))
    ensures Reposted(db, Sort(db.docs, listing.All()), Repost(db, REPOST, listing).value)
  {
    RepostIsReplay(db, listing);
    BlankPostable(db, listing);
    ReplayLeaves(db, Sort(db.docs, listing.All()), Blank(db));
  }

  lemma {:induction false} RepostIff(db: Db, listing: Listing)
    requires Ledger(db) && Plain(db) && Lists(db, Unfiltered, listing)
    requires forall x :: x in listing.All() ==> x in db.docs
    ensures Repost(db, REPOST, listing).Ok?
            <==> && ConservedPerBatch(db.batches, db.rows) && ReceiptsFreed(db)
                 && Covered(Blank(db), Sort(db.docs, listing.All()))
  {
    PhaseOne(db, listing);
    BlankPostable(db, listing);
    ReplaySucceeds(Blank(db), Sort(db.docs, listing.All()));
  }

  /** When an unfiltered repost goes through: exactly when the batches are right one by one,
      no unselected document holds stock of a receipt, and the ordered documents are covered
      from nothing. */
  lemma {:induction false} RepostSucceeds(db: Db, listing: Listing)
    requires Ledger(db) && Plain(db) && Lists(db, Unfiltered, listing)
    requires forall x :: x in listing.All() ==> x in db.docs
    ensures Repost(db, REPOST, listing).Ok?
            <==> && ConservedPerBatch(db.batches, db.rows) && ReceiptsFreed(db)
                 && Covered(Blank(db), Sort(db.docs, listing.All()))
    ensures forall p, w :: Available(Blank(db).docs, Blank(db).batches, p, w) == 0
  {
    RepostIff(db, listing);
    BlankHoldsNothing(db);
  }

  // ---- reposting again

  lemma {:induction false} SameHeadersAfter(db: Db, ids: seq<Id>, db1: Db)
    requires Plain(db) && Reposted(db, ids, db1) && Selects(db.docs, ids)
    ensures forall d :: d in db.docs ==>
              && db1.docs[d].date == db.docs[d].date && db1.docs[d].kind == db.docs[d].kind
              && db1.docs[d].created == db.docs[d].created
    ensures Selects(db1.docs, ids) && BlankDocs(db1.docs) == BlankDocs(db.docs)
    ensures Plain(db1)
  {
    forall d | d in db.docs
      ensures && db1.docs[d].date == db.docs[d].date && db1.docs[d].kind == db.docs[d].kind
              && db1.docs[d].created == db.docs[d].created && db1.docs[d].deleted == db.docs[d].deleted
              && (Matches(Unfiltered, db1.docs[d]) <==> d in ids)
              && BlankDoc(db1.docs[d]) == BlankDoc(db.docs[d])
    {
    }
  }

  lemma {:induction false} RepostedFreed(db: Db, ids: seq<Id>, db1: Db)
    requires Reposted(db, ids, db1) && Selects(db1.docs, ids)
    ensures ReceiptsFreed(db1)
  {
  }

  lemma {:induction false} SameSelection(db: Db, listing: Listing, db1: Db, listing1: Listing)
    requires Plain(db) && Lists(db, Unfiltered, listing)
    requires forall x :: x in listing.All() ==> x in db.docs
    requires Reposted(db, Sort(db.docs, listing.All()), db1)
    requires Lists(db1, Unfiltered, listing1)
    ensures Plain(db1) && ReceiptsFreed(db1)
    ensures (forall x :: x in listing1.All() ==> x in db1.docs)
    ensures Sort(db1.docs, listing1.All()) == Sort(db.docs, listing.All())
    ensures BlankDocs(db1.docs) == BlankDocs(db.docs)
  {
    var ids := Sort(db.docs, listing.All());
    BlankPostable(db, listing);
    BlankPostable(db1, listing1);
    ListingDisjoint(db, Unfiltered, listing);
    ListingDisjoint(db1, Unfiltered, listing1);
    var ids1 := Sort(db1.docs, listing1.All());
    SortOrders(db.docs, listing.All());
    SortOrders(db1.docs, listing1.All());
    SameHeadersAfter(db, ids, db1);
    RepostedFreed(db, ids, db1);
    OrderedSameHeaders(db1.docs, db.docs, ids1);
    OrderedUnique(db.docs, ids, ids1);
  }

  lemma {:induction false} BlankRenumbered(db: Db, db1: Db, k: nat)
    requires Ledger(db) && db1.nextId == db.nextId + k
    requires BlankDocs(db1.docs) == BlankDocs(db.docs) && Arrivals(db1.batches) == Arrivals(db.batches)
    ensures Blank(db1) == R.Renumbered(Blank(db), db.nextId, k)
  {
    var bs := Arrivals(db.batches);
    forall i | 0 <= i < |bs|
      ensures R.NewBatch(db.nextId, k)(bs[i]) == bs[i]
    {
      assert bs[i] in bs && bs[i] in Map(db.batches, Full());
      var j :| 0 <= j < |db.batches| && Map(db.batches, Full())[j] == bs[i];
      assert db.batches[j] in db.batches;
    }
    assert Map(bs, R.NewBatch(db.nextId, k)) == bs;
    assert Map<Row, Row>([], R.NewRow(db.nextId, k)) == [];
  }

  /** Reposting everything is canonical: whatever the order in which the queries return
      their rows, and whatever supplier returns and deleted sales stay posted, a second
      repost succeeds too and gives the same documents, profits, batches and allocations as
      the first, up to the ids of the batches it made. */
  lemma {:induction false} RepostTwice(db: Db, listing: Listing, db1: Db, listing1: Listing)
    requires Ledger(db) && Plain(db) && Lists(db, Unfiltered, listing)
    requires forall x :: x in listing.All() ==> x in db.docs
    requires Repost(db, REPOST, listing) == Ok(db1)
    requires Lists(db1, Unfiltered, listing1)
    ensures forall x :: x in listing1.All() ==> x in db1.docs
    ensures Repost(db1, REPOST, listing1) == Ok(R.Renumbered(db1, db.nextId, NewIds(db, db1)))
  {
    RepostGrows(db, listing, db1);
    RepostedTwice(db, listing, db1, listing1, NewIds(db, db1));
  }

  /** How many ids a run has handed out. */
  function NewIds(before: Db, after: Db): nat {
    if before.nextId <= after.nextId then after.nextId - before.nextId else 0
  }

  lemma {:induction false} RepostGrows(db: Db, listing: Listing, db1: Db)
    requires Ledger(db) && Plain(db) && Lists(db, Unfiltered, listing)
    requires forall x :: x in listing.All() ==> x in db.docs
    requires Repost(db, REPOST, listing) == Ok(db1)
    ensures db.nextId <= db1.nextId
  {
    FirstRepost(db, listing, Sort(db.docs, listing.All()), db1);
  }

  lemma {:induction false} RepostedTwice(db: Db, listing: Listing, db1: Db, listing1: Listing, k: nat)
    requires Ledger(db) && Plain(db) && Lists(db, Unfiltered, listing)
    requires forall x :: x in listing.All() ==> x in db.docs
    requires Repost(db, REPOST, listing) == Ok(db1) && db1.nextId == db.nextId + k
    requires Lists(db1, Unfiltered, listing1)
    ensures forall x :: x in listing1.All() ==> x in db1.docs
    ensures Repost(db1, REPOST, listing1) == Ok(R.Renumbered(db1, db.nextId, k))
  {
    var ids := Sort(db.docs, listing.All());
    FirstRepost(db, listing, ids, db1);
    SecondRepost(db, listing, ids, db1, listing1, Blank(db), k);
  }

  lemma {:induction false} SecondRepost(db: Db, listing: Listing, ids: seq<Id>, db1: Db, listing1: Listing,
                                        blank: Db, k: nat)
    requires Ledger(db) && Plain(db) && Lists(db, Unfiltered, listing)
    requires (forall x :: x in listing.All() ==> x in db.docs) && ids == Sort(db.docs, listing.All())
    requires blank == Blank(db) && db1.nextId == db.nextId + k
    requires PostAll(blank, ids) == Ok(db1) && Reposted(db, ids, db1) && Lists(db1, Unfiltered, listing1)
    ensures forall x :: x in listing1.All() ==> x in db1.docs
    ensures Repost(db1, REPOST, listing1) == Ok(R.Renumbered(db1, db.nextId, k))
  {
    SecondStarts(db, listing, ids, db1, listing1, blank, k);
    RepostAgain(db1, ids, listing1, blank, db.nextId, k);
  }

  lemma {:induction false} FirstRepost(db: Db, listing: Listing, ids: seq<Id>, db1: Db)
    requires Ledger(db) && Plain(db) && Lists(db, Unfiltered, listing)
    requires (forall x :: x in listing.All() ==> x in db.docs) && ids == Sort(db.docs, listing.All())
    requires Repost(db, REPOST, listing) == Ok(db1)
    ensures PostAll(Blank(db), ids) == Ok(db1) && Reposted(db, ids, db1) && db.nextId <= db1.nextId
  {
    RepostLeaves(db, listing);
    IdsGrow(db, ids);
  }

  /** What a second repost starts from, and what the first one posted. */
  ghost predicate SecondStart(db1: Db, ids: seq<Id>, listing1: Listing, blank: Db, base: Id, k: nat) {
    && Ledger(db1) && Plain(db1) && Lists(db1, Unfiltered, listing1)
    && ConservedPerBatch(db1.batches, db1.rows) && ReceiptsFreed(db1)
    && (forall x :: x in listing1.All() ==> x in db1.docs) && Sort(db1.docs, listing1.All()) == ids
    && blank.nextId == base && Blank(db1) == R.Renumbered(blank, base, k)
  }

  lemma {:induction false} SecondStarts(db: Db, listing: Listing, ids: seq<Id>, db1: Db, listing1: Listing,
                                        blank: Db, k: nat)
    requires Ledger(db) && Plain(db) && Lists(db, Unfiltered, listing)
    requires (forall x :: x in listing.All() ==> x in db.docs) && ids == Sort(db.docs, listing.All())
    requires blank == Blank(db) && db1.nextId == db.nextId + k
    requires Reposted(db, ids, db1) && Lists(db1, Unfiltered, listing1)
    ensures SecondStart(db1, ids, listing1, blank, db.nextId, k)
  {
    SameSelection(db, listing, db1, listing1);
    BlankRenumbered(db, db1, k);
  }

  lemma {:induction false} IdsGrow(db: Db, ids: seq<Id>)
    requires PostAll(Blank(db), ids).Ok?
    ensures PostAll(Blank(db), ids).value.nextId >= db.nextId
  {
    R.PostAllRenumbered(Blank(db), ids, db.nextId, 0);
  }

  lemma {:induction false} RepostAgain(db1: Db, ids: seq<Id>, listing1: Listing, blank: Db, base: Id, k: nat)
    requires SecondStart(db1, ids, listing1, blank, base, k)
    requires PostAll(blank, ids) == Ok(db1)
    ensures Repost(db1, REPOST, listing1) == Ok(R.Renumbered(db1, base, k))
  {
    PhaseOne(db1, listing1);
    R.PostAllRenumbered(blank, ids, base, k);
  }

  // ---- the states the server reaches

  lemma {:induction false} NextFlags(db: Db, step: Step)
    requires Ledger(db) && Next(db, step).Ok?
    requires forall d :: d in db.docs && db.docs[d].deleted ==> db.docs[d].kind.Sale?
    ensures var docs' := Next(db, step).value.docs; forall d :: d in docs' && docs'[d].deleted ==> docs'[d].kind.Sale?
  {
    H.NextOthers(db, step);
    if step.Edit? && db.docs[step.id].kind.GoodsReceipt? {
      H.UpdateReceiptDocs(db, step.id, step.patch);
    }
  }

  /** Every run leads to tables the laws above speak of. */
  lemma {:induction false} PlainOverRuns(steps: seq<Step>)
    ensures Plain(Run(EmptyDb, steps)) && Ledger(Run(EmptyDb, steps))
    decreases |steps|
  {
    LedgerOverRuns(steps);
    FittingOverRuns(steps);
    if steps != [] {
      var before := Run(EmptyDb, steps[..|steps| - 1]);
      PlainOverRuns(steps[..|steps| - 1]);
      if Next(before, steps[|steps| - 1]).Ok? {
        NextFlags(before, steps[|steps| - 1]);
      }
    }
  }

  /** An edit that merges sold batches makes every following unfiltered repost fail in phase
      one, although it unposts every selected sale first. */
  lemma {:induction false} MergedThenRefused(db: Db, step: Step, listing: Listing)
    requires Ledger(db) && Plain(db) && ConservedPerBatch(db.batches, db.rows)
    requires Next(db, step).Ok? && H.Merges(db, step) && Lists(Next(db, step).value, Unfiltered, listing)
    ensures UnpostAll(Next(db, step).value, listing.All()).Err?
  {
    H.NextPerBatch(db, step);
    NextKeeps(db, step);
    NextFits(db, step);
    NextFlags(db, step);
    PhaseOne(Next(db, step).value, listing);
  }
}
