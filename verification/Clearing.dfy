// Phase one of a bulk run, for any selection: sales, then buyer returns, then receipts are
// unposted. Exactly when the sold guard lets it through, and what it leaves.

module Clearing {
  import opened Sums
  import opened Tables
  import opened Inventory
  import opened Documents
  import opened Conservation
  import opened Runs
  import H = History
  import opened Replay

  // ---- headers

  function ClearedDoc(doc: Doc): Doc {
    if !doc.posted then doc
    else doc.(posted := false, profit := if doc.kind.Sale? || doc.kind.BuyerReturn? then 0 else doc.profit)
  }

  function Members(ids: seq<Id>): set<Id> {
    set id | id in ids
  }

  function ClearedOnly(docs: map<Id, Doc>, ids: set<Id>): map<Id, Doc> {
    map d | d in docs :: if d in ids then ClearedDoc(docs[d]) else docs[d]
  }

  lemma {:induction false} ClearedSnoc(docs: map<Id, Doc>, ids: seq<Id>, id: Id)
    requires id in docs && id !in ids
    ensures ClearedOnly(docs, Members(ids + [id]))
            == ClearedOnly(docs, Members(ids))[id := ClearedDoc(docs[id])]
  {
    assert Members(ids + [id]) == Members(ids) + {id};
  }

  lemma {:induction false} UnpostAllConcat(db: Db, a: seq<Id>, b: seq<Id>)
    ensures UnpostAll(db, a + b)
            == if UnpostAll(db, a).Ok? then UnpostAll(UnpostAll(db, a).value, b) else UnpostAll(db, a)
    decreases |b|
  {
    if b == [] {
      assert a + b == a;
    } else {
      assert (a + b)[..|a + b| - 1] == a + b[..|b| - 1];
      UnpostAllConcat(db, a, b[..|b| - 1]);
    }
  }

  /** All of `ids` are posted documents of one kind, each listed once. */
  ghost predicate PostedKind(docs: map<Id, Doc>, kind: Kind, ids: seq<Id>) {
    NoRepeats(ids) && forall id :: id in ids ==> IsPosted(docs, id) && docs[id].kind == kind
  }

  lemma {:induction false} PostedKindBefore(docs: map<Id, Doc>, kind: Kind, ids: seq<Id>)
    requires PostedKind(docs, kind, ids) && ids != []
    ensures PostedKind(docs, kind, ids[..|ids| - 1]) && ids[|ids| - 1] !in ids[..|ids| - 1]
  {
  }

  // ---- sales

  lemma {:induction false} SaleUnposted(db: Db, id: Id)
    requires Ledger(db) && IsPosted(db.docs, id) && db.docs[id].kind.Sale?
    ensures UnpostDoc(db, id).Ok?
    ensures var db' := UnpostDoc(db, id).value;
            && Ledger(db') && db'.docs == db.docs[id := ClearedDoc(db.docs[id])] && db'.nextId == db.nextId
            && Refilled(db.batches, db.rows, db'.batches, db'.rows) && db'.rows == Filter(db.rows, NotOf(id))
  {
    UnpostSaleKeeps(db, id);
    ReturnKeeps(db, id);
  }

  /** What unposting the sales `ids` makes of `db`. */
  ghost predicate SalesGone(db: Db, ids: seq<Id>, db': Db) {
    && Ledger(db') && db'.docs == ClearedOnly(db.docs, Members(ids)) && db'.nextId == db.nextId
    && Refilled(db.batches, db.rows, db'.batches, db'.rows)
    && db'.rows == Filter(db.rows, H.NotAmong(Members(ids)))
  }

  lemma {:induction false} OneMoreSale(db: Db, ids: seq<Id>, mid: Db)
    requires PostedKind(db.docs, Sale, ids) && ids != [] && SalesGone(db, ids[..|ids| - 1], mid)
    ensures UnpostDoc(mid, ids[|ids| - 1]).Ok? && SalesGone(db, ids, UnpostDoc(mid, ids[|ids| - 1]).value)
  {
    var before, id := ids[..|ids| - 1], ids[|ids| - 1];
    PostedKindBefore(db.docs, Sale, ids);
    assert ids == before + [id];
    assert id in ids && mid.docs[id] == db.docs[id];
    SaleUnposted(mid, id);
    ClearedSnoc(db.docs, before, id);
    FilterTwice(db.rows, H.NotAmong(Members(before)), NotOf(id), H.NotAmong(Members(ids)));
    RefilledTransitive(db, mid, UnpostDoc(mid, id).value);
  }

  lemma {:induction false} NoSales(db: Db, ids: seq<Id>)
    requires Ledger(db) && ids == []
    ensures SalesGone(db, ids, db)
  {
    FilterAll(db.rows, H.NotAmong(Members(ids)));
    NoneCleared(db.docs, ids);
  }

  lemma {:induction false} NoneCleared(docs: map<Id, Doc>, ids: seq<Id>)
    requires ids == []
    ensures ClearedOnly(docs, Members(ids)) == docs
  {
  }

  lemma {:induction false} SalesUnposted(db: Db, ids: seq<Id>)
    requires Ledger(db) && PostedKind(db.docs, Sale, ids)
    ensures UnpostAll(db, ids).Ok? && SalesGone(db, ids, UnpostAll(db, ids).value)
    decreases |ids|
  {
    if ids == [] {
      NoSales(db, ids);
    } else {
      PostedKindBefore(db.docs, Sale, ids);
      SalesUnposted(db, ids[..|ids| - 1]);
      OneMoreSale(db, ids, UnpostAll(db, ids[..|ids| - 1]).value);
    }
  }

  // ---- buyer returns

  function NotFrom(kind: Kind, ids: set<Id>): Batch -> bool {
    (b: Batch) =>
      match b.source
      case Arrival => true
      case FromReceipt(d) => !(kind.GoodsReceipt? && d in ids)
      case FromReturn(d, _) => !(kind.BuyerReturn? && d in ids)
  }

  lemma {:induction false} FilterNotFrom(bs: seq<Batch>, kind: Kind, ids: seq<Id>, id: Id)
    ensures Filter(Filter(bs, NotFrom(kind, Members(ids))), NotFrom(kind, {id}))
            == Filter(bs, NotFrom(kind, Members(ids + [id])))
  {
    FilterTwice(bs, NotFrom(kind, Members(ids)), NotFrom(kind, {id}), NotFrom(kind, Members(ids + [id])));
  }

  lemma {:induction false} ReturnUnposted(db: Db, id: Id)
    requires Ledger(db) && IsPosted(db.docs, id) && db.docs[id].kind.BuyerReturn?
    ensures UnpostDoc(db, id).Ok?
    ensures var db' := UnpostDoc(db, id).value;
            && Ledger(db') && db'.docs == db.docs[id := ClearedDoc(db.docs[id])] && db'.nextId == db.nextId
            && (forall r :: r in db'.rows ==> r in db.rows)
            && db'.batches == Filter(db.batches, NotFrom(BuyerReturn, {id}))
  {
    UnpostReturnKeeps(db, id);
    OneIdOneBatch(db.batches);
    FilterSame(db.batches, Survives(OfReturn(db.batches, id)), NotFrom(BuyerReturn, {id}));
  }

  /** What unposting the buyer returns `ids` makes of `db`. */
  ghost predicate ReturnsGone(db: Db, ids: seq<Id>, db': Db) {
    && Ledger(db') && db'.docs == ClearedOnly(db.docs, Members(ids)) && db'.nextId == db.nextId
    && (forall r :: r in db'.rows ==> r in db.rows)
    && db'.batches == Filter(db.batches, NotFrom(BuyerReturn, Members(ids)))
  }

  lemma {:induction false} OneMoreReturn(db: Db, before: seq<Id>, mid: Db, id: Id)
    requires PostedKind(db.docs, BuyerReturn, before + [id]) && id !in before && ReturnsGone(db, before, mid)
    ensures UnpostDoc(mid, id).Ok? && ReturnsGone(db, before + [id], UnpostDoc(mid, id).value)
  {
    assert id in before + [id];
    ReturnUnposted(mid, id);
    ClearedSnoc(db.docs, before, id);
    FilterNotFrom(db.batches, BuyerReturn, before, id);
  }

  lemma {:induction false} ReturnsUnposted(db: Db, ids: seq<Id>)
    requires Ledger(db) && PostedKind(db.docs, BuyerReturn, ids)
    ensures UnpostAll(db, ids).Ok? && ReturnsGone(db, ids, UnpostAll(db, ids).value)
    decreases |ids|
  {
    if ids == [] {
      FilterAll(db.batches, NotFrom(BuyerReturn, Members(ids)));
    } else {
      var before, id := ids[..|ids| - 1], ids[|ids| - 1];
      PostedKindBefore(db.docs, BuyerReturn, ids);
      ReturnsUnposted(db, before);
      assert ids == before + [id];
      OneMoreReturn(db, before, UnpostAll(db, before).value, id);
    }
  }

  // ---- receipts

  /** No batch of the listed receipts holds less than it came with. */
  ghost predicate Untouched(bs: seq<Batch>, ids: set<Id>) {
    forall b :: b in bs && b.source.FromReceipt? && b.source.doc in ids ==> b.left >= b.total
  }

  lemma {:induction false} ReceiptUnposted(db: Db, id: Id)
    requires Ledger(db) && IsPosted(db.docs, id) && db.docs[id].kind.GoodsReceipt?
    ensures UnpostDoc(db, id).Ok? <==> Untouched(db.batches, {id})
    ensures UnpostDoc(db, id).Ok? ==>
              var db' := UnpostDoc(db, id).value;
              && Ledger(db') && db'.docs == db.docs[id := ClearedDoc(db.docs[id])] && db'.nextId == db.nextId
              && db'.rows == db.rows && db'.batches == Filter(db.batches, NotFrom(GoodsReceipt, {id}))
  {
    GuardIsUntouched(db.batches, id);
    if Untouched(db.batches, {id}) {
      UnpostReceiptKeeps(db, id);
      UnpostReceiptCascade(db, id);
      OneIdOneBatch(db.batches);
      FilterSame(db.batches, Survives(OfReceipt(db.batches, id)), NotFrom(GoodsReceipt, {id}));
    }
  }

  lemma {:induction false} GuardIsUntouched(bs: seq<Batch>, id: Id)
    ensures PartlySold(bs, id) <==> !Untouched(bs, {id})
  {
  }

  /** What unposting the receipts `ids` makes of `db`. */
  ghost predicate ReceiptsGone(db: Db, ids: seq<Id>, db': Db) {
    && Ledger(db') && db'.docs == ClearedOnly(db.docs, Members(ids)) && db'.nextId == db.nextId
    && db'.rows == db.rows && db'.batches == Filter(db.batches, NotFrom(GoodsReceipt, Members(ids)))
  }

  lemma {:induction false} OneMoreReceipt(db: Db, ids: seq<Id>, mid: Db)
    requires PostedKind(db.docs, GoodsReceipt, ids) && ids != []
    requires ReceiptsGone(db, ids[..|ids| - 1], mid) && Untouched(db.batches, Members(ids[..|ids| - 1]))
    ensures UnpostDoc(mid, ids[|ids| - 1]).Ok? <==> Untouched(db.batches, Members(ids))
    ensures UnpostDoc(mid, ids[|ids| - 1]).Ok? ==> ReceiptsGone(db, ids, UnpostDoc(mid, ids[|ids| - 1]).value)
  {
    var before, id := ids[..|ids| - 1], ids[|ids| - 1];
    PostedKindBefore(db.docs, GoodsReceipt, ids);
    assert ids == before + [id];
    assert id in ids && mid.docs[id] == db.docs[id];
    ReceiptUnposted(mid, id);
    UntouchedSnoc(db.batches, before, id);
    ClearedSnoc(db.docs, before, id);
    FilterNotFrom(db.batches, GoodsReceipt, before, id);
  }

  lemma {:induction false} UntouchedFewer(bs: seq<Batch>, ids: seq<Id>)
    requires ids != [] && Untouched(bs, Members(ids))
    ensures Untouched(bs, Members(ids[..|ids| - 1]))
  {
  }

  lemma {:induction false} NoReceipts(db: Db, ids: seq<Id>)
    requires Ledger(db) && ids == []
    ensures ReceiptsGone(db, ids, db) && Untouched(db.batches, Members(ids))
  {
    FilterAll(db.batches, NotFrom(GoodsReceipt, Members(ids)));
    NoneCleared(db.docs, ids);
  }

  lemma {:induction false} ReceiptsUnposted(db: Db, ids: seq<Id>)
    requires Ledger(db) && PostedKind(db.docs, GoodsReceipt, ids)
    ensures UnpostAll(db, ids).Ok? <==> Untouched(db.batches, Members(ids))
    ensures UnpostAll(db, ids).Ok? ==> ReceiptsGone(db, ids, UnpostAll(db, ids).value)
    decreases |ids|
  {
    if ids == [] {
      NoReceipts(db, ids);
    } else {
      PostedKindBefore(db.docs, GoodsReceipt, ids);
      ReceiptsUnposted(db, ids[..|ids| - 1]);
      if UnpostAll(db, ids[..|ids| - 1]).Ok? {
        OneMoreReceipt(db, ids, UnpostAll(db, ids[..|ids| - 1]).value);
      } else if Untouched(db.batches, Members(ids)) {
        UntouchedFewer(db.batches, ids);
      }
    }
  }

  lemma {:induction false} UntouchedSnoc(bs: seq<Batch>, ids: seq<Id>, id: Id)
    requires id !in ids && Untouched(bs, Members(ids))
    ensures Untouched(bs, Members(ids + [id]))
            <==> Untouched(Filter(bs, NotFrom(GoodsReceipt, Members(ids))), {id})
  {
    forall b | b in bs && b.source == FromReceipt(id)
      ensures b in Filter(bs, NotFrom(GoodsReceipt, Members(ids)))
    {
      assert NotFrom(GoodsReceipt, Members(ids))(b);
    }
  }

  // ---- the phase as a whole

  /** Batches without those of the listed returns and receipts. */
  function Without(bs: seq<Batch>, returned: set<Id>, receipts: set<Id>): seq<Batch> {
    Filter(Filter(bs, NotFrom(BuyerReturn, returned)), NotFrom(GoodsReceipt, receipts))
  }

  lemma {:induction false} UntouchedPastReturns(bs: seq<Batch>, returned: set<Id>, receipts: set<Id>)
    ensures Untouched(Filter(bs, NotFrom(BuyerReturn, returned)), receipts) <==> Untouched(bs, receipts)
  {
    forall b | b in bs && b.source.FromReceipt?
      ensures b in Filter(bs, NotFrom(BuyerReturn, returned))
    {
      assert NotFrom(BuyerReturn, returned)(b);
    }
  }

  /** Returns and receipts once the sales are gone. */
  lemma {:induction false} ReturnsThenReceipts(a: Db, returned: seq<Id>, receipts: seq<Id>)
    requires Ledger(a) && PostedKind(a.docs, BuyerReturn, returned) && PostedKind(a.docs, GoodsReceipt, receipts)
    ensures UnpostAll(a, returned).Ok?
    ensures var r := UnpostAll(UnpostAll(a, returned).value, receipts);
            && (r.Ok? <==> Untouched(a.batches, Members(receipts)))
            && (r.Ok? ==> Gone(a, returned, receipts, r.value))
  {
    ReturnsUnposted(a, returned);
    var b := UnpostAll(a, returned).value;
    forall d | d in receipts
      ensures IsPosted(b.docs, d) && b.docs[d].kind.GoodsReceipt?
    {
      assert d !in returned;
    }
    ReceiptsUnposted(b, receipts);
    UntouchedPastReturns(a.batches, Members(returned), Members(receipts));
  }

  /** What unposting returns and receipts leaves. */
  ghost predicate Gone(a: Db, returned: seq<Id>, receipts: seq<Id>, db': Db) {
    && Ledger(db') && db'.docs == ClearedOnly(ClearedOnly(a.docs, Members(returned)), Members(receipts))
    && db'.nextId == a.nextId && (forall r :: r in db'.rows ==> r in a.rows)
    && db'.batches == Without(a.batches, Members(returned), Members(receipts))
  }

  function GivenBackOf(sales: set<Id>, batch: Id): Row -> int {
    (r: Row) => if r.doc in sales && r.batch == batch then r.qty else 0
  }

  /** What unposting these sales gives back to a batch. */
  function GivenBack(rows: seq<Row>, sales: set<Id>, batch: Id): int {
    Sum(rows, GivenBackOf(sales, batch))
  }

  /** With what the listed sales give back, every batch of a listed receipt is full again. */
  ghost predicate Released(db: Db, listing: Listing) {
    forall b :: b in db.batches && b.source.FromReceipt? && b.source.doc in listing.receipts ==>
      b.left + GivenBack(db.rows, Members(listing.sales), b.id) >= b.total
  }

  lemma {:induction false} UsedSplits(rows: seq<Row>, sales: set<Id>, batch: Id)
    ensures Used(rows, batch) == Used(Filter(rows, H.NotAmong(sales)), batch) + GivenBack(rows, sales, batch)
  {
    var kept := (r: Row) => if H.NotAmong(sales)(r) then UsedOf(batch)(r) else 0;
    SumFilter(rows, H.NotAmong(sales), UsedOf(batch), kept);
    SumPlus(rows, kept, GivenBackOf(sales, batch), UsedOf(batch));
  }

  lemma {:induction false} ReleasedIsUntouched(db: Db, a: Db, listing: Listing)
    requires SalesGone(db, listing.sales, a)
    ensures Released(db, listing) <==> Untouched(a.batches, Members(listing.receipts))
    ensures forall i :: 0 <= i < |db.batches| ==> a.batches[i] == db.batches[i].(
              left := db.batches[i].left + GivenBack(db.rows, Members(listing.sales), db.batches[i].id))
  {
    forall i | 0 <= i < |db.batches|
      ensures a.batches[i] == db.batches[i].(
                left := db.batches[i].left + GivenBack(db.rows, Members(listing.sales), db.batches[i].id))
    {
      UsedSplits(db.rows, Members(listing.sales), db.batches[i].id);
    }
    ReleasedPointwise(db, a.batches, listing);
  }

  lemma {:induction false} ReleasedPointwise(db: Db, bs: seq<Batch>, listing: Listing)
    requires |bs| == |db.batches|
    requires forall i :: 0 <= i < |bs| ==> bs[i] == db.batches[i].(
               left := db.batches[i].left + GivenBack(db.rows, Members(listing.sales), db.batches[i].id))
    ensures Released(db, listing) <==> Untouched(bs, Members(listing.receipts))
  {
    if Released(db, listing) {
      forall b | b in bs && b.source.FromReceipt? && b.source.doc in Members(listing.receipts)
        ensures b.left >= b.total
      {
        var i :| 0 <= i < |bs| && bs[i] == b;
        assert db.batches[i] in db.batches;
      }
    }
    if Untouched(bs, Members(listing.receipts)) {
      forall b | b in db.batches && b.source.FromReceipt? && b.source.doc in listing.receipts
        ensures b.left + GivenBack(db.rows, Members(listing.sales), b.id) >= b.total
      {
        var i :| 0 <= i < |bs| && db.batches[i] == b;
        assert bs[i] in bs;
      }
    }
  }

  lemma {:induction false} ListedPosted(db: Db, options: Options, listing: Listing, docs: map<Id, Doc>)
    requires Lists(db, options, listing) && !options.action.POST?
    requires docs == ClearedOnly(db.docs, Members(listing.sales))
    ensures PostedKind(db.docs, Sale, listing.sales)
    ensures PostedKind(docs, BuyerReturn, listing.buyerReturns) && PostedKind(docs, GoodsReceipt, listing.receipts)
  {
    forall d | d in listing.buyerReturns || d in listing.receipts
      ensures d in docs && docs[d] == db.docs[d]
    {
    }
  }

  /** The tables after phase one, in terms of the tables once the sales are gone. */
  ghost predicate PhaseOneLeaves(db: Db, listing: Listing, db': Db) {
    exists a :: SalesGone(db, listing.sales, a) && Gone(a, listing.buyerReturns, listing.receipts, db')
  }

  /** Phase one of any run that unposts, from any state of the tables: it goes through
      exactly when what the listed sales give back fills every batch of the listed receipts;
      then the listed documents are unposted, the listed sales have given everything back,
      and the batches of the listed returns and receipts are gone. */
  lemma {:induction false} PhaseOneExact(db: Db, options: Options, listing: Listing)
    requires Ledger(db) && Lists(db, options, listing) && !options.action.POST?
    ensures UnpostAll(db, listing.All()).Ok? <==> Released(db, listing)
    ensures UnpostAll(db, listing.All()).Ok? ==> PhaseOneLeaves(db, listing, UnpostAll(db, listing.All()).value)
  {
    var s, r, g := listing.sales, listing.buyerReturns, listing.receipts;
    ListedPosted(db, options, listing, ClearedOnly(db.docs, Members(s)));
    SalesUnposted(db, s);
    var a := UnpostAll(db, s).value;
    ReturnsThenReceipts(a, r, g);
    ReleasedIsUntouched(db, a, listing);
    ThreeStages(db, s, r, g);
  }

  lemma {:induction false} ThreeStages(db: Db, s: seq<Id>, r: seq<Id>, g: seq<Id>)
    requires UnpostAll(db, s).Ok? && UnpostAll(UnpostAll(db, s).value, r).Ok?
    ensures UnpostAll(db, s + r + g) == UnpostAll(UnpostAll(UnpostAll(db, s).value, r).value, g)
  {
    UnpostAllConcat(db, s + r, g);
    UnpostAllConcat(db, s, r);
  }
}
