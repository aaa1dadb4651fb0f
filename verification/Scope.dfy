// What a bulk run is about: the documents it selects, the order in which it posts them,
// and that it leaves all others alone, in the words of its filters.

module Scope {
  import opened Sums
  import opened Tables
  import opened Inventory
  import opened Documents
  import opened Conservation
  import opened Runs
  import opened Replay
  import opened Clearing
  import H = History
  import P = Postings
  import K = Canonical

  // ---- the posting order

  /** The posting order: by date; within a date receipts before buyer returns before sales;
      within a kind by time of creation. */
  lemma {:induction false} PostingOrder(docs: map<Id, Doc>, ids: seq<Id>, i: nat, j: nat)
    requires NoRepeats(ids) && forall x :: x in ids ==> x in docs
    requires i < j < |Sort(docs, ids)|
    ensures var a, b := docs[Sort(docs, ids)[i]], docs[Sort(docs, ids)[j]];
            && a.date <= b.date
            && (a.date == b.date && a.kind.BuyerReturn? ==> !b.kind.GoodsReceipt?)
            && (a.date == b.date && a.kind.Sale? ==> !b.kind.GoodsReceipt? && !b.kind.BuyerReturn?)
            && (a.date == b.date && a.kind == b.kind ==> a.created <= b.created)
  {
    SortOrders(docs, ids);
    var s := Sort(docs, ids);
    assert Precedes(docs, s[i], s[j]);
  }

  lemma {:induction false} PrefixPosts(db: Db, ids: seq<Id>, k: nat)
    requires k <= |ids| && PostAll(db, ids).Ok?
    ensures PostAll(db, ids[..k]).Ok?
    decreases |ids|
  {
    if k == |ids| {
      assert ids[..k] == ids;
    } else {
      PrefixPosts(db, ids[..|ids| - 1], k);
      assert ids[..|ids| - 1][..k] == ids[..k];
    }
  }

  lemma {:induction false} PostableSort(docs: map<Id, Doc>, ids: seq<Id>)
    requires Postable(docs, ids)
    ensures Postable(docs, Sort(docs, ids))
    ensures var s := Sort(docs, ids); forall x :: x in s <==> x in ids
  {
    SortOrders(docs, ids);
    OrderedNoRepeats(docs, Sort(docs, ids));
    MultisetMembers(Sort(docs, ids), ids);
  }

  lemma {:induction false} PostablePrefix(docs: map<Id, Doc>, ids: seq<Id>, k: nat)
    requires Postable(docs, ids) && k <= |ids|
    ensures Postable(docs, ids[..k])
  {
  }

  /** When a replay restocks a buyer return, every listed receipt of its date or earlier has
      been posted, and no listed sale of its date or later. */
  lemma {:induction false} RestocksBetween(db: Db, ids: seq<Id>, k: nat, d: Id)
    requires Postable(db.docs, ids) && PostAll(db, Sort(db.docs, ids)).Ok?
    requires k < |Sort(db.docs, ids)| && db.docs[Sort(db.docs, ids)[k]].kind.BuyerReturn? && d in ids
    ensures PostAll(db, Sort(db.docs, ids)[..k]).Ok?
    ensures var s := Sort(db.docs, ids);
            var mid := PostAll(db, s[..k]).value;
            && PostAll(db, s[..k + 1]) == PostReturn(mid, s[k])
            && (db.docs[d].kind.GoodsReceipt? && db.docs[d].date <= db.docs[s[k]].date ==> IsPosted(mid.docs, d))
            && (db.docs[d].kind.Sale? && db.docs[d].date >= db.docs[s[k]].date ==> !IsPosted(mid.docs, d))
  {
    var s := Sort(db.docs, ids);
    PostableSort(db.docs, ids);
    PostablePrefix(db.docs, s, k);
    PrefixPosts(db, s, k);
    K.PostAllPosts(db, s[..k]);
    assert s[..k + 1][..k] == s[..k];
    NextIsReturn(PostAll(db, s[..k]).value, db, s[k], s[..k]);
    PlaceOf(db.docs, ids, k, d);
  }

  lemma {:induction false} NextIsReturn(mid: Db, db: Db, id: Id, before: seq<Id>)
    requires K.HeadersPosted(db.docs, before, mid.docs) && id in db.docs && db.docs[id].kind.BuyerReturn?
    ensures PostDoc(mid, id) == PostReturn(mid, id)
  {
  }

  /** Where a listed document stands in the posting order, seen from a buyer return. */
  lemma {:induction false} PlaceOf(docs: map<Id, Doc>, ids: seq<Id>, k: nat, d: Id)
    requires NoRepeats(ids) && (forall x :: x in ids ==> x in docs) && d in ids
    requires k < |Sort(docs, ids)| && docs[Sort(docs, ids)[k]].kind.BuyerReturn?
    ensures docs[d].kind.GoodsReceipt? && docs[d].date <= docs[Sort(docs, ids)[k]].date ==> d in Sort(docs, ids)[..k]
    ensures docs[d].kind.Sale? && docs[d].date >= docs[Sort(docs, ids)[k]].date ==> d !in Sort(docs, ids)[..k]
  {
    var s := Sort(docs, ids);
    MultisetMembers(s, ids);
    var i :| 0 <= i < |s| && s[i] == d;
    if k < i {
      PostingOrder(docs, ids, k, i);
    }
    if docs[d].kind.Sale? && docs[d].date >= docs[s[k]].date {
      forall j | 0 <= j < k
        ensures s[j] != d
      {
        PostingOrder(docs, ids, j, k);
      }
    }
  }

  // ---- the documents a run is about

  /** What the filters of a run ask for: sales that are not deleted, buyer returns and
      receipts, of the asked kinds and dates, in the status the action starts from. */
  predicate Asked(options: Options, doc: Doc) {
    && (match doc.kind
        case Sale => !doc.deleted
        case BuyerReturn => true
        case GoodsReceipt => !doc.deleted
        case SupplierReturn => false)
    && (|options.kinds| > 0 ==> doc.kind in options.kinds)
    && (match options.start case Some(day) => doc.date >= day case None => true)
    && (match options.end case Some(last) => doc.date <= last case None => true)
    && (match options.action case POST => !doc.posted case UNPOST => doc.posted case REPOST => doc.posted)
  }

  lemma {:induction false} AskedIsListed(db: Db, options: Options, listing: Listing, d: Id)
    requires Lists(db, options, listing)
    ensures d in listing.All() <==> d in db.docs && Asked(options, db.docs[d])
  {
    K.ListingDisjoint(db, options, listing);
  }

  /** Headers after a run: status and profit of the asked documents, nothing else. */
  ghost predicate OnlyAsked(options: Options, docs: map<Id, Doc>, docs': map<Id, Doc>) {
    && docs'.Keys == docs.Keys
    && forall d :: d in docs ==>
         && docs'[d] == docs[d].(posted := docs'[d].posted, profit := docs'[d].profit)
         && (Asked(options, docs[d]) ==> (docs'[d].posted <==> !options.action.UNPOST?))
         && (!Asked(options, docs[d]) ==> docs'[d] == docs[d])
  }

  lemma {:induction false} ClearedHeaders(db: Db, options: Options, listing: Listing, db': Db)
    requires Ledger(db) && Lists(db, options, listing) && !options.action.POST?
    requires UnpostAll(db, listing.All()) == Ok(db')
    ensures db'.docs == ClearedOnly(db.docs, Members(listing.All()))
  {
    PhaseOneExact(db, options, listing);
    var a :| SalesGone(db, listing.sales, a) && Gone(a, listing.buyerReturns, listing.receipts, db');
    ClearedUnion(db.docs, listing);
  }

  lemma {:induction false} ClearedUnion(docs: map<Id, Doc>, listing: Listing)
    ensures ClearedOnly(ClearedOnly(ClearedOnly(docs, Members(listing.sales)), Members(listing.buyerReturns)),
                        Members(listing.receipts)) == ClearedOnly(docs, Members(listing.All()))
  {
    forall d
      ensures d in listing.All() <==> d in listing.sales || d in listing.buyerReturns || d in listing.receipts
    {
    }
  }

  lemma {:induction false} ListedPostable(db: Db, options: Options, listing: Listing, docs: map<Id, Doc>)
    requires Lists(db, options, listing)
    requires docs == if options.action.POST? then db.docs else ClearedOnly(db.docs, Members(listing.All()))
    ensures (forall x :: x in listing.All() ==> x in db.docs)
    ensures Postable(docs, Sort(db.docs, listing.All()))
    ensures var s := Sort(db.docs, listing.All()); forall x :: x in s <==> x in listing.All()
  {
    K.ListingDisjoint(db, options, listing);
    SortOrders(db.docs, listing.All());
    OrderedNoRepeats(db.docs, Sort(db.docs, listing.All()));
    MultisetMembers(Sort(db.docs, listing.All()), listing.All());
  }

  /** A committed run changes the asked documents and no others: afterwards they are all
      posted, or all unposted if that is what was asked, and every other document is as it
      was. */
  lemma {:induction false} RunScope(db: Db, options: Options, listing: Listing, db': Db)
    requires Ledger(db) && Lists(db, options, listing)
    requires forall x :: x in listing.All() ==> x in db.docs
    requires Repost(db, options.action, listing) == Ok(db')
    ensures OnlyAsked(options, db.docs, db'.docs)
  {
    var all := listing.All();
    forall d
      ensures d in all <==> d in db.docs && Asked(options, db.docs[d])
    {
      AskedIsListed(db, options, listing, d);
    }
    var cleared := if options.action.POST? then db else UnpostAll(db, all).value;
    if !options.action.POST? {
      ClearedHeaders(db, options, listing, cleared);
    }
    if !options.action.UNPOST? {
      ListedPostable(db, options, listing, cleared.docs);
      K.PostAllPosts(cleared, Sort(db.docs, all));
      ScopeOfReplay(db.docs, options, all, Sort(db.docs, all), cleared.docs, db'.docs);
    }
  }

  lemma {:induction false} ScopeOfReplay(docs: map<Id, Doc>, options: Options, all: seq<Id>, ids: seq<Id>,
                                         cleared: map<Id, Doc>, docs': map<Id, Doc>)
    requires !options.action.UNPOST? && (forall x :: x in ids <==> x in all)
    requires cleared == if options.action.POST? then docs else ClearedOnly(docs, Members(all))
    requires K.HeadersPosted(cleared, ids, docs')
    requires forall d :: d in all <==> d in docs && Asked(options, docs[d])
    ensures OnlyAsked(options, docs, docs')
  {
  }

  // ---- when a document is posted and unposted

  /** Posting is accepted exactly when the document is there and not posted and, for a sale or a
      supplier return, its warehouse holds its whole demand of every product. It then changes
      status and profit of that document and no other header. */
  lemma {:induction false} PostAccepted(db: Db, id: Id)
    ensures PostDoc(db, id).Ok?
            <==> && id in db.docs && !db.docs[id].posted
                 && (db.docs[id].kind.Sale? || db.docs[id].kind.SupplierReturn? ==>
                       forall p :: Demand(db.docs[id].items, p)
                                   <= Available(db.docs, db.batches, p, db.docs[id].warehouse))
    ensures PostDoc(db, id).Ok? ==>
              var docs' := PostDoc(db, id).value.docs;
              && id in docs' && docs' == db.docs[id := docs'[id]]
              && docs'[id] == db.docs[id].(posted := true, profit := docs'[id].profit)
              && (db.docs[id].kind.GoodsReceipt? || db.docs[id].kind.SupplierReturn? ==>
                    docs'[id].profit == db.docs[id].profit)
  {
    if id in db.docs {
      DeductItemsAtOnce(db, id, db.docs[id].warehouse, db.docs[id].items);
    }
  }

  /** Unposting is accepted exactly when the document is posted and, for a receipt, no batch of
      it holds less than it came with. A sale and a buyer return lose their profit. */
  lemma {:induction false} UnpostAccepted(db: Db, id: Id)
    ensures UnpostDoc(db, id).Ok?
            <==> && id in db.docs && db.docs[id].posted
                 && (db.docs[id].kind.GoodsReceipt? ==>
                       forall b :: b in db.batches && b.source == FromReceipt(id) ==> b.left >= b.total)
    ensures UnpostDoc(db, id).Ok? ==>
              var docs' := UnpostDoc(db, id).value.docs;
              && id in docs' && docs' == db.docs[id := docs'[id]]
              && docs'[id] == db.docs[id].(posted := false, profit := docs'[id].profit)
              && docs'[id].profit
                 == if db.docs[id].kind.Sale? || db.docs[id].kind.BuyerReturn? then 0 else db.docs[id].profit
  {
  }

  // ---- unposting undoes posting

  lemma {:induction false} AddedGone(db: Db, d: Id, items: seq<Item>, date: int)
    ensures var bs' := AddReceiptItems(db, d, items, date).batches;
            && Filter(bs', NotFrom(GoodsReceipt, {d})) == Filter(db.batches, NotFrom(GoodsReceipt, {d}))
            && forall b :: b in bs' ==> b in db.batches || b.left == b.total
    decreases |items|
  {
    if items != [] {
      var n := |items| - 1;
      var last, before := items[n], AddReceiptItems(db, d, items[..n], date);
      AddedGone(db, d, items[..n], date);
      FilteredOut(before.batches, Batch(before.nextId, last.product, last.quantity, last.quantity, last.price,
                                        FromReceipt(d), date), NotFrom(GoodsReceipt, {d}));
    }
  }

  lemma {:induction false} FilteredOut(bs: seq<Batch>, b: Batch, keep: Batch -> bool)
    requires !keep(b)
    ensures Filter(InsertBatch(bs, b), keep) == Filter(bs, keep)
    ensures var r := InsertBatch(bs, b); forall x :: x in r <==> x in bs || x == b
  {
    var k := InsertSplits(bs, b, CreatedAt());
    assert bs == bs[..k] + bs[k..];
    FilterSkips(bs[..k], b, bs[k..], keep);
    InsertMembers(bs, b, CreatedAt());
  }

  lemma {:induction false} RestockedGone(db: Db, d: Id, items: seq<Item>, date: int)
    ensures Filter(RestockItems(db, d, items, date).db.batches, NotFrom(BuyerReturn, {d}))
            == Filter(db.batches, NotFrom(BuyerReturn, {d}))
    decreases |items|
  {
    if items != [] {
      var n := |items| - 1;
      var last, before := items[n], RestockItems(db, d, items[..n], date).db;
      RestockedGone(db, d, items[..n], date);
      FilteredOut(before.batches, Batch(before.nextId, last.product, last.quantity, last.quantity,
                                        LastCost(before.batches, last.product), FromReturn(d, n), date),
                  NotFrom(BuyerReturn, {d}));
    }
  }

  lemma {:induction false} AllKept(db: Db, id: Id, kind: Kind)
    requires Ledger(db) && PostDoc(db, id).Ok?
    ensures Filter(db.batches, NotFrom(kind, {id})) == db.batches
  {
    P.NothingOf(db, id);
    forall b | b in db.batches
      ensures NotFrom(kind, {id})(b)
    {
      assert !P.Of(id)(b);
    }
    FilterAll(db.batches, NotFrom(kind, {id}));
  }

  /** The header a document has again once it is unposted. */
  function Unposted(doc: Doc): Doc {
    doc.(profit := if doc.kind.Sale? || doc.kind.BuyerReturn? then 0 else doc.profit)
  }

  lemma {:induction false} ReceiptRoundTrip(db: Db, id: Id)
    requires Ledger(db) && PostReceipt(db, id).Ok?
    ensures var r := UnpostDoc(PostReceipt(db, id).value, id);
            r.Ok? && r.value.batches == db.batches && r.value.rows == db.rows
  {
    var doc, posted := db.docs[id], PostReceipt(db, id).value;
    PostReceiptKeeps(db, id);
    AddedGone(db, id, doc.items, doc.date);
    AllKept(db, id, GoodsReceipt);
    P.NothingOf(db, id);
    forall b | b in posted.batches && b.source.FromReceipt? && b.source.doc in {id}
      ensures b.left >= b.total
    {
      assert b in db.batches ==> !P.Of(id)(b);
    }
    ReceiptUnposted(posted, id);
  }

  lemma {:induction false} ReturnRoundTrip(db: Db, id: Id)
    requires Ledger(db) && PostReturn(db, id).Ok?
    ensures var r := UnpostDoc(PostReturn(db, id).value, id);
            r.Ok? && r.value.batches == db.batches && r.value.rows == db.rows
  {
    var doc, posted := db.docs[id], PostReturn(db, id).value;
    RestockedGone(db, id, doc.items, doc.date);
    AllKept(db, id, BuyerReturn);
    PostReturnKeeps(db, id);
    ReturnUnposted(posted, id);
    NoRowLost(db, posted, UnpostReturn(posted, id).value, OfReturn(posted.batches, id));
  }

  /** A batch that was not there when the rows were written has none. */
  lemma {:induction false} NoRowLost(db: Db, posted: Db, after: Db, doomed: set<Id>)
    requires Ledger(db) && Ledger(posted) && posted.rows == db.rows && after.batches == db.batches
    requires after.rows == Filter(posted.rows, RowSurvives(doomed))
    requires after.batches == Filter(posted.batches, Survives(doomed))
    ensures after.rows == db.rows
  {
    forall r | r in db.rows
      ensures RowSurvives(doomed)(r)
    {
      var b :| b in db.batches && b.id == r.batch;
      assert b in after.batches && Survives(doomed)(b);
    }
    FilterAll(db.rows, RowSurvives(doomed));
  }

  lemma {:induction false} ShippingRoundTrip(db: Db, id: Id)
    requires Ledger(db) && PostDoc(db, id).Ok? && Outgoing(db.docs[id].kind)
    ensures var r := UnpostDoc(PostDoc(db, id).value, id);
            r.Ok? && r.value.batches == db.batches && r.value.rows == db.rows
  {
    var posted := PostDoc(db, id).value;
    var steps := [Post(id), Unpost(id)];
    PostAccepted(db, id);
    UnpostAccepted(posted, id);
    assert steps[..1] == [Post(id)] && steps[..1][..0] == [];
    assert Run(db, steps[..1]) == posted;
    assert Run(db, steps) == UnpostDoc(posted, id).value;
    H.HistoryIndependence(db, steps, {id});
  }

  /** Unposting what was just posted is accepted and gives back every batch, every allocation
      row and every header, with the profit of a sale or buyer return at zero. */
  lemma {:induction false} PostThenUnpost(db: Db, id: Id)
    requires Ledger(db) && PostDoc(db, id).Ok?
    ensures UnpostDoc(PostDoc(db, id).value, id).Ok?
    ensures var after := UnpostDoc(PostDoc(db, id).value, id).value;
            && after.batches == db.batches && after.rows == db.rows
            && after.docs == db.docs[id := Unposted(db.docs[id])]
  {
    match db.docs[id].kind {
      case GoodsReceipt => ReceiptRoundTrip(db, id);
      case BuyerReturn => ReturnRoundTrip(db, id);
      case Sale => ShippingRoundTrip(db, id);
      case SupplierReturn => ShippingRoundTrip(db, id);
    }
    PostAccepted(db, id);
    UnpostAccepted(PostDoc(db, id).value, id);
    HeaderBack(db.docs, PostDoc(db, id).value.docs, UnpostDoc(PostDoc(db, id).value, id).value.docs, id);
  }

  lemma {:induction false} HeaderBack(docs: map<Id, Doc>, mid: map<Id, Doc>, docs': map<Id, Doc>, id: Id)
    requires id in docs && id in mid && id in docs' && !docs[id].posted
    requires mid == docs[id := mid[id]] && docs' == mid[id := docs'[id]]
    requires mid[id] == docs[id].(posted := true, profit := mid[id].profit)
    requires docs[id].kind.GoodsReceipt? || docs[id].kind.SupplierReturn? ==> mid[id].profit == docs[id].profit
    requires docs'[id] == mid[id].(posted := false, profit := docs'[id].profit)
    requires docs'[id].profit == if mid[id].kind.Sale? || mid[id].kind.BuyerReturn? then 0 else mid[id].profit
    ensures docs' == docs[id := Unposted(docs[id])]
  {
  }
}
