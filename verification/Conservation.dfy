// Conservation of stock over every run: what batches say was taken from them is
// what the allocation rows took, per receipt and product, whatever the interleaving
// of posting, unposting, editing and deleting.

module Conservation {
  import opened Sums
  import opened Fifo
  import opened Tables
  import opened Inventory
  import opened Documents

  // ---- the invariant

  /** Total minus left minus what the rows took: zero when the cached value is right. */
  function Gap(rows: seq<Row>, b: Batch): int {
    b.total - b.left - Used(rows, b.id)
  }

  function GroupGapOf(rows: seq<Row>, receipt: Id, product: Id): Batch -> int {
    (b: Batch) => if InGroup(b, receipt, product) then Gap(rows, b) else 0
  }

  /** The gap of all batches one receipt holds of one product. */
  function GroupGap(bs: seq<Batch>, rows: seq<Row>, receipt: Id, product: Id): int {
    Sum(bs, GroupGapOf(rows, receipt, product))
  }

  /** Ids are keys, batches stand oldest first, nothing is oversold, rows take something
      from a batch that exists. */
  ghost predicate Sound(bs: seq<Batch>, rows: seq<Row>, nextId: Id) {
    && DistinctIds(bs)
    && Chronological(bs)
    && (forall b :: b in bs ==> b.id < nextId && b.left >= 0)
    && (forall r :: r in rows ==> r.qty > 0 && r.batch in BatchIds(bs))
  }

  /** The cached quantities agree with the rows: per receipt and product, and per batch
      for every batch that no receipt edit can touch. */
  ghost predicate Conserved(bs: seq<Batch>, rows: seq<Row>) {
    && (forall receipt, product :: GroupGap(bs, rows, receipt, product) == 0)
    && (forall b :: b in bs && !b.source.FromReceipt? ==> Gap(rows, b) == 0)
  }

  /** The cached quantities agree with the rows batch by batch. */
  ghost predicate ConservedPerBatch(bs: seq<Batch>, rows: seq<Row>) {
    forall b :: b in bs ==> Gap(rows, b) == 0
  }

  predicate IsPosted(docs: map<Id, Doc>, id: Id) {
    id in docs && docs[id].posted
  }

  predicate Outgoing(kind: Kind) {
    kind.Sale? || kind.SupplierReturn?
  }

  /** Only posted documents own batches or rows. */
  ghost predicate Owned(docs: map<Id, Doc>, bs: seq<Batch>, rows: seq<Row>) {
    && (forall b :: b in bs ==> SourceOk(docs, b.source))
    && (forall r :: r in rows ==> RowOk(docs, r))
  }

  predicate SourceOk(docs: map<Id, Doc>, source: Source) {
    match source
    case Arrival => true
    case FromReceipt(d) => IsPosted(docs, d) && docs[d].kind.GoodsReceipt?
    case FromReturn(d, i) => IsPosted(docs, d) && docs[d].kind.BuyerReturn? && i < |docs[d].items|
  }

  predicate RowOk(docs: map<Id, Doc>, r: Row) {
    IsPosted(docs, r.doc) && Outgoing(docs[r.doc].kind) && r.item < |docs[r.doc].items|
  }

  ghost predicate Ledger(db: Db) {
    && Sound(db.batches, db.rows, db.nextId)
    && Conserved(db.batches, db.rows)
    && Owned(db.docs, db.batches, db.rows)
    && (forall id :: id in db.docs ==> id < db.nextId)
  }

  /** What every change of the tables keeps. */
  ghost predicate Carries(db: Db, db': Db) {
    && Sound(db'.batches, db'.rows, db'.nextId)
    && (Conserved(db.batches, db.rows) ==> Conserved(db'.batches, db'.rows))
    && (ConservedPerBatch(db.batches, db.rows) ==> ConservedPerBatch(db'.batches, db'.rows))
  }

  // ---- gaps that do not move

  /** Batches that keep their place, source and gap keep every group's gap. */
  lemma {:induction false} GapsKept(bs: seq<Batch>, rows: seq<Row>, bs': seq<Batch>, rows': seq<Row>)
    requires |bs'| == |bs|
    requires forall i :: 0 <= i < |bs| ==>
               && bs'[i].source == bs[i].source && bs'[i].product == bs[i].product
               && Gap(rows', bs'[i]) == Gap(rows, bs[i])
    ensures forall receipt, product :: GroupGap(bs', rows', receipt, product) == GroupGap(bs, rows, receipt, product)
    ensures Conserved(bs, rows) ==> Conserved(bs', rows')
    ensures ConservedPerBatch(bs, rows) ==> ConservedPerBatch(bs', rows')
  {
    forall receipt, product
      ensures GroupGap(bs', rows', receipt, product) == GroupGap(bs, rows, receipt, product)
    {
      SumSame(bs', bs, GroupGapOf(rows', receipt, product), GroupGapOf(rows, receipt, product));
    }
    if Conserved(bs, rows) {
      forall b | b in bs' && !b.source.FromReceipt?
        ensures Gap(rows', b) == 0
      {
        var i :| 0 <= i < |bs'| && bs'[i] == b;
        assert bs[i] in bs;
      }
    }
    if ConservedPerBatch(bs, rows) {
      forall b | b in bs'
        ensures Gap(rows', b) == 0
      {
        var i :| 0 <= i < |bs'| && bs'[i] == b;
        assert bs[i] in bs;
      }
    }
  }

  /** Only the quantities left differ, and each differs by what the rows differ. */
  ghost predicate Refilled(bs: seq<Batch>, rows: seq<Row>, bs': seq<Batch>, rows': seq<Row>) {
    && |bs'| == |bs|
    && forall i :: 0 <= i < |bs| ==>
         && bs'[i] == bs[i].(left := bs'[i].left)
         && bs'[i].left + Used(rows', bs[i].id) == bs[i].left + Used(rows, bs[i].id)
  }

  // ---- adding stock

  lemma {:induction false} UnusedIsZero(rows: seq<Row>, batch: Id)
    requires forall r :: r in rows ==> r.batch != batch
    ensures Used(rows, batch) == 0
  {
    SumZero(rows, UsedOf(batch));
  }

  lemma {:induction false} AddStockSound(db: Db, product: Id, quantity: nat, price: int, source: Source, at: int)
    requires Sound(db.batches, db.rows, db.nextId)
    ensures var db' := AddStock(db, product, quantity, price, source, at);
            Sound(db'.batches, db'.rows, db'.nextId)
  {
    var b := Batch(db.nextId, product, quantity, quantity, price, source, at);
    InsertChronological(db.batches, b);
    InsertDistinct(db.batches, b);
    InsertMembers(db.batches, b, CreatedAt());
    assert BatchIds(InsertBatch(db.batches, b)) == BatchIds(db.batches) + {b.id};
  }

  lemma {:induction false} AddedBatchKeeps(bs: seq<Batch>, rows: seq<Row>, b: Batch)
    requires forall r :: r in rows ==> r.batch != b.id
    requires b.left == b.total
    ensures Conserved(bs, rows) ==> Conserved(InsertBatch(bs, b), rows)
    ensures ConservedPerBatch(bs, rows) ==> ConservedPerBatch(InsertBatch(bs, b), rows)
  {
    InsertMembers(bs, b, CreatedAt());
    UnusedIsZero(rows, b.id);
    forall receipt, p
      ensures GroupGap(InsertBatch(bs, b), rows, receipt, p) == GroupGap(bs, rows, receipt, p)
    {
      SumInsert(bs, b, CreatedAt(), GroupGapOf(rows, receipt, p));
    }
  }

  lemma {:induction false} AddStockKeeps(db: Db, product: Id, quantity: nat, price: int, source: Source, at: int)
    requires Sound(db.batches, db.rows, db.nextId)
    ensures Carries(db, AddStock(db, product, quantity, price, source, at))
  {
    AddStockSound(db, product, quantity, price, source, at);
    AddedBatchKeeps(db.batches, db.rows, Batch(db.nextId, product, quantity, quantity, price, source, at));
  }

  // ---- deducting

  lemma {:induction false} RowsForMembers(bs: seq<Batch>, takes: seq<nat>, doc: Id, item: nat)
    requires |takes| == |bs|
    ensures forall r :: r in RowsFor(bs, takes, doc, item) ==>
              r.doc == doc && r.item == item && r.qty > 0 && r.batch in BatchIds(bs)
    decreases |bs|
  {
    if bs != [] {
      RowsForMembers(bs[..|bs| - 1], takes[..|bs| - 1], doc, item);
    }
  }

  /** The rows a deduction writes take from each batch what the deduction took. */
  lemma {:induction false} RowsForUsed(bs: seq<Batch>, takes: seq<nat>, doc: Id, item: nat, i: nat)
    requires |takes| == |bs| && i < |bs| && DistinctIds(bs)
    ensures Used(RowsFor(bs, takes, doc, item), bs[i].id) == takes[i]
    decreases |bs|
  {
    var n := |bs| - 1;
    var rows := RowsFor(bs[..n], takes[..n], doc, item);
    RowsForMembers(bs[..n], takes[..n], doc, item);
    if i < n {
      RowsForUsed(bs[..n], takes[..n], doc, item, i);
    } else {
      UnusedIsZero(rows, bs[n].id);
    }
    if takes[n] > 0 {
      SumSnoc(rows, Row(doc, item, bs[n].id, takes[n], bs[n].price), UsedOf(bs[i].id));
    } else {
      assert rows + [] == rows;
    }
  }

  lemma {:induction false} DeductKeeps(db: Db, doc: Id, item: nat, product: Id, warehouse: Option<Id>, need: nat)
    requires Sound(db.batches, db.rows, db.nextId)
    requires Deduct(db, doc, item, product, warehouse, need).Ok?
    ensures var db' := Deduct(db, doc, item, product, warehouse, need).value;
            && Carries(db, db')
            && Refilled(db.batches, db.rows, db'.batches, db'.rows)
            && db.rows <= db'.rows
            && (forall r :: r in Added(db, db') ==> r.doc == doc && r.item == item)
  {
    var takes := Takes(Caps(db.docs, db.batches, product, warehouse), need);
    var more := RowsFor(db.batches, takes, doc, item);
    var db' := Deduct(db, doc, item, product, warehouse, need).value;
    RowsForMembers(db.batches, takes, doc, item);
    assert Added(db, db') == more;
    TakesKeep(db.batches, db.rows, db.nextId, takes, doc, item);
  }

  lemma {:induction false} TakesKeep(bs: seq<Batch>, rows: seq<Row>, nextId: Id, takes: seq<nat>, doc: Id, item: nat)
    requires Sound(bs, rows, nextId)
    requires |takes| == |bs| && forall i :: 0 <= i < |bs| ==> takes[i] <= bs[i].left
    ensures var bs', rows' := ApplyTakes(bs, takes), rows + RowsFor(bs, takes, doc, item);
            && Sound(bs', rows', nextId)
            && (Conserved(bs, rows) ==> Conserved(bs', rows'))
            && (ConservedPerBatch(bs, rows) ==> ConservedPerBatch(bs', rows'))
            && Refilled(bs, rows, bs', rows')
  {
    var more := RowsFor(bs, takes, doc, item);
    var bs', rows' := ApplyTakes(bs, takes), rows + more;
    RowsForMembers(bs, takes, doc, item);
    SameIds(bs, bs');
    forall i | 0 <= i < |bs|
      ensures Gap(rows', bs'[i]) == Gap(rows, bs[i])
    {
      RowsForUsed(bs, takes, doc, item, i);
      SumConcat(rows, more, UsedOf(bs[i].id));
    }
    GapsKept(bs, rows, bs', rows');
  }

  lemma {:induction false} SameIds(bs: seq<Batch>, bs': seq<Batch>)
    requires |bs'| == |bs|
    requires forall i :: 0 <= i < |bs| ==> bs'[i].id == bs[i].id
    ensures BatchIds(bs') == BatchIds(bs)
  {
    forall id | id in BatchIds(bs)
      ensures id in BatchIds(bs')
    {
      var i :| 0 <= i < |bs| && bs[i].id == id;
      assert bs'[i] in bs';
    }
    forall id | id in BatchIds(bs')
      ensures id in BatchIds(bs)
    {
      var i :| 0 <= i < |bs'| && bs'[i].id == id;
      assert bs[i] in bs;
    }
  }

  lemma {:induction false} DeductItemsKeeps(db: Db, doc: Id, warehouse: Option<Id>, items: seq<Item>)
    requires Sound(db.batches, db.rows, db.nextId)
    requires DeductItems(db, doc, warehouse, items).Ok?
    ensures var db' := DeductItems(db, doc, warehouse, items).value;
            && Carries(db, db')
            && db.rows <= db'.rows
            && (forall r :: r in Added(db, db') ==> r.doc == doc && r.item < |items|)
    decreases |items|
  {
    if items == [] {
      assert Added(db, db) == [];
    } else {
      var n := |items| - 1;
      var before := DeductItems(db, doc, warehouse, items[..n]).value;
      DeductItemsKeeps(db, doc, warehouse, items[..n]);
      DeductKeeps(before, doc, n, items[n].product, warehouse, items[n].quantity);
      AddedMembers(db, before, DeductItems(db, doc, warehouse, items).value);
    }
  }

  lemma {:induction false} RefilledTransitive(a: Db, b: Db, c: Db)
    requires Refilled(a.batches, a.rows, b.batches, b.rows) && Refilled(b.batches, b.rows, c.batches, c.rows)
    ensures Refilled(a.batches, a.rows, c.batches, c.rows)
  {
  }

  lemma {:induction false} DeductItemsRefills(db: Db, doc: Id, warehouse: Option<Id>, items: seq<Item>)
    requires Sound(db.batches, db.rows, db.nextId)
    requires DeductItems(db, doc, warehouse, items).Ok?
    ensures var db' := DeductItems(db, doc, warehouse, items).value;
            Refilled(db.batches, db.rows, db'.batches, db'.rows)
    decreases |items|
  {
    if items != [] {
      var n := |items| - 1;
      var before := DeductItems(db, doc, warehouse, items[..n]).value;
      DeductItemsRefills(db, doc, warehouse, items[..n]);
      DeductItemsKeeps(db, doc, warehouse, items[..n]);
      DeductKeeps(before, doc, n, items[n].product, warehouse, items[n].quantity);
      RefilledTransitive(db, before, DeductItems(db, doc, warehouse, items).value);
    }
  }

  lemma {:induction false} AddedMembers(db: Db, before: Db, after: Db)
    requires db.rows <= before.rows <= after.rows
    ensures forall r :: r in Added(db, after) <==> r in Added(db, before) || r in Added(before, after)
  {
    assert Added(db, after) == Added(db, before) + Added(before, after);
  }

  // ---- returning

  /** Dropping a document's rows frees exactly what it took. */
  lemma {:induction false} ReturnUsed(rows: seq<Row>, doc: Id, batch: Id)
    ensures Used(Filter(rows, NotOf(doc)), batch) == Used(rows, batch) - UsedBy(rows, doc, batch)
  {
    var kept := (r: Row) => if r.doc != doc && r.batch == batch then r.qty else 0;
    SumFilter(rows, NotOf(doc), UsedOf(batch), kept);
    SumPlus(rows, kept, UsedByOf(doc, batch), UsedOf(batch));
  }

  lemma {:induction false} ReturnKeeps(db: Db, doc: Id)
    requires Sound(db.batches, db.rows, db.nextId)
    ensures var db' := Return(db, doc);
            && Carries(db, db')
            && Refilled(db.batches, db.rows, db'.batches, db'.rows)
  {
    var db' := Return(db, doc);
    SameIds(db.batches, db'.batches);
    forall i | 0 <= i < |db.batches|
      ensures Gap(db'.rows, db'.batches[i]) == Gap(db.rows, db.batches[i])
      ensures db'.batches[i].left >= 0
    {
      ReturnUsed(db.rows, doc, db.batches[i].id);
      assert forall r :: r in db.rows ==> UsedByOf(doc, db.batches[i].id)(r) >= 0;
      SumNonNegative(db.rows, UsedByOf(doc, db.batches[i].id));
      assert db.batches[i] in db.batches;
    }
    GapsKept(db.batches, db.rows, db'.batches, db'.rows);
  }

  // ---- deleting batches

  lemma {:induction false} CascadeUsed(rows: seq<Row>, doomed: set<Id>, batch: Id)
    requires batch !in doomed
    ensures Used(Filter(rows, RowSurvives(doomed)), batch) == Used(rows, batch)
  {
    SumFilter(rows, RowSurvives(doomed), UsedOf(batch), UsedOf(batch));
  }

  lemma {:induction false} FilterOrder(bs: seq<Batch>, p: Batch -> bool)
    ensures DistinctIds(bs) ==> DistinctIds(Filter(bs, p))
    ensures Chronological(bs) ==> Chronological(Filter(bs, p))
  {
    if DistinctIds(bs) {
      FilterPairwise(bs, p, (a: Batch, b: Batch) => a.id != b.id);
    }
    if Chronological(bs) {
      FilterPairwise(bs, p, (a: Batch, b: Batch) => a.createdAt <= b.createdAt);
    }
  }

  /** Deleting batches keeps every group that survives, and every batch's own gap. */
  lemma {:induction false} DeleteKeeps(db: Db, doomed: set<Id>)
    requires Sound(db.batches, db.rows, db.nextId)
    ensures var db' := DeleteBatches(db, doomed);
            && Sound(db'.batches, db'.rows, db'.nextId)
            && (forall b :: b in db'.batches ==> b in db.batches && b.id !in doomed)
            && (forall b :: b in db'.batches ==> Gap(db'.rows, b) == Gap(db.rows, b))
            && (ConservedPerBatch(db.batches, db.rows) ==> ConservedPerBatch(db'.batches, db'.rows))
  {
    var db' := DeleteBatches(db, doomed);
    FilterOrder(db.batches, Survives(doomed));
    forall b | b in db'.batches
      ensures Gap(db'.rows, b) == Gap(db.rows, b)
    {
      CascadeUsed(db.rows, doomed, b.id);
    }
    forall r | r in db'.rows
      ensures r.batch in BatchIds(db'.batches)
    {
      var b :| b in db.batches && b.id == r.batch;
      assert b in db'.batches;
    }
  }

  lemma {:induction false} DeleteGroupGap(db: Db, doomed: set<Id>, receipt: Id, product: Id)
    requires Sound(db.batches, db.rows, db.nextId)
    requires forall b :: b in db.batches && b.id in doomed ==> !InGroup(b, receipt, product)
    ensures var db' := DeleteBatches(db, doomed);
            GroupGap(db'.batches, db'.rows, receipt, product) == GroupGap(db.batches, db.rows, receipt, product)
  {
    var db' := DeleteBatches(db, doomed);
    DeleteKeeps(db, doomed);
    var f, g := GroupGapOf(db'.rows, receipt, product), GroupGapOf(db.rows, receipt, product);
    SumSame(db'.batches, db'.batches, f, g);
    SumFilter(db.batches, Survives(doomed), g, g);
  }

  lemma {:induction false} EmptyGroupGap(bs: seq<Batch>, rows: seq<Row>, receipt: Id, product: Id)
    requires forall b :: b in bs ==> !InGroup(b, receipt, product)
    ensures GroupGap(bs, rows, receipt, product) == 0
  {
    SumZero(bs, GroupGapOf(rows, receipt, product));
  }

  /** Deleting whole groups and whole returns keeps conservation. */
  lemma {:induction false} DeleteConserves(db: Db, doomed: set<Id>)
    requires Sound(db.batches, db.rows, db.nextId) && Conserved(db.batches, db.rows)
    requires forall b, c, r, p :: b in db.batches && c in db.batches && InGroup(b, r, p) && InGroup(c, r, p)
               ==> (b.id in doomed <==> c.id in doomed)
    ensures var db' := DeleteBatches(db, doomed); Conserved(db'.batches, db'.rows)
  {
    var db' := DeleteBatches(db, doomed);
    DeleteKeeps(db, doomed);
    forall receipt, product
      ensures GroupGap(db'.batches, db'.rows, receipt, product) == 0
    {
      if exists b :: b in db'.batches && InGroup(b, receipt, product) {
        var b :| b in db'.batches && InGroup(b, receipt, product);
        DeleteGroupGap(db, doomed, receipt, product);
      } else {
        EmptyGroupGap(db'.batches, db'.rows, receipt, product);
      }
    }
  }

  // ---- resizing a group

  lemma {:induction false} ResizeShape(bs: seq<Batch>, r: Id, p: Id, total: int, left: int, price: int)
    ensures var bs' := Resize(bs, r, p, total, left, price);
            forall i :: 0 <= i < |bs| ==>
              && bs'[i].id == bs[i].id && bs'[i].product == bs[i].product
              && bs'[i].source == bs[i].source && bs'[i].createdAt == bs[i].createdAt
              && (!InGroup(bs[i], r, p) ==> bs'[i] == bs[i])
              && (InGroup(bs[i], r, p) ==> bs'[i].left == left || bs'[i].left == 0)
    decreases |bs|
  {
    if bs != [] && !InGroup(bs[0], r, p) {
      ResizeShape(bs[1..], r, p, total, left, price);
    }
  }

  /** After a resize the group says `total - left` was sold. */
  lemma {:induction false} ResizeSold(bs: seq<Batch>, r: Id, p: Id, total: int, left: int, price: int)
    requires exists b :: b in bs && InGroup(b, r, p)
    ensures Sold(Resize(bs, r, p, total, left, price), r, p) == total - left
    decreases |bs|
  {
    var rest := bs[1..];
    if InGroup(bs[0], r, p) {
      var first := bs[0].(total := total, left := left, price := price);
      SumCons(first, Map(rest, Emptied(r, p)), SoldOf(r, p));
      SumZero(Map(rest, Emptied(r, p)), SoldOf(r, p));
    } else {
      assert exists b :: b in rest && InGroup(b, r, p) by {
        var b :| b in bs && InGroup(b, r, p);
        assert b in rest;
      }
      ResizeSold(rest, r, p, total, left, price);
      SumCons(bs[0], Resize(rest, r, p, total, left, price), SoldOf(r, p));
    }
  }

  function MinusUsedOf(rows: seq<Row>, receipt: Id, product: Id): Batch -> int {
    (b: Batch) => if InGroup(b, receipt, product) then -Used(rows, b.id) else 0
  }

  lemma {:induction false} GroupGapSplits(bs: seq<Batch>, rows: seq<Row>, r: Id, p: Id)
    ensures GroupGap(bs, rows, r, p) == Sold(bs, r, p) + Sum(bs, MinusUsedOf(rows, r, p))
  {
    SumPlus(bs, SoldOf(r, p), MinusUsedOf(rows, r, p), GroupGapOf(rows, r, p));
  }

  lemma {:induction false} ResizeSound(db: Db, r: Id, p: Id, total: int, left: int, price: int)
    requires Sound(db.batches, db.rows, db.nextId) && left >= 0
    ensures Sound(Resize(db.batches, r, p, total, left, price), db.rows, db.nextId)
  {
    ResizeShape(db.batches, r, p, total, left, price);
    KeysKept(db.batches, Resize(db.batches, r, p, total, left, price), db.rows, db.nextId);
  }

  lemma {:induction false} KeysKept(bs: seq<Batch>, bs': seq<Batch>, rows: seq<Row>, nextId: Id)
    requires Sound(bs, rows, nextId)
    requires |bs'| == |bs|
    requires forall i :: 0 <= i < |bs| ==>
               bs'[i].id == bs[i].id && bs'[i].createdAt == bs[i].createdAt && (bs'[i].left >= 0 || bs'[i] == bs[i])
    ensures Sound(bs', rows, nextId)
  {
    SameIds(bs, bs');
    forall b | b in bs'
      ensures b.id < nextId && b.left >= 0
    {
      var i :| 0 <= i < |bs'| && bs'[i] == b;
      assert bs[i] in bs;
    }
  }

  lemma {:induction false} ResizeGroupGap(bs: seq<Batch>, rows: seq<Row>, r: Id, p: Id, total: int, left: int,
                                          price: int, r': Id, p': Id)
    requires exists b :: b in bs && InGroup(b, r, p)
    requires total - left == Sold(bs, r, p)
    ensures GroupGap(Resize(bs, r, p, total, left, price), rows, r', p') == GroupGap(bs, rows, r', p')
  {
    var bs' := Resize(bs, r, p, total, left, price);
    ResizeShape(bs, r, p, total, left, price);
    if r' == r && p' == p {
      ResizeSold(bs, r, p, total, left, price);
      GroupGapSplits(bs, rows, r, p);
      GroupGapSplits(bs', rows, r, p);
      SumSame(bs', bs, MinusUsedOf(rows, r, p), MinusUsedOf(rows, r, p));
    } else {
      SumSame(bs', bs, GroupGapOf(rows, r', p'), GroupGapOf(rows, r', p'));
    }
  }

  /** Resizing keeps the group's gap, though it may move it between the group's batches. */
  lemma {:induction false} ResizeConserves(db: Db, r: Id, p: Id, total: int, left: int, price: int)
    requires Conserved(db.batches, db.rows)
    requires exists b :: b in db.batches && InGroup(b, r, p)
    requires total - left == Sold(db.batches, r, p)
    ensures Conserved(Resize(db.batches, r, p, total, left, price), db.rows)
  {
    var bs' := Resize(db.batches, r, p, total, left, price);
    ResizeShape(db.batches, r, p, total, left, price);
    forall b | b in bs' && !b.source.FromReceipt?
      ensures Gap(db.rows, b) == 0
    {
      var i :| 0 <= i < |bs'| && bs'[i] == b;
      assert db.batches[i] in db.batches;
    }
    forall r', p'
      ensures GroupGap(bs', db.rows, r', p') == 0
    {
      ResizeGroupGap(db.batches, db.rows, r, p, total, left, price, r', p');
    }
  }

  // ---- from groups to the whole table

  function GapWhere(rows: seq<Row>, keep: Batch -> bool): Batch -> int {
    (b: Batch) => if keep(b) then Gap(rows, b) else 0
  }

  /** The batches are kept or not group by group. */
  ghost predicate Grouping(bs: seq<Batch>, keep: Batch -> bool) {
    forall b, c :: b in bs && c in bs && b.source == c.source && b.product == c.product ==> keep(b) == keep(c)
  }

  function OutOfGroup(receipt: Id, product: Id): Batch -> bool {
    (b: Batch) => !InGroup(b, receipt, product)
  }

  function GapOutside(rows: seq<Row>, keep: Batch -> bool, receipt: Id, product: Id): Batch -> int {
    (b: Batch) => if !InGroup(b, receipt, product) && keep(b) then Gap(rows, b) else 0
  }

  /** One group set aside: the rest of the gap lies outside it. */
  lemma {:induction false} GapSplits(bs: seq<Batch>, rows: seq<Row>, keep: Batch -> bool, b: Batch)
    requires Grouping(bs, keep) && b in bs && keep(b) && b.source.FromReceipt?
    ensures var r, p := b.source.doc, b.product;
            Sum(bs, GapWhere(rows, keep))
            == Sum(Filter(bs, OutOfGroup(r, p)), GapWhere(rows, keep)) + GroupGap(bs, rows, r, p)
  {
    var r, p := b.source.doc, b.product;
    SumFilter(bs, OutOfGroup(r, p), GapWhere(rows, keep), GapOutside(rows, keep, r, p));
    SumPlus(bs, GapOutside(rows, keep, r, p), GroupGapOf(rows, r, p), GapWhere(rows, keep));
  }

  lemma {:induction false} GroupsOutside(bs: seq<Batch>, rows: seq<Row>, r: Id, p: Id)
    requires Conserved(bs, rows)
    ensures Conserved(Filter(bs, OutOfGroup(r, p)), rows)
  {
    forall r', p'
      ensures GroupGap(Filter(bs, OutOfGroup(r, p)), rows, r', p') == 0
    {
      if r' == r && p' == p {
        EmptyGroupGap(Filter(bs, OutOfGroup(r, p)), rows, r, p);
      } else {
        assert GroupGap(bs, rows, r', p') == 0;
        SumFilter(bs, OutOfGroup(r, p), GroupGapOf(rows, r', p'), GroupGapOf(rows, r', p'));
      }
    }
  }

  /** What holds group by group holds of every union of groups. */
  lemma {:induction false} NoGapWhere(bs: seq<Batch>, rows: seq<Row>, keep: Batch -> bool)
    requires Conserved(bs, rows) && Grouping(bs, keep)
    ensures Sum(bs, GapWhere(rows, keep)) == 0
    decreases |bs|
  {
    var f := GapWhere(rows, keep);
    if exists b :: b in bs && f(b) != 0 {
      var b :| b in bs && f(b) != 0;
      var r, p := b.source.doc, b.product;
      GapSplits(bs, rows, keep, b);
      FilterShorter(bs, OutOfGroup(r, p), b);
      GroupsOutside(bs, rows, r, p);
      NoGapWhere(Filter(bs, OutOfGroup(r, p)), rows, keep);
    } else {
      SumZero(bs, f);
    }
  }
}
