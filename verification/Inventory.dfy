// What the inventory service does to the batch and allocation tables, and the laws
// of FIFO deduction: exactness, uniqueness, additivity and order independence.

module Inventory {
  import opened Sums
  import opened Fifo
  import opened Tables

  // ---- addStock

  function CreatedAt(): Batch -> int {
    (b: Batch) => b.createdAt
  }

  /** A new batch goes after every batch that is not younger. */
  function InsertBatch(bs: seq<Batch>, b: Batch): seq<Batch> {
    InsertBy(bs, b, CreatedAt())
  }

  function AddStock(db: Db, product: Id, quantity: nat, price: int, source: Source, createdAt: int): Db {
    db.(batches := InsertBatch(db.batches, Batch(db.nextId, product, quantity, quantity, price, source, createdAt)),
        nextId := db.nextId + 1)
  }

  /** Inserting keeps the table oldest first. */
  lemma {:induction false} InsertChronological(bs: seq<Batch>, b: Batch)
    requires Chronological(bs)
    ensures Chronological(InsertBatch(bs, b))
  {
    InsertMembers(bs, b, CreatedAt());
    InsertPairwise(bs, b, CreatedAt(), (x: Batch, y: Batch) => x.createdAt <= y.createdAt);
  }

  lemma {:induction false} InsertDistinct(bs: seq<Batch>, b: Batch)
    requires Chronological(bs) && DistinctIds(bs) && b.id !in BatchIds(bs)
    ensures DistinctIds(InsertBatch(bs, b))
  {
    InsertMembers(bs, b, CreatedAt());
    InsertPairwise(bs, b, CreatedAt(), (x: Batch, y: Batch) => x.id != y.id);
  }

  /** What adding stock does for those who deduct: one full batch under a new id takes its
      place behind every batch that is not younger, what its warehouse can deduct of the
      product grows by its quantity, and nothing else changes. */
  lemma {:induction false} AddStockBrings(db: Db, product: Id, quantity: nat, price: int, source: Source, at: int)
    requires Chronological(db.batches) && DistinctIds(db.batches)
    requires forall b :: b in db.batches ==> b.id < db.nextId
    ensures var db' := AddStock(db, product, quantity, price, source, at);
            var b := Batch(db.nextId, product, quantity, quantity, price, source, at);
            && multiset(db'.batches) == multiset(db.batches) + multiset{b}
            && db'.rows == db.rows && db'.docs == db.docs
            && Chronological(db'.batches) && DistinctIds(db'.batches)
            && (forall i, j :: 0 <= i < j < |db'.batches| && db'.batches[i] == b ==> at < db'.batches[j].createdAt)
            && forall p, w :: Available(db.docs, db'.batches, p, w)
                              == Available(db.docs, db.batches, p, w)
                                 + if p == product && w.Some? && WarehouseOf(db.docs, b) == w then quantity else 0
  {
    var b := Batch(db.nextId, product, quantity, quantity, price, source, at);
    InsertMembers(db.batches, b, CreatedAt());
    InsertChronological(db.batches, b);
    InsertDistinct(db.batches, b);
    InsertLast(db.batches, b);
    forall p, w
      ensures Available(db.docs, InsertBatch(db.batches, b), p, w)
              == Available(db.docs, db.batches, p, w) + CapOf(db.docs, p, w)(b)
    {
      SumInsert(db.batches, b, CreatedAt(), CapOf(db.docs, p, w));
    }
  }

  lemma {:induction false} InsertLast(bs: seq<Batch>, b: Batch)
    requires forall x :: x in bs ==> x.id != b.id
    ensures var r := InsertBatch(bs, b);
            forall i, j {:trigger r[i], r[j]} :: 0 <= i < j < |r| && r[i] == b ==> b.createdAt < r[j].createdAt
  {
    var k := InsertSplits(bs, b, CreatedAt());
    var r := InsertBatch(bs, b);
    forall i, j {:trigger r[i], r[j]} | 0 <= i < j < |r| && r[i] == b
      ensures b.createdAt < r[j].createdAt
    {
      assert r[j] == bs[j - 1] && CreatedAt()(b) < CreatedAt()(bs[j - 1]);
    }
  }

  // ---- deductStock

  function DrawBatch(): (Batch, nat) -> Batch {
    (b: Batch, q: nat) => b.(left := b.left - q)
  }

  function ApplyTakes(bs: seq<Batch>, takes: seq<nat>): (r: seq<Batch>)
    requires |takes| == |bs|
    ensures |r| == |bs|
    ensures forall i :: 0 <= i < |bs| ==> r[i] == bs[i].(left := bs[i].left - takes[i])
  {
    Drawn(bs, takes, DrawBatch())
  }

  function RowOf(doc: Id, item: nat): (Batch, nat) -> Row {
    (b: Batch, q: nat) => Row(doc, item, b.id, q, b.price)
  }

  /** One allocation row for every batch something is taken from. */
  function RowsFor(bs: seq<Batch>, takes: seq<nat>, doc: Id, item: nat): seq<Row>
    requires |takes| == |bs|
  {
    Records(bs, takes, RowOf(doc, item))
  }

  /** Deducts `need` of a product in one warehouse for one item of a document. */
  function Deduct(db: Db, doc: Id, item: nat, product: Id, warehouse: Option<Id>, need: nat): (r: Result<Db>)
    ensures r.Ok? ==> r.value.docs == db.docs && r.value.nextId == db.nextId && |r.value.batches| == |db.batches|
  {
    var caps := Caps(db.docs, db.batches, product, warehouse);
    var takes := Takes(caps, need);
    if Total(caps) < need then Err(InsufficientStock(product, need, need - Total(caps)))
    else Ok(db.(batches := ApplyTakes(db.batches, takes),
                rows := db.rows + RowsFor(db.batches, takes, doc, item)))
  }

  lemma {:induction false} AvailableIsTotal(docs: map<Id, Doc>, bs: seq<Batch>, product: Id, warehouse: Option<Id>)
    ensures Total(Caps(docs, bs, product, warehouse)) == Available(docs, bs, product, warehouse)
  {
    TotalIsSum(Caps(docs, bs, product, warehouse), bs, CapOf(docs, product, warehouse));
  }

  /** What each batch lost between two states of the table. */
  function Lost(before: seq<Batch>, after: seq<Batch>): (r: seq<int>)
    requires |before| == |after|
    ensures |r| == |before|
    ensures forall i :: 0 <= i < |r| ==> r[i] == before[i].left - after[i].left
  {
    seq(|before|, i requires 0 <= i < |before| => before[i].left - after[i].left)
  }

  /** Deduction succeeds exactly when the warehouse holds enough; it then takes from
      each batch what the walk takes, which is the only allocation that sums to the
      need, stays within each batch and touches a batch only when every older one is
      empty. A failure reports how much is missing. */
  lemma {:induction false} DeductExact(db: Db, doc: Id, item: nat, product: Id, warehouse: Option<Id>, need: nat)
    ensures var r := Deduct(db, doc, item, product, warehouse, need);
            var caps := Caps(db.docs, db.batches, product, warehouse);
            && (r.Ok? <==> need <= Available(db.docs, db.batches, product, warehouse))
            && (r.Err? ==> r.error == InsufficientStock(product, need,
                                        need - Available(db.docs, db.batches, product, warehouse)))
            && (r.Ok? ==>
                  && forall takes: seq<nat> {:trigger Greedy(caps, takes)} ::
                       Greedy(caps, takes) && Total(takes) == need
                       <==> |takes| == |caps| && Lost(db.batches, r.value.batches) == takes)
  {
    var caps := Caps(db.docs, db.batches, product, warehouse);
    AvailableIsTotal(db.docs, db.batches, product, warehouse);
    var r := Deduct(db, doc, item, product, warehouse, need);
    TakesTotal(caps, need);
    TakesGreedy(caps, need);
    if r.Ok? {
      var lost := Lost(db.batches, r.value.batches);
      assert lost == Takes(caps, need);
      forall takes: seq<nat> | Greedy(caps, takes) && Total(takes) == need
        ensures lost == takes
      {
        GreedyUnique(caps, takes);
      }
    }
  }

  // ---- deducting the items of a document

  /** The items from the first up to `n`, each deducted from what the ones before left. */
  function DeductItems(db: Db, doc: Id, warehouse: Option<Id>, items: seq<Item>): (r: Result<Db>)
    ensures r.Ok? ==> r.value.docs == db.docs && r.value.nextId == db.nextId && |r.value.batches| == |db.batches|
    decreases |items|
  {
    if items == [] then Ok(db)
    else
      var n := |items| - 1;
      var before := DeductItems(db, doc, warehouse, items[..n]);
      if before.Err? then before
      else Deduct(before.value, doc, n, items[n].product, warehouse, items[n].quantity)
  }

  /** What a one-shot deduction of the whole demand for its product leaves in a batch. */
  function LeftAtOnce(docs: map<Id, Doc>, bs: seq<Batch>, warehouse: Option<Id>, items: seq<Item>, i: nat): int
    requires i < |bs|
  {
    var p := bs[i].product;
    bs[i].left - TakeAt(Caps(docs, bs, p, warehouse), Demand(items, p), i)
  }

  /** `after` is `bs` with the whole demand of every product deducted at once. */
  ghost predicate AtOnce(docs: map<Id, Doc>, bs: seq<Batch>, warehouse: Option<Id>, items: seq<Item>,
                         after: seq<Batch>) {
    && |after| == |bs|
    && forall i {:trigger LeftAtOnce(docs, bs, warehouse, items, i)} :: 0 <= i < |bs| ==>
         after[i] == bs[i].(left := LeftAtOnce(docs, bs, warehouse, items, i))
  }

  lemma {:induction false} DemandSnoc(items: seq<Item>, product: Id)
    requires items != []
    ensures var n := |items| - 1;
            Demand(items, product)
            == Demand(items[..n], product) + if items[n].product == product then items[n].quantity else 0
  {
  }

  /** Capacities after a deduction: lowered by what was taken for that product, others untouched. */
  lemma {:induction false} CapsAfter(db: Db, doc: Id, item: nat, product: Id, warehouse: Option<Id>, need: nat,
                                     other: Id)
    requires Deduct(db, doc, item, product, warehouse, need).Ok?
    ensures var after := Deduct(db, doc, item, product, warehouse, need).value;
            var caps := Caps(db.docs, db.batches, other, warehouse);
            forall i :: 0 <= i < |db.batches| ==>
              Caps(db.docs, after.batches, other, warehouse)[i]
              == caps[i] - if other == product then Takes(caps, need)[i] else 0
  {
  }

  /** Deducting item by item is deducting the whole demand of each product at once,
      and it succeeds exactly when each product's whole demand is available. */
  lemma {:induction false} DeductItemsAtOnce(db: Db, doc: Id, warehouse: Option<Id>, items: seq<Item>)
    ensures var r := DeductItems(db, doc, warehouse, items);
            && (r.Ok? <==> forall p :: Demand(items, p) <= Available(db.docs, db.batches, p, warehouse))
            && (r.Ok? ==> AtOnce(db.docs, db.batches, warehouse, items, r.value.batches))
            && (r.Ok? ==> forall p :: Available(db.docs, r.value.batches, p, warehouse)
                                      == Available(db.docs, db.batches, p, warehouse) - Demand(items, p))
    decreases |items|
  {
    if items == [] {
      forall i | 0 <= i < |db.batches|
        ensures LeftAtOnce(db.docs, db.batches, warehouse, items, i) == db.batches[i].left
      {
      }
    } else {
      var n := |items| - 1;
      var before := DeductItems(db, doc, warehouse, items[..n]);
      DeductItemsAtOnce(db, doc, warehouse, items[..n]);
      var p, q := items[n].product, items[n].quantity;
      forall o ensures Demand(items, o) == Demand(items[..n], o) + if p == o then q else 0 {
        DemandSnoc(items, o);
      }
      if before.Err? {
        var o :| Demand(items[..n], o) > Available(db.docs, db.batches, o, warehouse);
        assert Demand(items, o) > Available(db.docs, db.batches, o, warehouse);
      } else {
        AvailableIsTotal(db.docs, before.value.batches, p, warehouse);
        var r := Deduct(before.value, doc, n, p, warehouse, q);
        assert r.Ok? <==> Demand(items, p) <= Available(db.docs, db.batches, p, warehouse);
        if r.Ok? {
          AtOnceStep(db.docs, db.batches, before.value.batches, warehouse, items);
          forall o ensures Available(db.docs, r.value.batches, o, warehouse)
                           == Available(db.docs, db.batches, o, warehouse) - Demand(items, o)
          {
            AvailableAfter(before.value, doc, n, p, warehouse, q, o);
          }
        }
      }
    }
  }

  lemma {:induction false} AvailableAfter(db: Db, doc: Id, item: nat, product: Id, warehouse: Option<Id>, need: nat,
                                          other: Id)
    requires Deduct(db, doc, item, product, warehouse, need).Ok?
    ensures var after := Deduct(db, doc, item, product, warehouse, need).value;
            Available(db.docs, after.batches, other, warehouse)
            == Available(db.docs, db.batches, other, warehouse) - if other == product then need else 0
  {
    var after := Deduct(db, doc, item, product, warehouse, need).value;
    var caps, caps' := Caps(db.docs, db.batches, other, warehouse), Caps(db.docs, after.batches, other, warehouse);
    CapsAfter(db, doc, item, product, warehouse, need, other);
    AvailableIsTotal(db.docs, db.batches, other, warehouse);
    AvailableIsTotal(db.docs, after.batches, other, warehouse);
    if other == product {
      TakesTotal(caps, need);
      TotalMinus(caps, Takes(caps, need), caps');
    } else {
      assert caps == caps';
    }
  }

  /** One more item on top of a one-shot deduction is a one-shot deduction of one more item. */
  lemma {:induction false} AtOnceStep(docs: map<Id, Doc>, bs: seq<Batch>, mid: seq<Batch>, warehouse: Option<Id>,
                                      items: seq<Item>)
    requires items != []
    requires AtOnce(docs, bs, warehouse, items[..|items| - 1], mid)
    ensures var last := items[|items| - 1];
            AtOnce(docs, bs, warehouse, items,
                   ApplyTakes(mid, Takes(Caps(docs, mid, last.product, warehouse), last.quantity)))
  {
    var before, last := items[..|items| - 1], items[|items| - 1];
    var takes := Takes(Caps(docs, mid, last.product, warehouse), last.quantity);
    var after := ApplyTakes(mid, takes);
    forall i {:trigger LeftAtOnce(docs, bs, warehouse, items, i)} | 0 <= i < |bs|
      ensures after[i] == bs[i].(left := LeftAtOnce(docs, bs, warehouse, items, i))
    {
      LeftStep(docs, bs, mid, warehouse, items, i);
      assert mid[i] == bs[i].(left := LeftAtOnce(docs, bs, warehouse, before, i));
    }
  }

  lemma {:induction false} LeftStep(docs: map<Id, Doc>, bs: seq<Batch>, mid: seq<Batch>, warehouse: Option<Id>,
                                    items: seq<Item>, i: nat)
    requires items != [] && i < |bs|
    requires AtOnce(docs, bs, warehouse, items[..|items| - 1], mid)
    ensures var last := items[|items| - 1];
            LeftAtOnce(docs, bs, warehouse, items, i)
            == LeftAtOnce(docs, bs, warehouse, items[..|items| - 1], i)
               - TakeAt(Caps(docs, mid, last.product, warehouse), last.quantity, i)
  {
    var before, last := items[..|items| - 1], items[|items| - 1];
    DemandSnoc(items, bs[i].product);
    if bs[i].product == last.product {
      MidCaps(docs, bs, mid, warehouse, before, last.product);
      TakesAdditive(Caps(docs, bs, last.product, warehouse), Demand(before, last.product), last.quantity,
                      Caps(docs, mid, last.product, warehouse), i);
    } else {
      OtherCap(docs, bs, mid, warehouse, before, last.product, i);
    }
  }

  lemma {:induction false} OtherCap(docs: map<Id, Doc>, bs: seq<Batch>, mid: seq<Batch>, warehouse: Option<Id>,
                                    items: seq<Item>, product: Id, i: nat)
    requires AtOnce(docs, bs, warehouse, items, mid)
    requires i < |bs| && bs[i].product != product
    ensures Caps(docs, mid, product, warehouse)[i] == 0
  {
    assert mid[i] == bs[i].(left := LeftAtOnce(docs, bs, warehouse, items, i));
  }

  lemma {:induction false} MidCaps(docs: map<Id, Doc>, bs: seq<Batch>, mid: seq<Batch>, warehouse: Option<Id>,
                                   items: seq<Item>, o: Id)
    requires AtOnce(docs, bs, warehouse, items, mid)
    ensures var caps := Caps(docs, bs, o, warehouse);
            forall j :: 0 <= j < |caps| ==>
              Caps(docs, mid, o, warehouse)[j] == caps[j] - Takes(caps, Demand(items, o))[j]
  {
    forall j | 0 <= j < |bs|
      ensures Caps(docs, mid, o, warehouse)[j]
              == Caps(docs, bs, o, warehouse)[j] - Takes(Caps(docs, bs, o, warehouse), Demand(items, o))[j]
    {
      assert mid[j] == bs[j].(left := LeftAtOnce(docs, bs, warehouse, items, j));
    }
  }

  // ---- the purchase cost of a deduction

  function WorthOf(): Batch -> int {
    (b: Batch) => b.left * b.price
  }

  /** The stock on hand at purchase price. */
  function Worth(bs: seq<Batch>): int {
    Sum(bs, WorthOf())
  }

  lemma {:induction false} TakesWorth(bs: seq<Batch>, takes: seq<nat>, doc: Id, item: nat)
    requires |takes| == |bs|
    ensures Cost(RowsFor(bs, takes, doc, item)) == Worth(bs) - Worth(ApplyTakes(bs, takes))
    decreases |bs|
  {
    if bs != [] {
      var n := |bs| - 1;
      TakesWorth(bs[..n], takes[..n], doc, item);
      assert ApplyTakes(bs, takes)[..n] == ApplyTakes(bs[..n], takes[..n]);
      var t, l, c := takes[n], bs[n].left, bs[n].price;
      assert (l - t) * c == l * c - t * c;
      var rows := RowsFor(bs[..n], takes[..n], doc, item);
      if t > 0 {
        SumSnoc(rows, Row(doc, item, bs[n].id, t, c), RowCost());
      } else {
        assert rows + [] == rows;
        assert t * c == 0;
      }
    }
  }

  /** The rows added to the allocation table between two states. */
  function Added(before: Db, after: Db): seq<Row>
    requires |before.rows| <= |after.rows|
  {
    after.rows[|before.rows|..]
  }

  lemma {:induction false} DeductWorth(db: Db, doc: Id, item: nat, product: Id, warehouse: Option<Id>, need: nat)
    requires Deduct(db, doc, item, product, warehouse, need).Ok?
    ensures var after := Deduct(db, doc, item, product, warehouse, need).value;
            && db.rows <= after.rows
            && Cost(Added(db, after)) == Worth(db.batches) - Worth(after.batches)
  {
    var takes := Takes(Caps(db.docs, db.batches, product, warehouse), need);
    var after := Deduct(db, doc, item, product, warehouse, need).value;
    TakesWorth(db.batches, takes, doc, item);
    assert Added(db, after) == RowsFor(db.batches, takes, doc, item);
  }

  /** The cost a document records is exactly the drop in the worth of the stock. */
  lemma {:induction false} DeductItemsWorth(db: Db, doc: Id, warehouse: Option<Id>, items: seq<Item>)
    requires DeductItems(db, doc, warehouse, items).Ok?
    ensures var after := DeductItems(db, doc, warehouse, items).value;
            && db.rows <= after.rows
            && Cost(Added(db, after)) == Worth(db.batches) - Worth(after.batches)
    decreases |items|
  {
    if items == [] {
      assert Added(db, db) == [];
    } else {
      var n := |items| - 1;
      var before := DeductItems(db, doc, warehouse, items[..n]).value;
      DeductItemsWorth(db, doc, warehouse, items[..n]);
      DeductWorth(before, doc, n, items[n].product, warehouse, items[n].quantity);
      var after := DeductItems(db, doc, warehouse, items).value;
      AddedSteps(db, before, after);
    }
  }

  lemma {:induction false} AddedSteps(db: Db, before: Db, after: Db)
    requires db.rows <= before.rows <= after.rows
    ensures Cost(Added(db, after)) == Cost(Added(db, before)) + Cost(Added(before, after))
  {
    assert Added(db, after) == Added(db, before) + Added(before, after);
    SumConcat(Added(db, before), Added(before, after), RowCost());
  }

  /** Sale items are read in no particular order: whatever the order, posting succeeds
      or fails alike, leaves the same batches and records the same cost. */
  lemma {:induction false} ItemOrderIrrelevant(db: Db, doc: Id, warehouse: Option<Id>, items: seq<Item>,
                                               shuffled: seq<Item>)
    requires multiset(items) == multiset(shuffled)
    ensures var a, b := DeductItems(db, doc, warehouse, items), DeductItems(db, doc, warehouse, shuffled);
            && (a.Ok? <==> b.Ok?)
            && (a.Ok? ==>
                  && a.value.batches == b.value.batches
                  && db.rows <= a.value.rows && db.rows <= b.value.rows
                  && Cost(Added(db, a.value)) == Cost(Added(db, b.value)))
  {
    forall p ensures Demand(items, p) == Demand(shuffled, p) {
      SumPermutation(items, shuffled, DemandOf(p));
    }
    DeductItemsAtOnce(db, doc, warehouse, items);
    DeductItemsAtOnce(db, doc, warehouse, shuffled);
    if DeductItems(db, doc, warehouse, items).Ok? {
      var a := DeductItems(db, doc, warehouse, items).value.batches;
      var b := DeductItems(db, doc, warehouse, shuffled).value.batches;
      SameAtOnce(db.docs, db.batches, warehouse, items, shuffled, a, b);
      DeductItemsWorth(db, doc, warehouse, items);
      DeductItemsWorth(db, doc, warehouse, shuffled);
    }
  }

  lemma {:induction false} SameAtOnce(docs: map<Id, Doc>, bs: seq<Batch>, warehouse: Option<Id>, items: seq<Item>,
                                      shuffled: seq<Item>,
                   a: seq<Batch>, b: seq<Batch>)
    requires forall p :: Demand(items, p) == Demand(shuffled, p)
    requires AtOnce(docs, bs, warehouse, items, a)
    requires AtOnce(docs, bs, warehouse, shuffled, b)
    ensures a == b
  {
    forall i | 0 <= i < |bs|
      ensures a[i] == b[i]
    {
      assert LeftAtOnce(docs, bs, warehouse, items, i) == LeftAtOnce(docs, bs, warehouse, shuffled, i);
    }
  }

  // ---- returnStock

  function Restored(rows: seq<Row>, doc: Id): Batch -> Batch {
    (b: Batch) => b.(left := b.left + UsedBy(rows, doc, b.id))
  }

  function NotOf(doc: Id): Row -> bool {
    (r: Row) => r.doc != doc
  }

  /** Puts back what a document took, batch by batch, and drops its rows. */
  function Return(db: Db, doc: Id): Db {
    db.(batches := Map(db.batches, Restored(db.rows, doc)), rows := Filter(db.rows, NotOf(doc)))
  }

  // ---- deleting batches

  function Survives(doomed: set<Id>): Batch -> bool {
    (b: Batch) => b.id !in doomed
  }

  function RowSurvives(doomed: set<Id>): Row -> bool {
    (r: Row) => r.batch !in doomed
  }

  /** Deletes batches; the foreign key deletes their allocation rows with them. */
  function DeleteBatches(db: Db, doomed: set<Id>): Db {
    db.(batches := Filter(db.batches, Survives(doomed)), rows := Filter(db.rows, RowSurvives(doomed)))
  }
}
