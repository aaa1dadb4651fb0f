// The services as they run: methods that change the tables row by row inside a
// transaction, each proved to do what the functions on the tables say, and to leave the
// tables as they were when it fails.

module Store {
  import opened Sums
  import opened Fifo
  import opened Tables
  import I = Inventory
  import D = Documents
  import C = Conservation
  import R = Runs
  import P = Replay
  import H = History
  import E = Edits
  import K = Clearing
  import N = Renumbering

  /** What deductStock reports for each batch it took from. */
  datatype Deduction = Deduction(batch: Id, quantity: nat, price: int)

  function DeductionOf(): (Batch, nat) -> Deduction {
    (b: Batch, q: nat) => Deduction(b.id, q, b.price)
  }

  function DeductionsFor(bs: seq<Batch>, takes: seq<nat>): seq<Deduction>
    requires |takes| == |bs|
  {
    Records(bs, takes, DeductionOf())
  }

  function ToRow(doc: Id, item: nat): Deduction -> Row {
    (d: Deduction) => Row(doc, item, d.batch, d.quantity, d.price)
  }

  /** Writing down the deductions gives the allocation rows of the deduction. */
  lemma {:induction false} DeductionRows(bs: seq<Batch>, takes: seq<nat>, doc: Id, item: nat)
    requires |takes| == |bs|
    ensures Map(DeductionsFor(bs, takes), ToRow(doc, item)) == I.RowsFor(bs, takes, doc, item)
    decreases |bs|
  {
    if bs != [] {
      var n := |bs| - 1;
      DeductionRows(bs[..n], takes[..n], doc, item);
      var last := if takes[n] > 0 then [Deduction(bs[n].id, takes[n], bs[n].price)] else [];
      assert Map(DeductionsFor(bs[..n], takes[..n]) + last, ToRow(doc, item))
             == Map(DeductionsFor(bs[..n], takes[..n]), ToRow(doc, item)) + Map(last, ToRow(doc, item));
    }
  }

  predicate Eligible(docs: map<Id, Doc>, b: Batch, product: Id, warehouse: Option<Id>) {
    b.product == product && b.left > 0 && warehouse.Some? && WarehouseOf(docs, b) == warehouse
  }

  /** What the finished loop answers, from the batches `bs` it found. */
  ghost predicate Deducted(docs: map<Id, Doc>, bs: seq<Batch>, product: Id, warehouse: Option<Id>, need: nat,
                           r: Result<seq<Deduction>>, now: seq<Batch>)
  {
    var caps := Caps(docs, bs, product, warehouse);
    && (r.Ok? <==> need <= Total(caps))
    && (r.Err? ==> r.error == InsufficientStock(product, need, need - Total(caps)))
    && (r.Ok? ==> now == I.ApplyTakes(bs, Takes(caps, need)) && r.value == DeductionsFor(bs, Takes(caps, need)))
  }

  lemma {:induction false} LoopEnds(docs: map<Id, Doc>, bs: seq<Batch>, product: Id, warehouse: Option<Id>, need: nat,
                                    i: nat, now: seq<Batch>, remaining: nat, ds: seq<Deduction>)
    requires Walking(bs, Caps(docs, bs, product, warehouse), need, I.DrawBatch(), DeductionOf(), i, now, remaining, ds)
    requires i == |bs| || remaining == 0
    ensures Deducted(docs, bs, product, warehouse, need,
                     if remaining > 0 then Err(InsufficientStock(product, need, remaining)) else Ok(ds), now)
  {
    WalkEnds(bs, Caps(docs, bs, product, warehouse), need, I.DrawBatch(), DeductionOf(), i, now, remaining, ds);
  }

  function AddLeft(batch: Id, qty: int): Batch -> Batch {
    (b: Batch) => if b.id == batch then b.(left := b.left + qty) else b
  }

  /** One more row put back. */
  lemma {:induction false} RestoreStep(bs: seq<Batch>, rows: seq<Row>, doc: Id, r: Row)
    ensures Map(bs, I.Restored(rows + [r], doc))
            == if r.doc == doc then Map(Map(bs, I.Restored(rows, doc)), AddLeft(r.batch, r.qty))
               else Map(bs, I.Restored(rows, doc))
  {
    forall b | b in bs
      ensures UsedBy(rows + [r], doc, b.id)
              == UsedBy(rows, doc, b.id) + if r.doc == doc && r.batch == b.id then r.qty else 0
    {
      SumSnoc(rows, r, UsedByOf(doc, b.id));
    }
  }

  lemma {:induction false} RestoreNothing(bs: seq<Batch>, doc: Id)
    ensures Map(bs, I.Restored([], doc)) == bs
  {
  }

  /** The answer of a request: the document as it stands afterwards, or the error. */
  ghost predicate Answers(r: Result<Doc>, spec: Result<Db>, id: Id) {
    match spec
    case Ok(db) => id in db.docs && r == Ok(db.docs[id])
    case Err(e) => r == Err(e)
  }

  /** A transaction commits its result or leaves everything as it was. */
  function Committed(before: Db, spec: Result<Db>): Db {
    if spec.Ok? then spec.value else before
  }

  /** The rows written between two states cost `cost`. */
  ghost predicate Costs(before: Db, after: Db, cost: int) {
    before.rows <= after.rows && cost == Cost(I.Added(before, after))
  }

  // ---- bulk runs

  /** Unposting leaves the kinds of the documents alone. */
  lemma {:induction false} UnpostAllKinds(db: Db, ids: seq<Id>)
    requires P.UnpostAll(db, ids).Ok?
    ensures H.SameKinds(db.docs, P.UnpostAll(db, ids).value.docs)
    decreases |ids|
  {
    if ids != [] {
      UnpostAllKinds(db, ids[..|ids| - 1]);
      UnpostDocKinds(P.UnpostAll(db, ids[..|ids| - 1]).value, ids[|ids| - 1]);
    }
  }

  lemma {:induction false} UnpostDocKinds(db: Db, id: Id)
    requires D.UnpostDoc(db, id).Ok?
    ensures H.SameKinds(db.docs, D.UnpostDoc(db, id).value.docs)
  {
  }

  lemma {:induction false} PostAllKinds(db: Db, ids: seq<Id>)
    requires P.PostAll(db, ids).Ok?
    ensures H.SameKinds(db.docs, P.PostAll(db, ids).value.docs)
    decreases |ids|
  {
    if ids != [] {
      PostAllKinds(db, ids[..|ids| - 1]);
      PostDocKinds(P.PostAll(db, ids[..|ids| - 1]).value, ids[|ids| - 1]);
    }
  }

  lemma {:induction false} PostDocKinds(db: Db, id: Id)
    requires D.PostDoc(db, id).Ok?
    ensures H.SameKinds(db.docs, D.PostDoc(db, id).value.docs)
  {
  }

  lemma {:induction false} UnpostNext(db: Db, ids: seq<Id>, i: nat, mid: Db)
    requires i < |ids| && P.UnpostAll(db, ids[..i]) == Ok(mid)
    ensures P.UnpostAll(db, ids[..i + 1]) == D.UnpostDoc(mid, ids[i])
  {
    assert ids[..i + 1][..i] == ids[..i];
  }

  lemma {:induction false} PostNext(db: Db, ids: seq<Id>, i: nat, mid: Db)
    requires i < |ids| && P.PostAll(db, ids[..i]) == Ok(mid)
    ensures P.PostAll(db, ids[..i + 1]) == D.PostDoc(mid, ids[i])
  {
    assert ids[..i + 1][..i] == ids[..i];
  }

  lemma {:induction false} UnpostFails(db: Db, ids: seq<Id>, n: nat, e: Error)
    requires n <= |ids| && P.UnpostAll(db, ids[..n]) == Err(e)
    ensures P.UnpostAll(db, ids) == Err(e)
    decreases |ids|
  {
    if n == |ids| {
      assert ids[..n] == ids;
    } else {
      assert ids[..|ids| - 1][..n] == ids[..n];
      UnpostFails(db, ids[..|ids| - 1], n, e);
    }
  }

  lemma {:induction false} PostFails(db: Db, ids: seq<Id>, n: nat, e: Error)
    requires n <= |ids| && P.PostAll(db, ids[..n]) == Err(e)
    ensures P.PostAll(db, ids) == Err(e)
    decreases |ids|
  {
    if n == |ids| {
      assert ids[..n] == ids;
    } else {
      assert ids[..|ids| - 1][..n] == ids[..n];
      PostFails(db, ids[..|ids| - 1], n, e);
    }
  }

  // ---- the maps of a receipt edit

  /** What the existing batches of one product sum to. */
  datatype Held = Held(total: int, left: int)

  /** What the request wants of one product: quantities summed, price of the first item. */
  datatype Wanted = Wanted(quantity: nat, price: int)

  ghost predicate HoldsBatches(held: map<Id, Held>, products: seq<Id>, bs: seq<Batch>, id: Id) {
    && products == D.BatchProducts(bs, id)
    && (forall p :: p in held <==> p in products)
    && (forall p :: p in held ==> held[p].total - held[p].left == D.Sold(bs, id, p))
  }

  function WithBatch(held: map<Id, Held>, b: Batch): map<Id, Held> {
    if b.product in held then
      held[b.product := Held(held[b.product].total + b.total, held[b.product].left + b.left)]
    else held[b.product := Held(b.total, b.left)]
  }

  lemma {:induction false} NotHeldNotSold(bs: seq<Batch>, id: Id, p: Id)
    requires p !in D.BatchProducts(bs, id)
    ensures D.Sold(bs, id, p) == 0
  {
    SumZero(bs, D.SoldOf(id, p));
  }

  lemma {:induction false} HoldsMore(held: map<Id, Held>, products: seq<Id>, bs: seq<Batch>, id: Id, b: Batch)
    requires HoldsBatches(held, products, bs, id)
    ensures b.source != FromReceipt(id) ==> HoldsBatches(held, products, bs + [b], id)
    ensures b.source == FromReceipt(id) ==>
              HoldsBatches(WithBatch(held, b), if b.product in held then products else products + [b.product],
                           bs + [b], id)
  {
    assert (bs + [b])[..|bs|] == bs;
    forall p
      ensures D.Sold(bs + [b], id, p)
              == D.Sold(bs, id, p) + if D.InGroup(b, id, p) then b.total - b.left else 0
    {
      SumSnoc(bs, b, D.SoldOf(id, p));
    }
    if b.product !in held {
      NotHeldNotSold(bs, id, b.product);
    }
  }

  ghost predicate WantsItems(wanted: map<Id, Wanted>, order: seq<Id>, items: seq<Item>) {
    && order == D.ItemProducts(items)
    && (forall p :: p in wanted <==> p in order)
    && (forall p :: p in wanted ==> wanted[p] == Wanted(Demand(items, p), D.FirstPrice(items, p)))
  }

  function WithItem(wanted: map<Id, Wanted>, i: Item): map<Id, Wanted> {
    if i.product in wanted then
      wanted[i.product := wanted[i.product].(quantity := wanted[i.product].quantity + i.quantity)]
    else wanted[i.product := Wanted(i.quantity, i.price)]
  }

  lemma {:induction false} FirstPriceSnoc(items: seq<Item>, i: Item, p: Id)
    ensures D.FirstPrice(items + [i], p)
            == if exists x :: x in items && x.product == p then D.FirstPrice(items, p)
               else if i.product == p then i.price else 0
    decreases |items|
  {
    if items == [] {
      assert items + [i] == [i];
      assert [i][1..] == [];
    } else {
      assert (items + [i])[1..] == items[1..] + [i];
      assert forall x :: x in items <==> x == items[0] || x in items[1..];
      if items[0].product != p {
        FirstPriceSnoc(items[1..], i, p);
      }
    }
  }

  lemma {:induction false} NotWantedNoDemand(items: seq<Item>, p: Id)
    requires p !in D.ItemProducts(items)
    ensures Demand(items, p) == 0
  {
    SumZero(items, DemandOf(p));
  }

  function OrderWith(wanted: map<Id, Wanted>, order: seq<Id>, i: Item): seq<Id> {
    if i.product in wanted then order else order + [i.product]
  }

  lemma {:induction false} WantsMore(wanted: map<Id, Wanted>, order: seq<Id>, items: seq<Item>, n: nat)
    requires n < |items| && WantsItems(wanted, order, items[..n])
    ensures WantsItems(WithItem(wanted, items[n]), OrderWith(wanted, order, items[n]), items[..n + 1])
  {
    assert items[..n + 1] == items[..n] + [items[n]];
    WantsOneMore(wanted, order, items[..n], items[n]);
  }

  lemma {:induction false} WantsOneMore(wanted: map<Id, Wanted>, order: seq<Id>, items: seq<Item>, i: Item)
    requires WantsItems(wanted, order, items)
    ensures WantsItems(WithItem(wanted, i), OrderWith(wanted, order, i), items + [i])
  {
    assert (items + [i])[..|items|] == items;
    forall p
      ensures Demand(items + [i], p) == Demand(items, p) + if i.product == p then i.quantity else 0
      ensures D.FirstPrice(items + [i], p)
              == if p in order then D.FirstPrice(items, p) else if i.product == p then i.price else 0
    {
      SumSnoc(items, i, DemandOf(p));
      FirstPriceSnoc(items, i, p);
    }
    if i.product !in wanted {
      NotWantedNoDemand(items, i.product);
    }
  }

  /** What the request wants of a product, whether or not it mentions it. */
  lemma {:induction false} WantedOf(wanted: map<Id, Wanted>, order: seq<Id>, items: seq<Item>, p: Id)
    requires WantsItems(wanted, order, items)
    ensures Demand(items, p) == if p in wanted then wanted[p].quantity else 0
  {
    if p !in wanted {
      NotWantedNoDemand(items, p);
    }
  }

  /** The header written after the deductions completes what posting a sale does. */
  lemma {:induction false} SaleStored(db: Db, id: Id, deducted: Db, doc: Doc, cost: int, after: Db)
    requires C.Ledger(db) && id in db.docs && doc == db.docs[id] && doc.kind.Sale? && !doc.posted
    requires I.DeductItems(db, id, doc.warehouse, doc.items) == Ok(deducted)
    requires Costs(db, deducted, cost)
    requires after == deducted.(docs := db.docs[id := doc.(posted := true, profit := doc.amount - cost)])
    ensures D.PostSale(db, id) == Ok(after) && C.Ledger(after)
  {
    SaleIs(db, id, deducted, doc, cost, after);
    R.PostSaleKeeps(db, id);
  }

  lemma {:induction false} SaleRefused(db: Db, id: Id, doc: Doc, e: Error)
    requires id in db.docs && doc == db.docs[id] && doc.kind.Sale? && !doc.posted
    requires I.DeductItems(db, id, doc.warehouse, doc.items) == Err(e)
    ensures D.PostSale(db, id) == Err(e)
  {
  }

  lemma {:induction false} SaleIs(db: Db, id: Id, deducted: Db, doc: Doc, cost: int, after: Db)
    requires id in db.docs && doc == db.docs[id] && doc.kind.Sale? && !doc.posted
    requires I.DeductItems(db, id, doc.warehouse, doc.items) == Ok(deducted)
    requires Costs(db, deducted, cost)
    requires after == deducted.(docs := db.docs[id := doc.(posted := true, profit := doc.amount - cost)])
    ensures D.PostSale(db, id) == Ok(after)
  {
    N.PostSaleIs(db, id, deducted);
    SalePostedIs(db, id, deducted, doc, cost, after);
  }

  lemma {:induction false} SalePostedIs(db: Db, id: Id, deducted: Db, doc: Doc, cost: int, after: Db)
    requires id in db.docs && doc == db.docs[id] && Costs(db, deducted, cost)
    requires after == deducted.(docs := db.docs[id := doc.(posted := true, profit := doc.amount - cost)])
    ensures D.SalePosted(db, deducted, id) == after
  {
  }

  /** Where the loop over the products of a receipt stands after `k` of them. */
  ghost predicate EditedUpTo(before: Db, id: Id, products: seq<Id>, items: seq<Item>, held: map<Id, Held>, k: nat,
                             now: Db) {
    && k <= |products|
    && D.EditProducts(before, id, products[..k], items) == Ok(now)
    && Sound(now) && forall j :: k <= j < |products| ==>
         products[j] in held && held[products[j]].total - held[products[j]].left == D.Sold(now.batches, id, products[j])
  }

  ghost predicate Sound(db: Db) {
    C.Sound(db.batches, db.rows, db.nextId) && C.Conserved(db.batches, db.rows)
  }

  lemma {:induction false} EditStarts(before: Db, id: Id, products: seq<Id>, items: seq<Item>, held: map<Id, Held>)
    requires Sound(before) && HoldsBatches(held, products, before.batches, id)
    ensures EditedUpTo(before, id, products, items, held, 0, before)
  {
    assert products[..0] == [];
    forall j | 0 <= j < |products|
      ensures products[j] in held
    {
      assert products[j] in products;
    }
  }

  lemma {:induction false} EditTurns(before: Db, id: Id, products: seq<Id>, items: seq<Item>, held: map<Id, Held>,
                                     k: nat, now: Db)
    requires EditedUpTo(before, id, products, items, held, k, now) && k < |products|
    requires forall i, j :: 0 <= i < j < |products| ==> products[i] != products[j]
    ensures D.EditProducts(before, id, products[..k + 1], items) == D.EditProduct(now, id, products[k], items)
    ensures D.EditProduct(now, id, products[k], items).Ok? ==>
              EditedUpTo(before, id, products, items, held, k + 1, D.EditProduct(now, id, products[k], items).value)
  {
    assert products[..k + 1][..k] == products[..k];
    var r := D.EditProduct(now, id, products[k], items);
    if r.Ok? {
      R.EditProductKeeps(now, id, products[k], items);
      forall j | k + 1 <= j < |products|
        ensures D.Sold(r.value.batches, id, products[j]) == D.Sold(now.batches, id, products[j])
      {
        E.SoldElsewhere(now, id, products[k], items, products[j]);
      }
    }
  }

  lemma {:induction false} EditFails(before: Db, id: Id, products: seq<Id>, items: seq<Item>, k: nat, e: Error)
    requires k <= |products| && D.EditProducts(before, id, products[..k], items) == Err(e)
    ensures D.EditProducts(before, id, products, items) == Err(e)
    decreases |products| - k
  {
    if k == |products| {
      assert products[..k] == products;
    } else {
      assert products[..k + 1][..k] == products[..k];
      EditFails(before, id, products, items, k + 1, e);
    }
  }

  // ---- steps of the loops

  lemma {:induction false} CostsAdd(a: Db, b: Db, c: Db, first: int, second: int)
    requires Costs(a, b, first) && Costs(b, c, second)
    ensures Costs(a, c, first + second)
  {
    assert I.Added(a, c) == I.Added(a, b) + I.Added(b, c);
    SumConcat(I.Added(a, b), I.Added(b, c), RowCost());
  }

  /** Deducting from the batches and writing down the rows is the deduction of one item. */
  lemma {:induction false} ItemDeducted(mid: Db, doc: Id, n: nat, item: Item, warehouse: Option<Id>, now: Db,
                                        ds: seq<Deduction>)
    requires var caps := Caps(mid.docs, mid.batches, item.product, warehouse);
             && item.quantity <= Total(caps)
             && ds == DeductionsFor(mid.batches, Takes(caps, item.quantity))
             && now == mid.(batches := I.ApplyTakes(mid.batches, Takes(caps, item.quantity)),
                            rows := mid.rows + Map(ds, ToRow(doc, n)))
    ensures I.Deduct(mid, doc, n, item.product, warehouse, item.quantity) == Ok(now)
    ensures Costs(mid, now, Cost(Map(ds, ToRow(doc, n))))
  {
    assert I.Added(mid, now) == Map(ds, ToRow(doc, n));
    DeductionRows(mid.batches, Takes(Caps(mid.docs, mid.batches, item.product, warehouse), item.quantity), doc, n);
  }

  lemma {:induction false} NextItem(before: Db, mid: Db, doc: Id, warehouse: Option<Id>, items: seq<Item>, n: nat)
    requires n < |items| && I.DeductItems(before, doc, warehouse, items[..n]) == Ok(mid)
    ensures I.DeductItems(before, doc, warehouse, items[..n + 1])
            == I.Deduct(mid, doc, n, items[n].product, warehouse, items[n].quantity)
  {
    assert items[..n + 1][..n] == items[..n];
  }

  lemma {:induction false} NoMoreItems(before: Db, doc: Id, warehouse: Option<Id>, items: seq<Item>, n: nat, e: Error)
    requires n <= |items| && I.DeductItems(before, doc, warehouse, items[..n]) == Err(e)
    ensures I.DeductItems(before, doc, warehouse, items) == Err(e)
    decreases |items|
  {
    if n == |items| {
      assert items[..n] == items;
    } else {
      assert items[..|items| - 1][..n] == items[..n];
      NoMoreItems(before, doc, warehouse, items[..|items| - 1], n, e);
    }
  }

  class Store {
    var docs: map<Id, Doc>
    var batches: seq<Batch>
    var rows: seq<Row>
    var nextId: Id

    function State(): Db
      reads this
    {
      Db(docs, batches, rows, nextId)
    }

    ghost predicate Valid()
      reads this
    {
      C.Ledger(State())
    }

    constructor ()
      ensures Valid() && State() == D.EmptyDb
    {
      docs, batches, rows, nextId := map[], [], [], 0;
      new;
      R.LedgerOverRuns([]);
    }

    method Rollback(db: Db)
      modifies this
      ensures State() == db
    {
      docs, batches, rows, nextId := db.docs, db.batches, db.rows, db.nextId;
    }

    // ---- inventoryService

    method AddStock(product: Id, quantity: nat, price: int, source: Source, createdAt: int)
      modifies this`batches, this`nextId
      ensures State() == I.AddStock(old(State()), product, quantity, price, source, createdAt)
    {
      batches := I.InsertBatch(batches, Batch(nextId, product, quantity, quantity, price, source, createdAt));
      nextId := nextId + 1;
    }

    /** The FIFO loop. When stock runs out it has already changed batches: undoing that is
        the caller's rollback. */
    method DeductStock(product: Id, needed: nat, warehouse: Option<Id>) returns (r: Result<seq<Deduction>>)
      modifies this`batches
      ensures Deducted(docs, old(batches), product, warehouse, needed, r, batches)
    {
      var remaining := needed;
      var deductions := [];
      ghost var bs := batches;
      ghost var caps := Caps(docs, bs, product, warehouse);
      WalkStarts(bs, caps, needed, I.DrawBatch(), DeductionOf());
      var i := 0;
      while i < |batches| && remaining > 0
        invariant |batches| == |bs|
        invariant Walking(bs, caps, needed, I.DrawBatch(), DeductionOf(), i, batches, remaining, deductions)
        decreases |bs| - i
      {
        ghost var was, open, taken := batches, remaining, deductions;
        var b := batches[i];
        if Eligible(docs, b, product, warehouse) {
          var take := Min(remaining, b.left);
          batches := batches[i := b.(left := b.left - take)];
          deductions := deductions + [Deduction(b.id, take, b.price)];
          remaining := remaining - take;
        }
        i := i + 1;
        WalkTurns(bs, caps, needed, I.DrawBatch(), DeductionOf(), i - 1, was, open, taken, i, batches, remaining,
                  deductions);
      }
      LoopEnds(docs, bs, product, warehouse, needed, i, batches, remaining, deductions);
      r := if remaining > 0 then Err(InsufficientStock(product, needed, remaining)) else Ok(deductions);
    }

    /** Puts back every row a document took, one batch at a time, and drops the rows. */
    method ReturnStock(doc: Id)
      modifies this`batches, this`rows
      ensures State() == I.Return(old(State()), doc)
    {
      ghost var bs := batches;
      RestoreNothing(bs, doc);
      assert rows[..0] == [];
      for k := 0 to |rows|
        invariant rows == old(rows)
        invariant batches == Map(bs, I.Restored(rows[..k], doc))
      {
        RestoreStep(bs, rows[..k], doc, rows[k]);
        assert rows[..k + 1] == rows[..k] + [rows[k]];
        if rows[k].doc == doc {
          batches := Map(batches, AddLeft(rows[k].batch, rows[k].qty));
        }
      }
      assert rows[..|rows|] == rows;
      rows := Filter(rows, I.NotOf(doc));
    }

    /** Writes one allocation row for each deduction and adds up their cost. */
    method RecordDeductions(doc: Id, item: nat, ds: seq<Deduction>) returns (cost: int)
      modifies this`rows
      ensures rows == old(rows) + Map(ds, ToRow(doc, item))
      ensures cost == Cost(Map(ds, ToRow(doc, item)))
    {
      cost := 0;
      for k := 0 to |ds|
        invariant rows == old(rows) + Map(ds[..k], ToRow(doc, item))
        invariant cost == Cost(Map(ds[..k], ToRow(doc, item)))
      {
        var row := Row(doc, item, ds[k].batch, ds[k].quantity, ds[k].price);
        assert Map(ds[..k + 1], ToRow(doc, item)) == Map(ds[..k], ToRow(doc, item)) + [row];
        SumSnoc(Map(ds[..k], ToRow(doc, item)), row, RowCost());
        rows := rows + [row];
        cost := cost + ds[k].quantity * ds[k].price;
      }
      assert ds[..|ds|] == ds;
    }

    /** Deducts one item and writes its allocation rows. */
    method DeductItem(doc: Id, n: nat, item: Item, warehouse: Option<Id>) returns (r: Result<int>)
      modifies this`batches, this`rows
      ensures var spec := I.Deduct(old(State()), doc, n, item.product, warehouse, item.quantity);
              && (r.Ok? ==> spec == Ok(State()) && Costs(old(State()), State(), r.value))
              && (r.Err? ==> spec == Err(r.error))
    {
      ghost var before := State();
      var deductions := DeductStock(item.product, item.quantity, warehouse);
      if deductions.Err? {
        return Err(deductions.error);
      }
      var cost := RecordDeductions(doc, n, deductions.value);
      ItemDeducted(before, doc, n, item, warehouse, State(), deductions.value);
      return Ok(cost);
    }

    /** The nested loops of posting: deducts each item and writes its allocation rows,
        adding up their cost. */
    method DeductItems(doc: Id, warehouse: Option<Id>, items: seq<Item>) returns (r: Result<int>)
      modifies this`batches, this`rows
      ensures var spec := I.DeductItems(old(State()), doc, warehouse, items);
              && (r.Ok? ==> spec == Ok(State()) && Costs(old(State()), State(), r.value))
              && (r.Err? ==> spec == Err(r.error))
    {
      var cost := 0;
      ghost var before := State();
      for n := 0 to |items|
        invariant I.DeductItems(before, doc, warehouse, items[..n]) == Ok(State())
        invariant Costs(before, State(), cost)
      {
        ghost var mid := State();
        NextItem(before, mid, doc, warehouse, items, n);
        var more := DeductItem(doc, n, items[n], warehouse);
        if more.Err? {
          NoMoreItems(before, doc, warehouse, items, n + 1, more.error);
          return more;
        }
        CostsAdd(before, mid, State(), cost, more.value);
        cost := cost + more.value;
      }
      assert items[..|items|] == items;
      return Ok(cost);
    }

    // ---- goodsReceiptService

    method AddReceiptItems(id: Id, items: seq<Item>, date: int)
      modifies this`batches, this`nextId
      ensures State() == D.AddReceiptItems(old(State()), id, items, date)
    {
      for n := 0 to |items|
        invariant State() == D.AddReceiptItems(old(State()), id, items[..n], date)
      {
        AddStock(items[n].product, items[n].quantity, items[n].price, FromReceipt(id), date);
        assert items[..n + 1][..n] == items[..n];
      }
      assert items[..|items|] == items;
    }

    method PostReceipt(id: Id) returns (r: Result<Doc>)
      requires Valid()
      modifies this
      ensures Valid()
      ensures State() == Committed(old(State()), D.PostReceipt(old(State()), id))
      ensures Answers(r, D.PostReceipt(old(State()), id), id)
    {
      ghost var db := State();
      if id !in docs || docs[id].kind != GoodsReceipt { return Err(NotFound); }
      var doc := docs[id];
      if doc.posted { return Err(AlreadyPosted); }
      R.PostReceiptKeeps(db, id);
      AddReceiptItems(id, doc.items, doc.date);
      docs := docs[id := doc.(posted := true)];
      return Ok(docs[id]);
    }

    method UnpostReceipt(id: Id) returns (r: Result<Doc>)
      requires Valid()
      modifies this
      ensures Valid()
      ensures State() == Committed(old(State()), D.UnpostReceipt(old(State()), id))
      ensures Answers(r, D.UnpostReceipt(old(State()), id), id)
    {
      ghost var db := State();
      if id !in docs || docs[id].kind != GoodsReceipt { return Err(NotFound); }
      var doc := docs[id];
      if !doc.posted { return Err(NotPosted); }
      if D.PartlySold(batches, id) { return Err(AlreadySold); }
      R.UnpostReceiptKeeps(db, id);
      var cleared := I.DeleteBatches(State(), D.OfReceipt(batches, id));
      batches, rows := cleared.batches, cleared.rows;
      docs := docs[id := doc.(posted := false)];
      return Ok(docs[id]);
    }

    /** Sums up what the receipt's batches hold, product by product. */
    method SumHeld(id: Id) returns (held: map<Id, Held>, products: seq<Id>)
      ensures HoldsBatches(held, products, batches, id)
    {
      held, products := map[], [];
      for i := 0 to |batches|
        invariant HoldsBatches(held, products, batches[..i], id)
      {
        var b := batches[i];
        HoldsMore(held, products, batches[..i], id, b);
        assert batches[..i + 1] == batches[..i] + [b];
        if b.source == FromReceipt(id) {
          products := if b.product in held then products else products + [b.product];
          held := WithBatch(held, b);
        }
      }
      assert batches[..|batches|] == batches;
    }

    /** Sums up what the new items want, product by product. */
    method SumWanted(items: seq<Item>) returns (wanted: map<Id, Wanted>, order: seq<Id>)
      ensures WantsItems(wanted, order, items)
    {
      wanted, order := map[], [];
      for i := 0 to |items|
        invariant WantsItems(wanted, order, items[..i])
      {
        WantsMore(wanted, order, items, i);
        wanted, order := WithItem(wanted, items[i]), OrderWith(wanted, order, items[i]);
      }
      assert items[..|items|] == items;
    }

    /** Brings the batches of a posted receipt in line with its new items: sums up what
        it holds and what is wanted product by product, resizes, empties or deletes the
        batches it has, and adds batches for the products that are new. */
    method EditStock(id: Id, items: seq<Item>, date: int) returns (r: Result<bool>)
      requires Sound(State())
      modifies this`batches, this`rows, this`nextId
      ensures var spec := D.EditStock(old(State()), id, items, date);
              && (r.Ok? <==> spec.Ok?)
              && (r.Err? ==> r.error == spec.error)
              && (r.Ok? ==> State() == spec.value)
    {
      var held, products := SumHeld(id);
      var wanted, order := SumWanted(items);
      r := ResizeProducts(id, items, held, products, wanted, order);
      if r.Ok? {
        AddProducts(id, items, date, held, products, wanted, order);
      }
    }

    method ResizeProducts(id: Id, items: seq<Item>, held: map<Id, Held>, products: seq<Id>,
                          wanted: map<Id, Wanted>, order: seq<Id>) returns (r: Result<bool>)
      requires Sound(State())
      requires HoldsBatches(held, products, batches, id) && WantsItems(wanted, order, items)
      modifies this`batches, this`rows
      ensures var spec := D.EditProducts(old(State()), id, products, items);
              && (r.Ok? <==> spec.Ok?)
              && (r.Err? ==> r.error == spec.error)
              && (r.Ok? ==> State() == spec.value)
    {
      ghost var before := State();
      EditStarts(before, id, products, items, held);
      H.BatchProductsOnce(batches, id);
      for k := 0 to |products|
        invariant EditedUpTo(before, id, products, items, held, k, State())
      {
        EditTurns(before, id, products, items, held, k, State());
        var p := products[k];
        WantedOf(wanted, order, items, p);
        var sold := held[p].total - held[p].left;
        var total := if p in wanted then wanted[p].quantity else 0;
        var resized := ResizeProduct(id, p, items, sold, total, if p in wanted then wanted[p].price else 0);
        if resized.Err? {
          EditFails(before, id, products, items, k + 1, resized.error);
          return resized;
        }
      }
      assert products[..|products|] == products;
      return Ok(true);
    }

    /** One product of the receipt: deleted when unsold and no longer wanted, else resized. */
    method ResizeProduct(id: Id, p: Id, ghost items: seq<Item>, sold: int, total: nat, price: int)
        returns (r: Result<bool>)
      requires sold == D.Sold(batches, id, p) && total == Demand(items, p)
      requires total > 0 ==> price == D.FirstPrice(items, p)
      modifies this`batches, this`rows
      ensures var spec := D.EditProduct(old(State()), id, p, items);
              && (r.Ok? <==> spec.Ok?)
              && (r.Err? ==> r.error == spec.error)
              && (r.Ok? ==> State() == spec.value)
    {
      if total < sold {
        return Err(BelowSold(p, sold));
      }
      if total == 0 && sold == 0 {
        var cleared := I.DeleteBatches(State(), D.OfGroup(batches, id, p));
        batches, rows := cleared.batches, cleared.rows;
      } else if total > 0 {
        batches := D.Resize(batches, id, p, total, total - sold, price);
      }
      return Ok(true);
    }

    method AddProducts(id: Id, items: seq<Item>, date: int, held: map<Id, Held>, products: seq<Id>,
                       wanted: map<Id, Wanted>, order: seq<Id>)
      requires (forall p :: p in held <==> p in products) && WantsItems(wanted, order, items)
      modifies this`batches, this`nextId
      ensures State() == D.AddNewProducts(old(State()), id, order, products, items, date)
    {
      for k := 0 to |order|
        invariant State() == D.AddNewProducts(old(State()), id, order[..k], products, items, date)
      {
        assert order[..k + 1][..k] == order[..k];
        assert order[k] in order;
        if order[k] !in held {
          AddStock(order[k], wanted[order[k]].quantity, wanted[order[k]].price, FromReceipt(id), date);
        }
      }
      assert order[..|order|] == order;
    }

    method UpdateReceipt(id: Id, patch: D.Patch) returns (r: Result<Doc>)
      requires Valid()
      modifies this
      ensures Valid()
      ensures State() == Committed(old(State()), D.UpdateReceipt(old(State()), id, patch))
      ensures Answers(r, D.UpdateReceipt(old(State()), id, patch), id)
    {
      var db := State();
      if id !in docs || docs[id].kind != GoodsReceipt { return Err(NotFound); }
      if patch.date.None? { return Err(Invalid); }
      var doc := docs[id];
      var items := D.Or(patch.items, []);
      docs := docs[id := doc.(date := patch.date.value, warehouse := patch.warehouse, items := items,
                              amount := ItemsTotal(items))];
      if D.UpdateReceipt(db, id, patch).Ok? {
        R.UpdateReceiptKeeps(db, id, patch);
      }
      if doc.posted {
        var edited := EditStock(id, items, patch.date.value);
        if edited.Err? {
          Rollback(db);
          return Err(edited.error);
        }
      }
      return Ok(docs[id]);
    }

    // ---- realizationService

    method PostSale(id: Id) returns (r: Result<Doc>)
      requires Valid()
      modifies this
      ensures Valid()
      ensures State() == Committed(old(State()), D.PostSale(old(State()), id))
      ensures Answers(r, D.PostSale(old(State()), id), id)
    {
      if id !in docs || docs[id].kind != Sale { return Err(NotFound); }
      var doc := docs[id];
      if doc.posted { return Err(AlreadyPosted); }
      var db := State();
      var cost := DeductItems(id, doc.warehouse, doc.items);
      if cost.Err? {
        SaleRefused(db, id, doc, cost.error);
        Rollback(db);
        return Err(cost.error);
      }
      r := WriteSale(id, doc, cost.value, db);
    }

    /** Writes the header of a sale whose items have been deducted from `db`. */
    method WriteSale(id: Id, doc: Doc, cost: int, ghost db: Db) returns (r: Result<Doc>)
      requires C.Ledger(db) && id in db.docs && db.docs[id] == doc && doc.kind == Sale && !doc.posted
      requires I.DeductItems(db, id, doc.warehouse, doc.items) == Ok(State()) && Costs(db, State(), cost)
      modifies this`docs
      ensures Valid()
      ensures D.PostSale(db, id) == Ok(State())
      ensures id in docs && r == Ok(docs[id])
    {
      ghost var deducted := State();
      docs := docs[id := doc.(posted := true, profit := doc.amount - cost)];
      SaleStored(db, id, deducted, doc, cost, State());
      return Ok(docs[id]);
    }

    method UnpostSale(id: Id) returns (r: Result<Doc>)
      requires Valid()
      modifies this
      ensures Valid()
      ensures State() == Committed(old(State()), D.UnpostSale(old(State()), id))
      ensures Answers(r, D.UnpostSale(old(State()), id), id)
    {
      ghost var db := State();
      if id !in docs || docs[id].kind != Sale { return Err(NotFound); }
      var doc := docs[id];
      if !doc.posted { return Err(NotPosted); }
      R.UnpostSaleKeeps(db, id);
      ReturnStock(id);
      docs := docs[id := doc.(posted := false, profit := 0)];
      return Ok(docs[id]);
    }

    // ---- supplierReturnService

    method PostSupplierReturn(id: Id) returns (r: Result<Doc>)
      requires Valid()
      modifies this
      ensures Valid()
      ensures State() == Committed(old(State()), D.PostSupplierReturn(old(State()), id))
      ensures Answers(r, D.PostSupplierReturn(old(State()), id), id)
    {
      var db := State();
      if id !in docs || docs[id].kind != SupplierReturn { return Err(NotFound); }
      var doc := docs[id];
      if doc.posted { return Err(AlreadyPosted); }
      var cost := DeductItems(id, doc.warehouse, doc.items);
      if cost.Err? {
        Rollback(db);
        return Err(cost.error);
      }
      R.PostSupplierReturnKeeps(db, id);
      docs := docs[id := doc.(posted := true)];
      return Ok(docs[id]);
    }

    method UnpostSupplierReturn(id: Id) returns (r: Result<Doc>)
      requires Valid()
      modifies this
      ensures Valid()
      ensures State() == Committed(old(State()), D.UnpostSupplierReturn(old(State()), id))
      ensures Answers(r, D.UnpostSupplierReturn(old(State()), id), id)
    {
      ghost var db := State();
      if id !in docs || docs[id].kind != SupplierReturn { return Err(NotFound); }
      var doc := docs[id];
      if !doc.posted { return Err(NotPosted); }
      R.UnpostSupplierReturnKeeps(db, id);
      ReturnStock(id);
      docs := docs[id := doc.(posted := false)];
      return Ok(docs[id]);
    }

    // ---- buyerReturnService

    method RestockItems(id: Id, items: seq<Item>, date: int) returns (profit: int)
      modifies this`batches, this`nextId
      ensures D.RestockItems(old(State()), id, items, date) == D.Restock(State(), profit)
    {
      profit := 0;
      for n := 0 to |items|
        invariant D.RestockItems(old(State()), id, items[..n], date) == D.Restock(State(), profit)
      {
        var item := items[n];
        var cost := D.LastCost(batches, item.product);
        assert items[..n + 1][..n] == items[..n];
        AddStock(item.product, item.quantity, cost, FromReturn(id, n), date);
        profit := profit - (item.price - cost) * item.quantity;
      }
      assert items[..|items|] == items;
    }

    method PostReturn(id: Id) returns (r: Result<Doc>)
      requires Valid()
      modifies this
      ensures Valid()
      ensures State() == Committed(old(State()), D.PostReturn(old(State()), id))
      ensures Answers(r, D.PostReturn(old(State()), id), id)
    {
      ghost var db := State();
      if id !in docs || docs[id].kind != BuyerReturn { return Err(NotFound); }
      var doc := docs[id];
      if doc.posted { return Err(AlreadyPosted); }
      R.PostReturnKeeps(db, id);
      var profit := RestockItems(id, doc.items, doc.date);
      docs := docs[id := doc.(posted := true, profit := profit)];
      return Ok(docs[id]);
    }

    method UnpostReturn(id: Id) returns (r: Result<Doc>)
      requires Valid()
      modifies this
      ensures Valid()
      ensures State() == Committed(old(State()), D.UnpostReturn(old(State()), id))
      ensures Answers(r, D.UnpostReturn(old(State()), id), id)
    {
      ghost var db := State();
      if id !in docs || docs[id].kind != BuyerReturn { return Err(NotFound); }
      var doc := docs[id];
      if !doc.posted { return Err(NotPosted); }
      R.UnpostReturnKeeps(db, id);
      var cleared := I.DeleteBatches(State(), D.OfReturn(batches, id));
      batches, rows := cleared.batches, cleared.rows;
      docs := docs[id := doc.(posted := false, profit := 0)];
      return Ok(docs[id]);
    }

    // ---- creating, editing and deleting documents

    /** The rows written for the items of a request, and the sum of their totals. */
    method InsertItems(kind: Kind, items: seq<Item>) returns (priced: seq<Item>, total: int)
      ensures priced == D.Priced(kind, items) && total == ItemsTotal(priced)
    {
      priced, total := [], 0;
      for k := 0 to |items|
        invariant priced == D.Priced(kind, items[..k]) && total == ItemsTotal(priced)
      {
        var row := D.PricedItem(kind)(items[k]);
        assert items[..k + 1] == items[..k] + [items[k]];
        assert D.Priced(kind, items[..k + 1]) == priced + [row];
        SumSnoc(priced, row, ItemTotal());
        priced, total := priced + [row], total + row.total;
      }
      assert items[..|items|] == items;
    }

    method CreateDocument(kind: Kind, date: int, created: int, warehouse: Option<Id>, amount: int, items: seq<Item>)
        returns (id: Id)
      requires Valid()
      modifies this
      ensures Valid()
      ensures id == old(nextId) && State() == D.Create(old(State()), kind, date, created, warehouse, amount, items)
    {
      ghost var step := D.New(kind, date, created, warehouse, amount, items);
      R.PaperworkKeeps(State(), step);
      id := nextId;
      var priced, total := InsertItems(kind, items);
      docs := docs[id := Doc(kind, date, created, warehouse, priced, if kind.Sale? then amount else total,
                             0, false, false)];
      nextId := nextId + 1;
    }

    /** Sales keep what the request leaves out; a posted sale is frozen. */
    method EditSale(id: Id, patch: D.Patch) returns (r: Result<Doc>)
      requires Valid()
      modifies this
      ensures Valid()
      ensures State() == Committed(old(State()), D.EditSale(old(State()), id, patch))
      ensures Answers(r, D.EditSale(old(State()), id, patch), id)
    {
      if id !in docs || docs[id].kind != Sale { return Err(NotFound); }
      var doc := docs[id];
      if doc.posted { return Err(Locked); }
      R.PaperworkKeeps(State(), D.Edit(id, patch));
      doc := doc.(date := D.Or(patch.date, doc.date),
                  warehouse := if patch.warehouse.Some? then patch.warehouse else doc.warehouse,
                  amount := D.Or(patch.amount, doc.amount));
      if patch.items.Some? {
        doc := doc.(items := patch.items.value);
      }
      docs := docs[id := doc];
      return Ok(doc);
    }

    /** Drafts of returns: the items are always replaced. */
    method EditReturn(id: Id, kind: Kind, patch: D.Patch) returns (r: Result<Doc>)
      requires Valid() && (kind.BuyerReturn? || kind.SupplierReturn?)
      modifies this
      ensures Valid()
      ensures State() == Committed(old(State()), D.EditReturn(old(State()), id, kind, patch))
      ensures Answers(r, D.EditReturn(old(State()), id, kind, patch), id)
    {
      if id !in docs || docs[id].kind != kind { return Err(NotFound); }
      var doc := docs[id];
      if doc.posted { return Err(Locked); }
      if kind.BuyerReturn? && (patch.date.None? || patch.warehouse.None?) { return Err(Invalid); }
      R.PaperworkKeeps(State(), D.Edit(id, patch));
      var priced, total := InsertItems(kind, D.Or(patch.items, []));
      docs := docs[id := doc.(date := D.Or(patch.date, doc.date),
                              warehouse := if patch.warehouse.Some? then patch.warehouse else doc.warehouse,
                              items := priced, amount := total)];
      return Ok(docs[id]);
    }

    /** Sales are flagged, other documents are deleted; a posted document is refused. */
    method DeleteDocument(id: Id) returns (error: Option<Error>)
      requires Valid()
      modifies this
      ensures Valid()
      ensures State() == Committed(old(State()), D.Delete(old(State()), id))
      ensures error == (match D.Delete(old(State()), id) case Ok(_) => None case Err(e) => Some(e))
    {
      if id !in docs { return Some(NotFound); }
      if docs[id].posted { return Some(Locked); }
      R.PaperworkKeeps(State(), D.Remove(id));
      if docs[id].kind.Sale? {
        docs := docs[id := docs[id].(deleted := true)];
      } else {
        docs := docs - {id};
      }
      return None;
    }

    // ---- documentRepostingService

    method UnpostOne(id: Id) returns (r: Result<Doc>)
      requires Valid() && id in docs
      modifies this
      ensures Valid()
      ensures State() == Committed(old(State()), D.UnpostDoc(old(State()), id))
      ensures Answers(r, D.UnpostDoc(old(State()), id), id)
    {
      match docs[id].kind {
        case Sale => r := UnpostSale(id);
        case BuyerReturn => r := UnpostReturn(id);
        case GoodsReceipt => r := UnpostReceipt(id);
        case SupplierReturn => r := UnpostSupplierReturn(id);
      }
    }

    method PostOne(id: Id) returns (r: Result<Doc>)
      requires Valid() && id in docs
      modifies this
      ensures Valid()
      ensures State() == Committed(old(State()), D.PostDoc(old(State()), id))
      ensures Answers(r, D.PostDoc(old(State()), id), id)
    {
      match docs[id].kind {
        case GoodsReceipt => r := PostReceipt(id);
        case BuyerReturn => r := PostReturn(id);
        case Sale => r := PostSale(id);
        case SupplierReturn => r := PostSupplierReturn(id);
      }
    }

    /** Unposts the documents one by one, the first error ending the run. */
    method UnpostEach(ids: seq<Id>) returns (error: Option<Error>)
      requires Valid() && forall id :: id in ids ==> id in docs
      modifies this
      ensures Valid()
      ensures error.None? ==> P.UnpostAll(old(State()), ids) == Ok(State())
      ensures error.Some? ==> P.UnpostAll(old(State()), ids) == Err(error.value)
    {
      ghost var before := State();
      assert ids[..0] == [];
      for i := 0 to |ids|
        invariant Valid()
        invariant P.UnpostAll(before, ids[..i]) == Ok(State())
      {
        UnpostAllKinds(before, ids[..i]);
        UnpostNext(before, ids, i, State());
        var r := UnpostOne(ids[i]);
        if r.Err? {
          UnpostFails(before, ids, i + 1, r.error);
          return Some(r.error);
        }
      }
      assert ids[..|ids|] == ids;
      return None;
    }

    /** Posts the documents in the given order, the first error ending the run. */
    method PostInOrder(ids: seq<Id>) returns (error: Option<Error>)
      requires Valid()
      requires forall id :: id in ids ==> id in docs && !docs[id].kind.SupplierReturn?
      modifies this
      ensures Valid()
      ensures error.None? ==> P.PostAll(old(State()), ids) == Ok(State())
      ensures error.Some? ==> P.PostAll(old(State()), ids) == Err(error.value)
    {
      ghost var before := State();
      assert ids[..0] == [];
      for i := 0 to |ids|
        invariant Valid()
        invariant P.PostAll(before, ids[..i]) == Ok(State())
      {
        PostAllKinds(before, ids[..i]);
        PostNext(before, ids, i, State());
        var r := PostOne(ids[i]);
        if r.Err? {
          PostFails(before, ids, i + 1, r.error);
          return Some(r.error);
        }
      }
      assert ids[..|ids|] == ids;
      return None;
    }

    /** The bulk run over the rows its queries returned: all or nothing. */
    method RunReposting(options: P.Options, listing: P.Listing) returns (error: Option<Error>)
      requires Valid() && P.Lists(State(), options, listing)
      modifies this
      ensures Valid()
      ensures forall id :: id in listing.All() ==> id in old(docs)
      ensures var spec := P.Repost(old(State()), options.action, listing);
              && State() == Committed(old(State()), spec)
              && error == (match spec case Ok(_) => None case Err(e) => Some(e))
    {
      var db := State();
      var ids := listing.All();
      if !options.action.POST? {
        error := UnpostListed(options, listing);
        if error.Some? {
          Rollback(db);
          return;
        }
        UnpostAllKinds(db, ids);
      }
      if !options.action.UNPOST? {
        var toPost := P.Sort(db.docs, ids);
        P.MultisetMembers(toPost, ids);
        error := PostInOrder(toPost);
        if error.Some? {
          Rollback(db);
          return;
        }
      }
      error := None;
    }

    /** Phase one: sales, then buyer returns, then receipts. */
    method UnpostListed(options: P.Options, listing: P.Listing) returns (error: Option<Error>)
      requires Valid() && P.Lists(State(), options, listing)
      modifies this
      ensures Valid()
      ensures error.None? ==> P.UnpostAll(old(State()), listing.All()) == Ok(State())
      ensures error.Some? ==> P.UnpostAll(old(State()), listing.All()) == Err(error.value)
    {
      ghost var db := State();
      K.UnpostAllConcat(db, listing.sales + listing.buyerReturns, listing.receipts);
      K.UnpostAllConcat(db, listing.sales, listing.buyerReturns);
      error := UnpostEach(listing.sales);
      if error.Some? { return; }
      UnpostAllKinds(db, listing.sales);
      error := UnpostEach(listing.buyerReturns);
      if error.Some? { return; }
      UnpostAllKinds(db, listing.sales + listing.buyerReturns);
      error := UnpostEach(listing.receipts);
    }
  }
}
