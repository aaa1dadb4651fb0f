// Laws over whole runs beyond conservation: when batches stay individually right,
// when posted items stay fully backed by allocations, and that posting and unposting
// leave no trace.

module History {
  import opened Sums
  import opened Fifo
  import opened Tables
  import opened Inventory
  import opened Documents
  import opened Conservation
  import opened Runs

  // ---- batch by batch: which receipt edits break it

  /** Of a group's batches only the first has been sold from. */
  ghost predicate OnlyFirstSold(bs: seq<Batch>, r: Id, p: Id) {
    forall i, j :: 0 <= i < j < |bs| ==> LaterUnsold(r, p)(bs[i], bs[j])
  }

  function LaterUnsold(r: Id, p: Id): (Batch, Batch) -> bool {
    (a: Batch, b: Batch) => InGroup(a, r, p) && InGroup(b, r, p) ==> b.left == b.total
  }

  lemma {:induction false} UsedWithin(bs: seq<Batch>, rows: seq<Row>, nextId: Id)
    requires Sound(bs, rows, nextId) && ConservedPerBatch(bs, rows)
    ensures forall b :: b in bs ==> 0 <= b.left <= b.total
  {
    forall b | b in bs
      ensures 0 <= b.left <= b.total
    {
      UsedNonNegative(rows, b.id);
    }
  }

  /** Only the first batch of the group counts in what the group sold. */
  lemma {:induction false} SoldByFirst(bs: seq<Batch>, r: Id, p: Id, k: nat)
    requires k < |bs| && InGroup(bs[k], r, p)
    requires forall i :: 0 <= i < |bs| && i != k && InGroup(bs[i], r, p) ==> bs[i].left == bs[i].total
    ensures Sold(bs, r, p) == bs[k].total - bs[k].left
  {
    SumRemoveAt(bs, k, SoldOf(r, p));
    var rest := bs[..k] + bs[k + 1..];
    forall b | b in rest
      ensures SoldOf(r, p)(b) == 0
    {
      if b in bs[..k] {
        var i :| 0 <= i < k && bs[i] == b;
      } else {
        var i :| k + 1 <= i < |bs| && bs[i] == b;
      }
    }
    SumZero(rest, SoldOf(r, p));
  }

  lemma {:induction false} FirstOf(bs: seq<Batch>, r: Id, p: Id) returns (k: nat)
    requires exists b :: b in bs && InGroup(b, r, p)
    ensures k < |bs| && InGroup(bs[k], r, p)
    ensures forall i :: 0 <= i < k ==> !InGroup(bs[i], r, p)
    decreases |bs|
  {
    if InGroup(bs[0], r, p) {
      k := 0;
    } else {
      var b :| b in bs && InGroup(b, r, p);
      assert b in bs[1..];
      k := FirstOf(bs[1..], r, p);
      assert bs[k + 1] == bs[1..][k];
      forall i | 0 <= i < k + 1
        ensures !InGroup(bs[i], r, p)
      {
        if i > 0 {
          assert bs[i] == bs[1..][i - 1];
        }
      }
      k := k + 1;
    }
  }

  /** A resize by position: the first of the group holds everything, the others nothing. */
  lemma {:induction false} ResizeAt(bs: seq<Batch>, r: Id, p: Id, total: int, left: int, price: int, k: nat)
    requires k < |bs| && InGroup(bs[k], r, p)
    requires forall i :: 0 <= i < k ==> !InGroup(bs[i], r, p)
    ensures var bs' := Resize(bs, r, p, total, left, price);
            && bs'[k] == bs[k].(total := total, left := left, price := price)
            && (forall i :: k < i < |bs| && InGroup(bs[i], r, p) ==> bs'[i] == bs[i].(total := 0, left := 0))
            && (forall i :: 0 <= i < |bs| && !InGroup(bs[i], r, p) ==> bs'[i] == bs[i])
    decreases |bs|
  {
    var rest := bs[1..];
    if k == 0 {
      forall i | 0 < i < |bs|
        ensures Resize(bs, r, p, total, left, price)[i] == Emptied(r, p)(bs[i])
      {
        assert rest[i - 1] == bs[i];
      }
    } else {
      ResizeAt(rest, r, p, total, left, price, k - 1);
      var rest' := Resize(rest, r, p, total, left, price);
      assert Resize(bs, r, p, total, left, price) == [bs[0]] + rest';
      forall i | 0 < i < |bs|
        ensures rest[i - 1] == bs[i] && Resize(bs, r, p, total, left, price)[i] == rest'[i - 1]
      {
      }
    }
  }

  /** Some batch the receipt holds of the product does not account for its rows. */
  ghost predicate BrokenIn(bs: seq<Batch>, rows: seq<Row>, r: Id, p: Id) {
    exists b :: b in bs && InGroup(b, r, p) && Gap(rows, b) != 0
  }

  lemma {:induction false} MergeBreaks(db: Db, r: Id, p: Id, total: int, left: int, price: int, i: nat, j: nat)
    requires i < j < |db.batches| && !LaterUnsold(r, p)(db.batches[i], db.batches[j])
    requires Gap(db.rows, db.batches[j]) == 0
    ensures BrokenIn(Resize(db.batches, r, p, total, left, price), db.rows, r, p)
  {
    var bs := db.batches;
    assert bs[i] in bs && bs[j] in bs;
    var k := FirstOf(bs, r, p);
    ResizeAt(bs, r, p, total, left, price, k);
    var bs' := Resize(bs, r, p, total, left, price);
    EmptiedBatchGap(db.rows, bs[j]);
    assert bs'[j] in bs';
  }

  lemma {:induction false} NoGroupOnlyFirst(bs: seq<Batch>, r: Id, p: Id)
    requires forall b :: b in bs ==> !InGroup(b, r, p)
    ensures OnlyFirstSold(bs, r, p)
  {
    forall i, j | 0 <= i < j < |bs|
      ensures LaterUnsold(r, p)(bs[i], bs[j])
    {
      assert bs[i] in bs;
    }
  }

  /** Exactly which edits of a posted receipt keep every batch right: those of a group
      from whose later batches nothing was sold. Otherwise the edit merges the group
      and the gap moves between its batches. */
  lemma {:induction false} ResizePerBatch(db: Db, r: Id, p: Id, total: int, left: int, price: int)
    requires ConservedPerBatch(db.batches, db.rows)
    requires total - left == Sold(db.batches, r, p)
    ensures ConservedPerBatch(Resize(db.batches, r, p, total, left, price), db.rows)
            <==> OnlyFirstSold(db.batches, r, p)
  {
    var bs := db.batches;
    if !(exists b :: b in bs && InGroup(b, r, p)) {
      ResizeEmptyGroup(db, r, p, total, left, price);
      NoGroupOnlyFirst(bs, r, p);
    } else if OnlyFirstSold(bs, r, p) {
      var k := FirstOf(bs, r, p);
      OnlyFirstKept(db, r, p, total, left, price, k);
    } else {
      var i, j :| 0 <= i < j < |bs| && !LaterUnsold(r, p)(bs[i], bs[j]);
      assert bs[j] in bs;
      MergeBreaks(db, r, p, total, left, price, i, j);
    }
  }

  lemma {:induction false} EmptiedBatchGap(rows: seq<Row>, b: Batch)
    requires Gap(rows, b) == 0 && b.left != b.total
    ensures Gap(rows, b.(total := 0, left := 0)) != 0
  {
  }

  lemma {:induction false} OnlyFirstKept(db: Db, r: Id, p: Id, total: int, left: int, price: int, k: nat)
    requires ConservedPerBatch(db.batches, db.rows) && OnlyFirstSold(db.batches, r, p)
    requires k < |db.batches| && InGroup(db.batches[k], r, p)
    requires forall i :: 0 <= i < k ==> !InGroup(db.batches[i], r, p)
    requires total - left == Sold(db.batches, r, p)
    ensures ConservedPerBatch(Resize(db.batches, r, p, total, left, price), db.rows)
  {
    var bs := db.batches;
    forall i | 0 <= i < |bs| && i != k && InGroup(bs[i], r, p)
      ensures bs[i].left == bs[i].total
    {
      assert LaterUnsold(r, p)(bs[k], bs[i]);
    }
    SoldByFirst(bs, r, p, k);
    ResizeAt(bs, r, p, total, left, price, k);
    GapsStay(bs, Resize(bs, r, p, total, left, price), db.rows);
  }

  lemma {:induction false} GapsStay(bs: seq<Batch>, bs': seq<Batch>, rows: seq<Row>)
    requires ConservedPerBatch(bs, rows) && |bs'| == |bs|
    requires forall i :: 0 <= i < |bs| ==>
               bs'[i].id == bs[i].id && bs'[i].total - bs'[i].left == bs[i].total - bs[i].left
    ensures ConservedPerBatch(bs', rows)
  {
    forall b | b in bs'
      ensures Gap(rows, b) == 0
    {
      var i :| 0 <= i < |bs'| && bs'[i] == b;
      assert bs[i] in bs && Gap(rows, bs[i]) == 0;
    }
  }

  /** Editing one product leaves the groups of the other products as they are. */
  lemma {:induction false} EditProductOthers(db: Db, r: Id, p: Id, items: seq<Item>, q: Id)
    requires EditProduct(db, r, p, items).Ok? && q != p
    requires OnlyFirstSold(db.batches, r, q)
    ensures OnlyFirstSold(EditProduct(db, r, p, items).value.batches, r, q)
  {
    var sold, total := Sold(db.batches, r, p), Demand(items, p);
    if total == 0 && sold == 0 {
      FilterPairwise(db.batches, Survives(OfGroup(db.batches, r, p)), LaterUnsold(r, q));
    } else if total > 0 {
      ResizeOthers(db.batches, r, p, total, total - sold, FirstPrice(items, p), q);
    }
  }

  lemma {:induction false} ResizeOthers(bs: seq<Batch>, r: Id, p: Id, total: int, left: int, price: int, q: Id)
    requires q != p && OnlyFirstSold(bs, r, q)
    ensures OnlyFirstSold(Resize(bs, r, p, total, left, price), r, q)
  {
    var bs' := Resize(bs, r, p, total, left, price);
    ResizeShape(bs, r, p, total, left, price);
    forall i, j | 0 <= i < j < |bs'|
      ensures LaterUnsold(r, q)(bs'[i], bs'[j])
    {
      assert LaterUnsold(r, q)(bs[i], bs[j]);
    }
  }

  ghost predicate Unmerged(bs: seq<Batch>, r: Id, items: seq<Item>, products: seq<Id>) {
    forall p :: p in products && Demand(items, p) > 0 ==> OnlyFirstSold(bs, r, p)
  }

  lemma {:induction false} EditProductPerBatch(db: Db, r: Id, p: Id, items: seq<Item>)
    requires Sound(db.batches, db.rows, db.nextId) && ConservedPerBatch(db.batches, db.rows)
    requires Demand(items, p) > 0 ==> OnlyFirstSold(db.batches, r, p)
    requires EditProduct(db, r, p, items).Ok?
    ensures var db' := EditProduct(db, r, p, items).value;
            Sound(db'.batches, db'.rows, db'.nextId) && ConservedPerBatch(db'.batches, db'.rows)
  {
    var sold, total := Sold(db.batches, r, p), Demand(items, p);
    if total == 0 && sold == 0 {
      DeleteKeeps(db, OfGroup(db.batches, r, p));
    } else if total > 0 {
      ResizePerBatch(db, r, p, total, total - sold, FirstPrice(items, p));
      ResizeSound(db, r, p, total, total - sold, FirstPrice(items, p));
    }
  }

  /** Right batch by batch, and no edit still to come merges. */
  ghost predicate Unbroken(db: Db, r: Id, items: seq<Item>, later: seq<Id>) {
    && Sound(db.batches, db.rows, db.nextId) && ConservedPerBatch(db.batches, db.rows)
    && Unmerged(db.batches, r, items, later)
  }

  lemma {:induction false} EditOnePerBatch(db: Db, r: Id, p: Id, items: seq<Item>, later: seq<Id>)
    requires Unbroken(db, r, items, [p] + later) && p !in later
    requires EditProduct(db, r, p, items).Ok?
    ensures Unbroken(EditProduct(db, r, p, items).value, r, items, later)
  {
    assert p in [p] + later;
    EditProductPerBatch(db, r, p, items);
    StaysUnmerged(db, r, p, items, later);
  }

  lemma {:induction false} NotRepeated(products: seq<Id>, later: seq<Id>)
    requires products != [] && NoRepeats(products + later)
    ensures products[|products| - 1] !in later
  {
    var n := |products| - 1;
    forall j | 0 <= j < |later|
      ensures later[j] != products[n]
    {
      assert (products + later)[n] == products[n] && (products + later)[n + 1 + j] == later[j];
    }
  }

  lemma {:induction false} EditProductsPerBatch(db: Db, r: Id, products: seq<Id>, items: seq<Item>, later: seq<Id>)
    requires NoRepeats(products + later) && Unbroken(db, r, items, products + later)
    requires EditProducts(db, r, products, items).Ok?
    ensures Unbroken(EditProducts(db, r, products, items).value, r, items, later)
    decreases |products|
  {
    if products == [] {
      assert products + later == later;
    } else {
      var before, p := products[..|products| - 1], products[|products| - 1];
      NotRepeated(products, later);
      assert before + ([p] + later) == products + later;
      EditProductsPerBatch(db, r, before, items, [p] + later);
      EditOnePerBatch(EditProducts(db, r, before, items).value, r, p, items, later);
    }
  }

  lemma {:induction false} StaysUnmerged(db: Db, r: Id, p: Id, items: seq<Item>, later: seq<Id>)
    requires Unmerged(db.batches, r, items, [p] + later) && p !in later
    requires EditProduct(db, r, p, items).Ok?
    ensures Unmerged(EditProduct(db, r, p, items).value.batches, r, items, later)
  {
    forall q | q in later && Demand(items, q) > 0
      ensures OnlyFirstSold(EditProduct(db, r, p, items).value.batches, r, q)
    {
      assert q in [p] + later;
      EditProductOthers(db, r, p, items, q);
    }
  }

  lemma {:induction false} BatchProductsOnce(bs: seq<Batch>, r: Id)
    ensures NoRepeats(BatchProducts(bs, r))
    decreases |bs|
  {
    if bs != [] {
      BatchProductsOnce(bs[..|bs| - 1], r);
    }
  }

  // ---- a merging edit always breaks it

  /** Some later batch of the group was sold from, and each batch still accounts for its rows. */
  ghost predicate Merging(db: Db, r: Id, p: Id) {
    && !OnlyFirstSold(db.batches, r, p)
    && forall b :: b in db.batches && InGroup(b, r, p) ==> Gap(db.rows, b) == 0
  }

  /** Editing another product leaves the batches of this group as they are. */
  lemma {:induction false} EditProductGroup(db: Db, r: Id, p: Id, items: seq<Item>, q: Id)
    requires DistinctIds(db.batches) && EditProduct(db, r, p, items).Ok? && q != p
    ensures forall b :: InGroup(b, r, q) ==> (b in EditProduct(db, r, p, items).value.batches <==> b in db.batches)
  {
    var sold, total := Sold(db.batches, r, p), Demand(items, p);
    if total == 0 && sold == 0 {
      OneIdOneBatch(db.batches);
      forall b | b in db.batches && InGroup(b, r, q)
        ensures Survives(OfGroup(db.batches, r, p))(b)
      {
      }
    } else if total > 0 {
      ResizeGroup(db.batches, r, p, total, total - sold, FirstPrice(items, p), q);
    }
  }

  lemma {:induction false} ResizeGroup(bs: seq<Batch>, r: Id, p: Id, total: int, left: int, price: int, q: Id)
    requires q != p
    ensures var bs' := Resize(bs, r, p, total, left, price);
            forall b :: InGroup(b, r, q) ==> (b in bs' <==> b in bs)
  {
    var bs' := Resize(bs, r, p, total, left, price);
    ResizeShape(bs, r, p, total, left, price);
    forall b | InGroup(b, r, q)
      ensures b in bs' <==> b in bs
    {
      if b in bs {
        var i :| 0 <= i < |bs| && bs[i] == b;
        assert bs'[i] == b;
      }
      if b in bs' {
        var i :| 0 <= i < |bs| && bs'[i] == b;
        assert bs[i] == b;
      }
    }
  }

  /** Nor does it change from which of them was sold. */
  lemma {:induction false} EditProductOthersBack(db: Db, r: Id, p: Id, items: seq<Item>, q: Id)
    requires DistinctIds(db.batches) && EditProduct(db, r, p, items).Ok? && q != p
    requires OnlyFirstSold(EditProduct(db, r, p, items).value.batches, r, q)
    ensures OnlyFirstSold(db.batches, r, q)
  {
    var sold, total := Sold(db.batches, r, p), Demand(items, p);
    if total == 0 && sold == 0 {
      OneIdOneBatch(db.batches);
      FilterPairwiseBack(db.batches, Survives(OfGroup(db.batches, r, p)), LaterUnsold(r, q));
      assert Pairwise(db.batches, LaterUnsold(r, q));
    } else if total > 0 {
      ResizeOthersBack(db.batches, r, p, total, total - sold, FirstPrice(items, p), q);
    }
  }

  lemma {:induction false} ResizeOthersBack(bs: seq<Batch>, r: Id, p: Id, total: int, left: int, price: int, q: Id)
    requires q != p && OnlyFirstSold(Resize(bs, r, p, total, left, price), r, q)
    ensures OnlyFirstSold(bs, r, q)
  {
    var bs' := Resize(bs, r, p, total, left, price);
    ResizeShape(bs, r, p, total, left, price);
    forall i, j | 0 <= i < j < |bs|
      ensures LaterUnsold(r, q)(bs[i], bs[j])
    {
      assert LaterUnsold(r, q)(bs'[i], bs'[j]);
    }
  }

  lemma {:induction false} OtherEditKeeps(db: Db, r: Id, p: Id, items: seq<Item>, q: Id)
    requires Sound(db.batches, db.rows, db.nextId) && Conserved(db.batches, db.rows)
    requires EditProduct(db, r, p, items).Ok? && q != p
    ensures var db' := EditProduct(db, r, p, items).value;
            && (Merging(db, r, q) ==> Merging(db', r, q))
            && (BrokenIn(db.batches, db.rows, r, q) ==> BrokenIn(db'.batches, db'.rows, r, q))
  {
    var db' := EditProduct(db, r, p, items).value;
    EditProductGroup(db, r, p, items, q);
    EditProductKeeps(db, r, p, items);
    if OnlyFirstSold(db'.batches, r, q) {
      EditProductOthersBack(db, r, p, items, q);
    }
  }

  lemma {:induction false} MergingResize(db: Db, r: Id, p: Id, total: int, left: int, price: int)
    requires Merging(db, r, p)
    ensures BrokenIn(Resize(db.batches, r, p, total, left, price), db.rows, r, p)
  {
    var i, j :| 0 <= i < j < |db.batches| && !LaterUnsold(r, p)(db.batches[i], db.batches[j]);
    assert db.batches[j] in db.batches;
    MergeBreaks(db, r, p, total, left, price, i, j);
  }

  lemma {:induction false} MergingEdit(db: Db, r: Id, p: Id, items: seq<Item>)
    requires Merging(db, r, p) && Demand(items, p) > 0 && EditProduct(db, r, p, items).Ok?
    ensures var db' := EditProduct(db, r, p, items).value; BrokenIn(db'.batches, db'.rows, r, p)
  {
    var sold, total := Sold(db.batches, r, p), Demand(items, p);
    MergingResize(db, r, p, total, total - sold, FirstPrice(items, p));
  }

  /** Before the merged product's turn the merge is still to come, afterwards it is done. */
  ghost predicate MergeAt(db: Db, r: Id, products: seq<Id>, k: nat, m: nat)
    requires m < |products|
  {
    && Sound(db.batches, db.rows, db.nextId) && Conserved(db.batches, db.rows)
    && if k <= m then Merging(db, r, products[m]) else BrokenIn(db.batches, db.rows, r, products[m])
  }

  lemma {:induction false} MergeTurn(db: Db, r: Id, products: seq<Id>, items: seq<Item>, k: nat, m: nat)
    requires m < |products| && k < |products| && NoRepeats(products)
    requires Demand(items, products[m]) > 0 && MergeAt(db, r, products, k, m)
    requires EditProduct(db, r, products[k], items).Ok?
    ensures MergeAt(EditProduct(db, r, products[k], items).value, r, products, k + 1, m)
  {
    EditProductKeeps(db, r, products[k], items);
    if k == m {
      MergingEdit(db, r, products[m], items);
    } else {
      OtherEditKeeps(db, r, products[k], items, products[m]);
    }
  }

  lemma {:induction false} MergeTurns(db: Db, r: Id, products: seq<Id>, items: seq<Item>, k: nat, m: nat)
    requires m < |products| && k <= |products| && NoRepeats(products)
    requires Demand(items, products[m]) > 0 && MergeAt(db, r, products, 0, m)
    requires EditProducts(db, r, products[..k], items).Ok?
    ensures MergeAt(EditProducts(db, r, products[..k], items).value, r, products, k, m)
    decreases k
  {
    if k > 0 {
      assert products[..k][..k - 1] == products[..k - 1];
      MergeTurns(db, r, products, items, k - 1, m);
      MergeTurn(EditProducts(db, r, products[..k - 1], items).value, r, products, items, k - 1, m);
    }
  }

  lemma {:induction false} OldBatchesStay(db: Db, r: Id, products: seq<Id>, known: seq<Id>, items: seq<Item>, date: int)
    ensures forall b :: b in db.batches ==> b in AddNewProducts(db, r, products, known, items, date).batches
    decreases |products|
  {
    if products != [] {
      var n := |products| - 1;
      var p, before := products[n], AddNewProducts(db, r, products[..n], known, items, date);
      OldBatchesStay(db, r, products[..n], known, items, date);
      if p !in known {
        var q := Demand(items, p);
        InsertMembers(before.batches, Batch(before.nextId, p, q, q, FirstPrice(items, p), FromReceipt(r), date),
                      CreatedAt());
      }
    }
  }

  lemma {:induction false} EditStockMerges(db: Db, id: Id, items: seq<Item>, date: int, p: Id)
    requires Sound(db.batches, db.rows, db.nextId) && Conserved(db.batches, db.rows)
    requires ConservedPerBatch(db.batches, db.rows)
    requires Demand(items, p) > 0 && !OnlyFirstSold(db.batches, id, p) && EditStock(db, id, items, date).Ok?
    ensures var db' := EditStock(db, id, items, date).value; !ConservedPerBatch(db'.batches, db'.rows)
  {
    var known := BatchProducts(db.batches, id);
    BatchProductsOnce(db.batches, id);
    assert p in known by {
      if p !in known {
        NoGroupOnlyFirst(db.batches, id, p);
      }
    }
    var m :| 0 <= m < |known| && known[m] == p;
    assert known[..|known|] == known;
    MergeTurns(db, id, known, items, |known|, m);
    var resized := EditProducts(db, id, known, items).value;
    OldBatchesStay(resized, id, ItemProducts(items), known, items, date);
  }

  /** An edit of a posted receipt that merges sold batches of one product into one. */
  ghost predicate Merges(db: Db, step: Step) {
    && step.Edit? && IsPosted(db.docs, step.id) && db.docs[step.id].kind.GoodsReceipt?
    && exists p :: Demand(Or(step.patch.items, []), p) > 0 && !OnlyFirstSold(db.batches, step.id, p)
  }

  lemma {:induction false} EditStockPerBatch(db: Db, id: Id, items: seq<Item>, date: int)
    requires Sound(db.batches, db.rows, db.nextId) && Conserved(db.batches, db.rows)
    requires ConservedPerBatch(db.batches, db.rows) && EditStock(db, id, items, date).Ok?
    ensures var db' := EditStock(db, id, items, date).value;
            ConservedPerBatch(db'.batches, db'.rows)
            <==> forall p :: Demand(items, p) > 0 ==> OnlyFirstSold(db.batches, id, p)
  {
    if p :| Demand(items, p) > 0 && !OnlyFirstSold(db.batches, id, p) {
      EditStockMerges(db, id, items, date, p);
    } else {
      UnmergedEdit(db, id, items, date);
    }
  }

  lemma {:induction false} UnmergedEdit(db: Db, id: Id, items: seq<Item>, date: int)
    requires Sound(db.batches, db.rows, db.nextId) && ConservedPerBatch(db.batches, db.rows)
    requires forall p :: Demand(items, p) > 0 ==> OnlyFirstSold(db.batches, id, p)
    requires EditStock(db, id, items, date).Ok?
    ensures var db' := EditStock(db, id, items, date).value; ConservedPerBatch(db'.batches, db'.rows)
  {
    var known := BatchProducts(db.batches, id);
    BatchProductsOnce(db.batches, id);
    assert known + [] == known;
    EditProductsPerBatch(db, id, known, items, []);
    var resized := EditProducts(db, id, known, items).value;
    AddNewProductsKeeps(resized, id, ItemProducts(items), known, items, date);
  }

  /** Exactly which requests break the agreement batch by batch: an accepted request keeps
      it if and only if it is not a merging edit. */
  lemma {:induction false} NextPerBatch(db: Db, step: Step)
    requires Ledger(db) && ConservedPerBatch(db.batches, db.rows) && Next(db, step).Ok?
    ensures var db' := Next(db, step).value; ConservedPerBatch(db'.batches, db'.rows) <==> !Merges(db, step)
  {
    if step.Edit? && IsPosted(db.docs, step.id) {
      EditPerBatch(db, step.id, step.patch);
    } else {
      NextKeeps(db, step);
    }
  }

  lemma {:induction false} EditPerBatch(db: Db, id: Id, patch: Patch)
    requires Ledger(db) && ConservedPerBatch(db.batches, db.rows) && IsPosted(db.docs, id)
    requires EditDoc(db, id, patch).Ok?
    ensures var db' := EditDoc(db, id, patch).value;
            ConservedPerBatch(db'.batches, db'.rows) <==> !Merges(db, Edit(id, patch))
  {
    var items := Or(patch.items, []);
    var edited := db.docs[id].(date := patch.date.value, warehouse := patch.warehouse, items := items,
                               amount := ItemsTotal(items));
    EditStockPerBatch(db.(docs := db.docs[id := edited]), id, items, patch.date.value);
  }

  /** In a run without merging edits every batch accounts for its own allocation rows
      and never holds more than it came with. */
  lemma {:induction false} PerBatchOverRuns(steps: seq<Step>)
    requires forall n :: 0 <= n < |steps| ==> !Merges(Run(EmptyDb, steps[..n]), steps[n])
    ensures var db := Run(EmptyDb, steps);
            && ConservedPerBatch(db.batches, db.rows)
            && forall b :: b in db.batches ==> 0 <= b.left <= b.total
    decreases |steps|
  {
    var db := Run(EmptyDb, steps);
    if steps != [] {
      var n := |steps| - 1;
      var before := steps[..n];
      forall m | 0 <= m < |before|
        ensures !Merges(Run(EmptyDb, before[..m]), before[m])
      {
        assert before[..m] == steps[..m];
      }
      PerBatchOverRuns(before);
      LedgerOverRuns(before);
      if Next(Run(EmptyDb, before), steps[n]).Ok? {
        NextPerBatch(Run(EmptyDb, before), steps[n]);
      }
    }
    LedgerOverRuns(steps);
    UsedWithin(db.batches, db.rows, db.nextId);
  }

  // ---- posted items stay backed

  /** Every item of a posted sale or supplier return is backed in full. */
  ghost predicate FullyBacked(db: Db) {
    forall id, i {:trigger Backing(db.rows, id, i)} ::
      IsPosted(db.docs, id) && Outgoing(db.docs[id].kind) && 0 <= i < |db.docs[id].items| ==>
        Backing(db.rows, id, i) == db.docs[id].items[i].quantity
  }

  lemma {:induction false} RowsForTotal(bs: seq<Batch>, takes: seq<nat>, doc: Id, item: nat)
    requires |takes| == |bs|
    ensures Backing(RowsFor(bs, takes, doc, item), doc, item) == Total(takes)
    decreases |bs|
  {
    if bs != [] {
      var n := |bs| - 1;
      RowsForTotal(bs[..n], takes[..n], doc, item);
      var rows := RowsFor(bs[..n], takes[..n], doc, item);
      if takes[n] > 0 {
        SumSnoc(rows, Row(doc, item, bs[n].id, takes[n], bs[n].price), BackingOf(doc, item));
      } else {
        assert rows + [] == rows;
      }
    }
  }

  lemma {:induction false} OthersUnbacked(rows: seq<Row>, doc: Id, item: nat)
    requires forall r :: r in rows ==> !(r.doc == doc && r.item == item)
    ensures Backing(rows, doc, item) == 0
  {
    SumZero(rows, BackingOf(doc, item));
  }

  lemma {:induction false} DeductBacks(db: Db, doc: Id, item: nat, product: Id, warehouse: Option<Id>, need: nat,
                                       id: Id, i: nat)
    requires Deduct(db, doc, item, product, warehouse, need).Ok?
    ensures var db' := Deduct(db, doc, item, product, warehouse, need).value;
            Backing(db'.rows, id, i) == Backing(db.rows, id, i) + if id == doc && i == item then need else 0
  {
    var caps := Caps(db.docs, db.batches, product, warehouse);
    var takes := Takes(caps, need);
    var more := RowsFor(db.batches, takes, doc, item);
    SumConcat(db.rows, more, BackingOf(id, i));
    TakesTotal(caps, need);
    RowsForTotal(db.batches, takes, doc, item);
    RowsForMembers(db.batches, takes, doc, item);
    if !(id == doc && i == item) {
      OthersUnbacked(more, id, i);
    }
  }

  /** Posting backs each of the document's items with exactly its quantity and leaves
      the backing of everything else alone. */
  lemma {:induction false} DeductItemsBacks(db: Db, doc: Id, warehouse: Option<Id>, items: seq<Item>, id: Id, i: nat)
    requires DeductItems(db, doc, warehouse, items).Ok?
    ensures var db' := DeductItems(db, doc, warehouse, items).value;
            Backing(db'.rows, id, i)
            == Backing(db.rows, id, i) + if id == doc && i < |items| then items[i].quantity else 0
    decreases |items|
  {
    if items != [] {
      var n := |items| - 1;
      var before := DeductItems(db, doc, warehouse, items[..n]).value;
      DeductItemsBacks(db, doc, warehouse, items[..n], id, i);
      DeductBacks(before, doc, n, items[n].product, warehouse, items[n].quantity, id, i);
      assert i < n ==> items[..n][i] == items[i];
    }
  }

  lemma {:induction false} PostBacked(db: Db, id: Id, db': Db)
    requires Ledger(db) && FullyBacked(db)
    requires id in db.docs && Outgoing(db.docs[id].kind) && !db.docs[id].posted
    requires DeductItems(db, id, db.docs[id].warehouse, db.docs[id].items).Ok?
    requires db'.rows == DeductItems(db, id, db.docs[id].warehouse, db.docs[id].items).value.rows
    requires id in db'.docs && db'.docs == db.docs[id := db'.docs[id]]
    requires db'.docs[id].items == db.docs[id].items
    ensures FullyBacked(db')
  {
    forall d, i {:trigger Backing(db'.rows, d, i)} |
      IsPosted(db'.docs, d) && Outgoing(db'.docs[d].kind) && 0 <= i < |db'.docs[d].items|
      ensures Backing(db'.rows, d, i) == db'.docs[d].items[i].quantity
    {
      DeductItemsBacks(db, id, db.docs[id].warehouse, db.docs[id].items, d, i);
      if d == id {
        forall r | r in db.rows
          ensures r.doc != id
        {
          assert RowOk(db.docs, r);
        }
        OthersUnbacked(db.rows, id, i);
      }
    }
  }

  lemma {:induction false} UnpostBacked(db: Db, id: Id, db': Db)
    requires FullyBacked(db) && id in db.docs
    requires db'.rows == Filter(db.rows, NotOf(id))
    requires id in db'.docs && db'.docs == db.docs[id := db'.docs[id]] && !db'.docs[id].posted
    ensures FullyBacked(db')
  {
    forall d, i {:trigger Backing(db'.rows, d, i)} |
      IsPosted(db'.docs, d) && Outgoing(db'.docs[d].kind) && 0 <= i < |db'.docs[d].items|
      ensures Backing(db'.rows, d, i) == db'.docs[d].items[i].quantity
    {
      SumFilter(db.rows, NotOf(id), BackingOf(d, i), BackingOf(d, i));
      assert Backing(db.rows, d, i) == db.docs[d].items[i].quantity;
    }
  }

  /** Some row was allocated from a batch of the return. */
  ghost predicate Consumed(db: Db, id: Id) {
    exists r :: r in db.rows && r.batch in OfReturn(db.batches, id)
  }

  lemma {:induction false} UntouchedBacked(db: Db, db': Db)
    requires FullyBacked(db) && db'.rows == db.rows
    requires forall d :: IsPosted(db'.docs, d) && Outgoing(db'.docs[d].kind) ==>
               IsPosted(db.docs, d) && Outgoing(db.docs[d].kind) && db.docs[d].items == db'.docs[d].items
    ensures FullyBacked(db')
  {
    forall d, i {:trigger Backing(db'.rows, d, i)} |
      IsPosted(db'.docs, d) && Outgoing(db'.docs[d].kind) && 0 <= i < |db'.docs[d].items|
      ensures Backing(db'.rows, d, i) == db'.docs[d].items[i].quantity
    {
      assert Backing(db.rows, d, i) == db.docs[d].items[i].quantity;
    }
  }

  /** Unposting a buyer return keeps posted items backed exactly when nothing was
      allocated from its batches: it has no guard of its own. */
  lemma {:induction false} UnpostReturnBacked(db: Db, id: Id)
    requires Ledger(db) && FullyBacked(db) && UnpostReturn(db, id).Ok?
    ensures FullyBacked(UnpostReturn(db, id).value) <==> !Consumed(db, id)
  {
    var doomed := OfReturn(db.batches, id);
    var db' := UnpostReturn(db, id).value;
    if Consumed(db, id) {
      var r :| r in db.rows && r.batch in doomed;
      assert RowOk(db.docs, r);
      LostRow(db.rows, doomed, r);
      assert Backing(db.rows, r.doc, r.item) == db.docs[r.doc].items[r.item].quantity;
      assert db'.docs[r.doc] == db.docs[r.doc];
      assert Backing(db'.rows, r.doc, r.item) != db'.docs[r.doc].items[r.item].quantity;
    } else {
      FilterAll(db.rows, RowSurvives(doomed));
      UntouchedBacked(db, db');
    }
  }

  /** A row lost to the cascade leaves its item short. */
  lemma {:induction false} LostRow(rows: seq<Row>, doomed: set<Id>, r: Row)
    requires forall x :: x in rows ==> x.qty > 0
    requires r in rows && r.batch in doomed
    ensures Backing(Filter(rows, RowSurvives(doomed)), r.doc, r.item) < Backing(rows, r.doc, r.item)
  {
    var kept := (x: Row) => if x.batch !in doomed then BackingOf(r.doc, r.item)(x) else 0;
    var lost := (x: Row) => if x.batch in doomed then BackingOf(r.doc, r.item)(x) else 0;
    SumFilter(rows, RowSurvives(doomed), BackingOf(r.doc, r.item), kept);
    SumPlus(rows, kept, lost, BackingOf(r.doc, r.item));
    SumNonNegative(rows, lost);
    assert lost(r) > 0;
  }

  /** A request that deletes allocation rows through the foreign key. */
  ghost predicate LosesRows(db: Db, step: Step) {
    step.Unpost? && step.id in db.docs && db.docs[step.id].kind.BuyerReturn? && Consumed(db, step.id)
  }

  lemma {:induction false} EditBacked(db: Db, id: Id, patch: Patch)
    requires Ledger(db) && FullyBacked(db) && EditDoc(db, id, patch).Ok?
    ensures FullyBacked(EditDoc(db, id, patch).value)
  {
    if db.docs[id].kind.GoodsReceipt? {
      UpdateReceiptKeeps(db, id, patch);
      UpdateReceiptDocs(db, id, patch);
    }
    UntouchedBacked(db, EditDoc(db, id, patch).value);
  }

  lemma {:induction false} PostDocBacked(db: Db, id: Id)
    requires Ledger(db) && FullyBacked(db) && PostDoc(db, id).Ok?
    ensures FullyBacked(PostDoc(db, id).value)
  {
    match db.docs[id].kind
    case GoodsReceipt => UntouchedBacked(db, PostReceipt(db, id).value);
    case BuyerReturn => UntouchedBacked(db, PostReturn(db, id).value);
    case Sale => PostBacked(db, id, PostSale(db, id).value);
    case SupplierReturn => PostBacked(db, id, PostSupplierReturn(db, id).value);
  }

  lemma {:induction false} UnpostDocBacked(db: Db, id: Id)
    requires Ledger(db) && FullyBacked(db) && UnpostDoc(db, id).Ok?
    requires db.docs[id].kind.BuyerReturn? ==> !Consumed(db, id)
    ensures FullyBacked(UnpostDoc(db, id).value)
  {
    match db.docs[id].kind
    case GoodsReceipt =>
      UnpostReceiptCascade(db, id);
      UntouchedBacked(db, UnpostDoc(db, id).value);
    case BuyerReturn => UnpostReturnBacked(db, id);
    case Sale => UnpostBacked(db, id, UnpostDoc(db, id).value);
    case SupplierReturn => UnpostBacked(db, id, UnpostDoc(db, id).value);
  }

  lemma {:induction false} NextBacked(db: Db, step: Step)
    requires Ledger(db) && FullyBacked(db) && Next(db, step).Ok? && !LosesRows(db, step)
    ensures FullyBacked(Next(db, step).value)
  {
    match step
    case Arrive(_, _, _, _) => UntouchedBacked(db, Next(db, step).value);
    case New(_, _, _, _, _, _) => UntouchedBacked(db, Next(db, step).value);
    case Remove(_) => UntouchedBacked(db, Next(db, step).value);
    case Edit(id, patch) => EditBacked(db, id, patch);
    case Post(id) => PostDocBacked(db, id);
    case Unpost(id) => UnpostDocBacked(db, id);
  }

  lemma {:induction false} UpdateReceiptDocs(db: Db, id: Id, patch: Patch)
    requires Ledger(db) && UpdateReceipt(db, id, patch).Ok?
    ensures var db' := UpdateReceipt(db, id, patch).value;
            && (forall d :: d in db'.docs ==> d in db.docs && (d != id ==> db'.docs[d] == db.docs[d]))
            && id in db'.docs && db'.docs[id].kind.GoodsReceipt? && db'.docs[id].deleted == db.docs[id].deleted
  {
    var items := Or(patch.items, []);
    var edited := db.docs[id].(date := patch.date.value, warehouse := patch.warehouse, items := items,
                               amount := ItemsTotal(items));
    var renamed := db.(docs := db.docs[id := edited]);
    OwnedRenamed(db, id, edited);
    if edited.posted {
      EditProductsKeeps(renamed, id, BatchProducts(db.batches, id), items);
    }
  }

  /** In every run that never unposts a consumed buyer return, each item of a posted
      sale or supplier return is backed by allocations summing to its quantity, and
      documents that are not posted have no allocation. */
  lemma {:induction false} BackedOverRuns(steps: seq<Step>)
    requires forall n :: 0 <= n < |steps| ==> !LosesRows(Run(EmptyDb, steps[..n]), steps[n])
    ensures FullyBacked(Run(EmptyDb, steps))
    ensures forall r :: r in Run(EmptyDb, steps).rows ==> IsPosted(Run(EmptyDb, steps).docs, r.doc)
    decreases |steps|
  {
    if steps != [] {
      var n := |steps| - 1;
      var before := steps[..n];
      forall m | 0 <= m < |before|
        ensures !LosesRows(Run(EmptyDb, before[..m]), before[m])
      {
        assert before[..m] == steps[..m];
      }
      BackedOverRuns(before);
      LedgerOverRuns(before);
      if Next(Run(EmptyDb, before), steps[n]).Ok? {
        NextBacked(Run(EmptyDb, before), steps[n]);
      }
    }
    LedgerOverRuns(steps);
    forall r | r in Run(EmptyDb, steps).rows
      ensures IsPosted(Run(EmptyDb, steps).docs, r.doc)
    {
      assert RowOk(Run(EmptyDb, steps).docs, r);
    }
  }

  // ---- nothing is backed beyond its quantity

  /** The document a request is about; an arrival is about none. */
  function Changed(db: Db, step: Step): Id {
    match step
    case Arrive(_, _, _, _) => db.nextId
    case New(_, _, _, _, _, _) => db.nextId
    case Edit(id, _) => id
    case Remove(id) => id
    case Post(id) => id
    case Unpost(id) => id
  }

  /** No item of a posted sale or supplier return is backed by more than its quantity. */
  ghost predicate Within(db: Db) {
    forall id, i {:trigger Backing(db.rows, id, i)} ::
      IsPosted(db.docs, id) && Outgoing(db.docs[id].kind) && 0 <= i < |db.docs[id].items| ==>
        Backing(db.rows, id, i) <= db.docs[id].items[i].quantity
  }

  lemma {:induction false} FewerRows(rows: seq<Row>, p: Row -> bool, doc: Id, item: nat)
    requires forall r :: r in rows ==> r.qty > 0
    ensures Backing(Filter(rows, p), doc, item) <= Backing(rows, doc, item)
  {
    var kept := (r: Row) => if p(r) then BackingOf(doc, item)(r) else 0;
    SumFilter(rows, p, BackingOf(doc, item), kept);
    SumMonotone(rows, kept, BackingOf(doc, item));
  }

  lemma {:induction false} UnpostFalls(db: Db, id: Id, d: Id, i: nat)
    requires Ledger(db) && UnpostDoc(db, id).Ok?
    ensures Backing(UnpostDoc(db, id).value.rows, d, i) <= Backing(db.rows, d, i)
  {
    match db.docs[id].kind
    case GoodsReceipt => FewerRows(db.rows, RowSurvives(OfReceipt(db.batches, id)), d, i);
    case BuyerReturn => FewerRows(db.rows, RowSurvives(OfReturn(db.batches, id)), d, i);
    case Sale => FewerRows(db.rows, NotOf(id), d, i);
    case SupplierReturn => FewerRows(db.rows, NotOf(id), d, i);
  }

  lemma {:induction false} PostFalls(db: Db, id: Id, d: Id, i: nat)
    requires PostDoc(db, id).Ok? && d != id
    ensures Backing(PostDoc(db, id).value.rows, d, i) <= Backing(db.rows, d, i)
  {
    if Outgoing(db.docs[id].kind) {
      ShippedRows(db, Post(id));
      DeductItemsBacks(db, id, db.docs[id].warehouse, db.docs[id].items, d, i);
    }
  }

  /** No request raises the backing of another document's item. */
  lemma {:induction false} NextFalls(db: Db, step: Step, d: Id, i: nat)
    requires Ledger(db) && Next(db, step).Ok? && d != Changed(db, step)
    ensures Backing(Next(db, step).value.rows, d, i) <= Backing(db.rows, d, i)
  {
    match step
    case Arrive(_, _, _, _) =>
    case New(_, _, _, _, _, _) =>
    case Remove(_) =>
    case Edit(id, patch) =>
      if db.docs[id].kind.GoodsReceipt? {
        UpdateReceiptKeeps(db, id, patch);
      }
    case Post(id) => PostFalls(db, id, d, i);
    case Unpost(id) => UnpostFalls(db, id, d, i);
  }

  /** Documents other than the one a request is about stay as they are, and only posting
      leaves that one posted when it is a sale or a supplier return. */
  lemma {:induction false} NextOthers(db: Db, step: Step)
    requires Ledger(db) && Next(db, step).Ok?
    ensures var docs', c := Next(db, step).value.docs, Changed(db, step);
            && (forall d :: d in docs' && d != c ==> d in db.docs && docs'[d] == db.docs[d])
            && (IsPosted(docs', c) && Outgoing(docs'[c].kind) ==>
                  Shipping(db.docs, step) && step.Post? && docs'[c].items == db.docs[c].items)
  {
    match step
    case Arrive(_, _, _, _) =>
    case New(_, _, _, _, _, _) =>
    case Remove(_) =>
    case Edit(id, patch) =>
      if db.docs[id].kind.GoodsReceipt? {
        UpdateReceiptDocs(db, id, patch);
      }
    case Post(id) => PostOthers(db, id);
    case Unpost(id) => UnpostOthers(db, id);
  }

  lemma {:induction false} PostOthers(db: Db, id: Id)
    requires PostDoc(db, id).Ok?
    ensures var docs' := PostDoc(db, id).value.docs;
            && id in docs' && docs' == db.docs[id := docs'[id]]
            && docs'[id].kind == db.docs[id].kind && docs'[id].items == db.docs[id].items
  {
  }

  lemma {:induction false} UnpostOthers(db: Db, id: Id)
    requires UnpostDoc(db, id).Ok?
    ensures var docs' := UnpostDoc(db, id).value.docs;
            id in docs' && docs' == db.docs[id := docs'[id]] && !docs'[id].posted
  {
  }

  /** Posting backs each item of a sale or supplier return with exactly its quantity. */
  lemma {:induction false} PostedExactly(db: Db, step: Step, i: nat)
    requires Ledger(db) && Shipping(db.docs, step) && step.Post? && Next(db, step).Ok?
    requires !IsPosted(db.docs, step.id) && i < |db.docs[step.id].items|
    ensures Backing(Next(db, step).value.rows, step.id, i) == db.docs[step.id].items[i].quantity
  {
    ShippedRows(db, step);
    DeductedExactly(db, step.id, db.docs[step.id], i);
  }

  lemma {:induction false} DeductedExactly(db: Db, id: Id, doc: Doc, i: nat)
    requires Owned(db.docs, db.batches, db.rows) && !IsPosted(db.docs, id) && i < |doc.items|
    requires DeductItems(db, id, doc.warehouse, doc.items).Ok?
    ensures Backing(DeductItems(db, id, doc.warehouse, doc.items).value.rows, id, i) == doc.items[i].quantity
  {
    DeductItemsBacks(db, id, doc.warehouse, doc.items, id, i);
    forall r | r in db.rows
      ensures r.doc != id
    {
      assert RowOk(db.docs, r);
    }
    OthersUnbacked(db.rows, id, i);
  }

  lemma {:induction false} PostedBefore(db: Db, step: Step)
    requires Shipping(db.docs, step) && step.Post? && Next(db, step).Ok?
    ensures !IsPosted(db.docs, step.id)
  {
  }

  lemma {:induction false} NextWithin(db: Db, step: Step)
    requires Ledger(db) && Within(db) && Next(db, step).Ok?
    ensures Within(Next(db, step).value)
  {
    var db', c := Next(db, step).value, Changed(db, step);
    NextOthers(db, step);
    forall d, i {:trigger Backing(db'.rows, d, i)} |
      IsPosted(db'.docs, d) && Outgoing(db'.docs[d].kind) && 0 <= i < |db'.docs[d].items|
      ensures Backing(db'.rows, d, i) <= db'.docs[d].items[i].quantity
    {
      if d == c {
        PostedBefore(db, step);
        PostedExactly(db, step, i);
      } else {
        NextFalls(db, step, d, i);
        assert Backing(db.rows, d, i) <= db.docs[d].items[i].quantity;
      }
    }
  }

  /** In every run no posted item is backed beyond its quantity. */
  lemma {:induction false} WithinOverRuns(steps: seq<Step>)
    ensures Within(Run(EmptyDb, steps))
    decreases |steps|
  {
    if steps != [] {
      var before := Run(EmptyDb, steps[..|steps| - 1]);
      WithinOverRuns(steps[..|steps| - 1]);
      LedgerOverRuns(steps[..|steps| - 1]);
      if Next(before, steps[|steps| - 1]).Ok? {
        NextWithin(before, steps[|steps| - 1]);
      }
    }
  }

  // ---- posting and unposting leave no trace

  /** A request to post or unpost a sale or a supplier return. */
  predicate Shipping(docs: map<Id, Doc>, step: Step) {
    (step.Post? || step.Unpost?) && step.id in docs && Outgoing(docs[step.id].kind)
  }

  ghost predicate SameKinds(docs: map<Id, Doc>, docs': map<Id, Doc>) {
    docs'.Keys == docs.Keys && forall d :: d in docs ==> docs'[d].kind == docs[d].kind
  }

  lemma {:induction false} ShippingRefills(db: Db, step: Step)
    requires Ledger(db) && Shipping(db.docs, step) && Next(db, step).Ok?
    ensures var db' := Next(db, step).value;
            Refilled(db.batches, db.rows, db'.batches, db'.rows) && SameKinds(db.docs, db'.docs)
  {
    var id := step.id;
    if step.Post? {
      DeductItemsRefills(db, id, db.docs[id].warehouse, db.docs[id].items);
    } else {
      ReturnKeeps(db, id);
    }
  }

  function NotAmong(ids: set<Id>): Row -> bool {
    (r: Row) => r.doc !in ids
  }

  /** The rows after posting or unposting a sale or a supplier return. */
  lemma {:induction false} ShippedRows(db: Db, step: Step)
    requires Shipping(db.docs, step) && Next(db, step).Ok?
    ensures var doc, rows' := db.docs[step.id], Next(db, step).value.rows;
            if step.Post? then
              var deducted := DeductItems(db, step.id, doc.warehouse, doc.items);
              deducted.Ok? && rows' == deducted.value.rows
            else rows' == Filter(db.rows, NotOf(step.id))
  {
  }

  /** Posting or unposting a document leaves the rows of all others alone. */
  lemma {:induction false} ShippingRows(db: Db, step: Step, ids: set<Id>)
    requires Ledger(db) && Shipping(db.docs, step) && Next(db, step).Ok? && step.id in ids
    ensures Filter(Next(db, step).value.rows, NotAmong(ids)) == Filter(db.rows, NotAmong(ids))
  {
    ShippedRows(db, step);
    OtherRows(db, step.id, db.docs[step.id], step.Post?, ids, Next(db, step).value.rows);
  }

  lemma {:induction false} OtherRows(db: Db, id: Id, doc: Doc, posting: bool, ids: set<Id>, rows': seq<Row>)
    requires Sound(db.batches, db.rows, db.nextId) && id in ids
    requires if posting then
               var deducted := DeductItems(db, id, doc.warehouse, doc.items);
               deducted.Ok? && rows' == deducted.value.rows
             else rows' == Filter(db.rows, NotOf(id))
    ensures Filter(rows', NotAmong(ids)) == Filter(db.rows, NotAmong(ids))
  {
    if posting {
      DeductItemsKeeps(db, id, doc.warehouse, doc.items);
      RowsAmong(db, DeductItems(db, id, doc.warehouse, doc.items).value, ids);
    } else {
      FilterTwice(db.rows, NotOf(id), NotAmong(ids), NotAmong(ids));
    }
  }

  lemma {:induction false} RowsAmong(db: Db, db': Db, ids: set<Id>)
    requires db.rows <= db'.rows && forall r :: r in Added(db, db') ==> r.doc in ids
    ensures Filter(db'.rows, NotAmong(ids)) == Filter(db.rows, NotAmong(ids))
  {
    assert db'.rows == db.rows + Added(db, db');
    FilterConcat(db.rows, Added(db, db'), NotAmong(ids));
    FilterNone(Added(db, db'), NotAmong(ids));
  }

  /** Requests that post and unpost some of the sales and supplier returns. */
  ghost predicate ShipsOnly(docs: map<Id, Doc>, steps: seq<Step>, ids: set<Id>) {
    forall s :: s in steps ==> Shipping(docs, s) && s.id in ids
  }

  lemma {:induction false} ShippingRun(db: Db, steps: seq<Step>, ids: set<Id>)
    requires Ledger(db) && ShipsOnly(db.docs, steps, ids)
    ensures var db' := Run(db, steps);
            && Ledger(db') && SameKinds(db.docs, db'.docs)
            && Refilled(db.batches, db.rows, db'.batches, db'.rows)
            && Filter(db'.rows, NotAmong(ids)) == Filter(db.rows, NotAmong(ids))
    decreases |steps|
  {
    if steps != [] {
      var before := Run(db, steps[..|steps| - 1]);
      var step := steps[|steps| - 1];
      ShippingRun(db, steps[..|steps| - 1], ids);
      assert step in steps && Shipping(db.docs, step);
      if Next(before, step).Ok? {
        NextKeeps(before, step);
        ShippingRefills(before, step);
        ShippingRows(before, step, ids);
        RefilledTransitive(db, before, Next(before, step).value);
      }
    }
  }

  lemma {:induction false} RowsOfPosted(db: Db, ids: set<Id>)
    requires Ledger(db) && forall d :: d in ids ==> !IsPosted(db.docs, d)
    ensures Filter(db.rows, NotAmong(ids)) == db.rows
  {
    forall r | r in db.rows
      ensures NotAmong(ids)(r)
    {
      assert RowOk(db.docs, r);
    }
    FilterAll(db.rows, NotAmong(ids));
  }

  /** After any interleaving of posting and unposting some sales and supplier returns over
      a fixed set of batches, once all of these are unposted again, in any order, every
      batch and every allocation row is back to what it was, whatever else is posted. */
  lemma {:induction false} HistoryIndependence(db: Db, steps: seq<Step>, ids: set<Id>)
    requires Ledger(db) && ShipsOnly(db.docs, steps, ids)
    requires forall d :: d in ids ==> !IsPosted(db.docs, d) && !IsPosted(Run(db, steps).docs, d)
    ensures Run(db, steps).batches == db.batches && Run(db, steps).rows == db.rows
  {
    var db' := Run(db, steps);
    ShippingRun(db, steps, ids);
    RowsOfPosted(db, ids);
    RowsOfPosted(db', ids);
    SameRowsSameBatches(db.batches, db'.batches, db.rows);
  }

  lemma {:induction false} SameRowsSameBatches(bs: seq<Batch>, bs': seq<Batch>, rows: seq<Row>)
    requires Refilled(bs, rows, bs', rows)
    ensures bs' == bs
  {
    forall i | 0 <= i < |bs|
      ensures bs'[i] == bs[i]
    {
    }
  }
}
