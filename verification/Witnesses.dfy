// The weak spots of the code at concrete states it reaches: short runs after which a
// property one would hope for fails.

module Witnesses {
  import opened Sums
  import opened Fifo
  import opened Tables
  import opened Inventory
  import opened Documents
  import opened Conservation
  import opened Replay
  import opened Runs
  import H = History
  import E = Edits
  import K = Canonical
  import P = Payments
  import A = Reconciliation

  // ---- computing with short tables

  lemma {:induction false} SumOne<T>(x: T, f: T -> int)
    ensures Sum([x], f) == f(x)
  {
    SumSnoc([], x, f);
    assert [] + [x] == [x];
  }

  lemma {:induction false} SumTwo<T>(x: T, y: T, f: T -> int)
    ensures Sum([x, y], f) == f(x) + f(y)
  {
    SumOne(x, f);
    SumSnoc([x], y, f);
    assert [x] + [y] == [x, y];
  }

  lemma {:induction false} TotalTwo(a: nat, b: nat)
    ensures Total([a, b]) == a + b && Total([a]) == a
  {
    var one: seq<nat>, two: seq<nat> := [a], [a, b];
    assert one[..0] == [] && two[..1] == one;
    assert Total(one) == Total(one[..0]) + a && Total(two) == Total(two[..1]) + b;
  }

  lemma {:induction false} TakesTwo(a: nat, b: nat, need: nat)
    ensures Takes([a, b], need) == [Min(a, need), Min(b, need - Min(need, a))]
  {
    TotalTwo(a, b);
    assert [a, b][..0] == [] && [a, b][..1] == [a];
  }

  lemma {:induction false} RecordsOne<T, U>(x: T, a: nat, record: (T, nat) -> U)
    requires a > 0
    ensures Records([x], [a], record) == [record(x, a)]
  {
    var one, takes1: seq<nat> := [x], [a];
    assert one[..0] == [] && takes1[..0] == [];
    assert Records(one, takes1, record) == Records(one[..0], takes1[..0], record) + [record(x, a)];
  }

  lemma {:induction false} RecordsTwo<T, U>(x: T, y: T, a: nat, b: nat, record: (T, nat) -> U)
    requires a > 0 && b > 0
    ensures Records([x, y], [a, b], record) == [record(x, a), record(y, b)]
  {
    var one, two := [x], [x, y];
    var takes1: seq<nat>, takes2: seq<nat> := [a], [a, b];
    RecordsOne(x, a, record);
    assert two[..1] == one && takes2[..1] == takes1;
    assert Records(two, takes2, record) == Records(two[..1], takes2[..1], record) + [record(y, b)];
  }

  lemma {:induction false} Then(steps: seq<Step>, step: Step, mid: Db, after: Db)
    requires Run(EmptyDb, steps) == mid && Next(mid, step) == Ok(after)
    ensures Run(EmptyDb, steps + [step]) == after
  {
    assert (steps + [step])[..|steps|] == steps;
  }

  // ---- two lots of one product, sold across

  const Lots := [Item(7, 5, 10, 50), Item(7, 5, 12, 60)]
  const Basket := [Item(7, 7, 20, 140)]

  const Delivery := Doc(GoodsReceipt, 0, 0, Some(9), Lots, 110, 0, false, false)
  const Purchase := Doc(Sale, 1, 1, Some(9), Basket, 140, 0, false, false)

  const Lot1 := Batch(1, 7, 5, 5, 10, FromReceipt(0), 0)
  const Lot2 := Batch(2, 7, 5, 5, 12, FromReceipt(0), 0)

  const Drafted := Db(map[0 := Delivery], [], [], 1)
  const Delivered := Db(map[0 := Delivery.(posted := true)], [Lot1, Lot2], [], 3)
  const Ordered2 := Db(map[0 := Delivery.(posted := true), 3 := Purchase], [Lot1, Lot2], [], 4)
  const Sold2 := Db(map[0 := Delivery.(posted := true), 3 := Purchase.(posted := true, profit := 66)],
                    [Lot1.(left := 0), Lot2.(left := 3)], [Row(3, 0, 1, 5, 10), Row(3, 0, 2, 2, 12)], 4)

  const Selling := [New(GoodsReceipt, 0, 0, Some(9), 0, Lots), Post(0), New(Sale, 1, 1, Some(9), 140, Basket), Post(3)]

  lemma {:induction false} Draft()
    ensures Next(EmptyDb, New(GoodsReceipt, 0, 0, Some(9), 0, Lots)) == Ok(Drafted)
  {
    assert Priced(GoodsReceipt, Lots) == Lots;
    SumTwo(Lots[0], Lots[1], ItemTotal());
  }

  lemma {:induction false} Deliver()
    ensures Next(Drafted, Post(0)) == Ok(Delivered)
  {
    assert Lots[..1] == [Lots[0]] && Lots[..1][..0] == [];
    assert AddReceiptItems(Drafted, 0, [], 0) == Drafted;
    assert AddReceiptItems(Drafted, 0, Lots[..1], 0) == Drafted.(batches := [Lot1], nextId := 2);
    assert InsertBatch([Lot1], Lot2) == [Lot1, Lot2];
    assert AddReceiptItems(Drafted, 0, Lots, 0) == Drafted.(batches := [Lot1, Lot2], nextId := 3);
    assert Drafted.docs[0 := Delivery.(posted := true)] == Delivered.docs;
    assert PostReceipt(Drafted, 0) == Ok(Delivered);
  }

  lemma {:induction false} PlaceOrder()
    ensures Next(Delivered, New(Sale, 1, 1, Some(9), 140, Basket)) == Ok(Ordered2)
  {
    assert Priced(Sale, Basket) == Basket;
  }

  lemma {:induction false} SellDeducts()
    ensures DeductItems(Ordered2, 3, Some(9), Basket) == Ok(Ordered2.(batches := Sold2.batches, rows := Sold2.rows))
  {
    assert Basket[..0] == [];
    assert Caps(Ordered2.docs, [Lot1, Lot2], 7, Some(9)) == [5, 5];
    TakesTwo(5, 5, 7);
    TotalTwo(5, 5);
    assert Takes([5, 5], 7) == [5, 2];
    RecordsTwo(Lot1, Lot2, 5, 2, RowOf(3, 0));
    assert ApplyTakes([Lot1, Lot2], [5, 2]) == Sold2.batches;
    assert [] + Sold2.rows == Sold2.rows;
    assert Deduct(Ordered2, 3, 0, 7, Some(9), 7) == Ok(Ordered2.(batches := Sold2.batches, rows := Sold2.rows));
  }

  lemma {:induction false} Sell()
    ensures Next(Ordered2, Post(3)) == Ok(Sold2)
  {
    SellDeducts();
    var deducted := Ordered2.(batches := Sold2.batches, rows := Sold2.rows);
    assert Added(Ordered2, deducted) == [Sold2.rows[0], Sold2.rows[1]];
    SumTwo(Sold2.rows[0], Sold2.rows[1], RowCost());
    assert SalePosted(Ordered2, deducted, 3) == Sold2;
  }

  lemma {:induction false} SellingReaches()
    ensures Run(EmptyDb, Selling) == Sold2
  {
    Draft();
    Deliver();
    PlaceOrder();
    Sell();
    Then([], Selling[0], EmptyDb, Drafted);
    assert [] + [Selling[0]] == [Selling[0]];
    Then([Selling[0]], Selling[1], Drafted, Delivered);
    assert [Selling[0]] + [Selling[1]] == [Selling[0], Selling[1]];
    Then([Selling[0], Selling[1]], Selling[2], Delivered, Ordered2);
    assert [Selling[0], Selling[1]] + [Selling[2]] == [Selling[0], Selling[1], Selling[2]];
    Then([Selling[0], Selling[1], Selling[2]], Selling[3], Ordered2, Sold2);
    assert [Selling[0], Selling[1], Selling[2]] + [Selling[3]] == Selling;
  }

  /** The lots become one of ten: the first lot holds them all, the second is emptied. */
  const Merge := Edit(0, Patch(Some(0), Some(9), None, Some([Item(7, 10, 10, 100)])))

  lemma {:induction false} MergeMerges()
    ensures H.Merges(Sold2, Merge)
  {
    var items := [Item(7, 10, 10, 100)];
    SumOne(items[0], DemandOf(7));
    assert Or(Merge.patch.items, []) == items;
    assert !H.LaterUnsold(0, 7)(Sold2.batches[0], Sold2.batches[1]);
    assert !H.OnlyFirstSold(Sold2.batches, 0, 7);
  }

  lemma {:induction false} Accounts(steps: seq<Step>, db: Db)
    requires Run(EmptyDb, steps) == db && forall s :: s in steps ==> !s.Edit?
    ensures Ledger(db) && K.Plain(db) && ConservedPerBatch(db.batches, db.rows)
  {
    K.PlainOverRuns(steps);
    H.PerBatchOverRuns(steps);
  }

  lemma {:induction false} SoldAccounts()
    ensures Ledger(Sold2) && K.Plain(Sold2) && ConservedPerBatch(Sold2.batches, Sold2.rows)
  {
    SellingReaches();
    Accounts(Selling, Sold2);
  }

  lemma {:induction false} MergeCovers(items: seq<Item>, p: Id)
    requires items == [Item(7, 10, 10, 100)]
    ensures Demand(items, p) >= Sold(Sold2.batches, 0, p)
  {
    SumOne(items[0], DemandOf(p));
    SumTwo(Sold2.batches[0], Sold2.batches[1], SoldOf(0, p));
  }

  lemma {:induction false} MergeAccepted()
    ensures Next(Sold2, Merge).Ok?
  {
    var items := [Item(7, 10, 10, 100)];
    assert Merge.patch.items == Some(items) && Or(Merge.patch.items, []) == items;
    SoldAccounts();
    forall p
      ensures Demand(items, p) >= Sold(Sold2.batches, 0, p)
    {
      MergeCovers(items, p);
    }
    E.EditAccepted(Sold2, 0, Merge.patch);
  }

  /** A receipt of two lots, a sale across both, and an edit that makes them one: from then
      on phase one of an unfiltered repost is refused, whatever order its queries choose. */
  lemma {:induction false} MergeRefusesRepost(listing: Listing)
    requires Lists(Run(EmptyDb, Selling + [Merge]), Unfiltered, listing)
    ensures UnpostAll(Run(EmptyDb, Selling + [Merge]), listing.All()).Err?
  {
    SellingReaches();
    MergeAccepted();
    MergeMerges();
    SoldAccounts();
    Then(Selling, Merge, Sold2, Next(Sold2, Merge).value);
    K.MergedThenRefused(Sold2, Merge, listing);
  }

  // ---- a buyer return unposted after its stock was sold

  const Goods := [Item(7, 5, 20, 100)]

  const Refund := Doc(BuyerReturn, 0, 0, Some(9), Goods, 100, 0, false, false)
  const Resale := Doc(Sale, 1, 1, Some(9), Goods, 100, 0, false, false)

  const Returned := Batch(1, 7, 5, 5, 0, FromReturn(0, 0), 0)

  const Refunding := Db(map[0 := Refund], [], [], 1)
  const Refunded := Db(map[0 := Refund.(posted := true, profit := -100)], [Returned], [], 2)
  const Reselling := Db(map[0 := Refund.(posted := true, profit := -100), 2 := Resale], [Returned], [], 3)
  const Resold := Db(map[0 := Refund.(posted := true, profit := -100), 2 := Resale.(posted := true, profit := 100)],
                     [Returned.(left := 0)], [Row(2, 0, 1, 5, 0)], 3)

  const Trading := [New(BuyerReturn, 0, 0, Some(9), 0, Goods), Post(0), New(Sale, 1, 1, Some(9), 100, Goods), Post(2)]

  lemma {:induction false} TakeRefund()
    ensures Next(EmptyDb, New(BuyerReturn, 0, 0, Some(9), 0, Goods)) == Ok(Refunding)
    ensures Next(Refunding, Post(0)) == Ok(Refunded)
    ensures Next(Refunded, New(Sale, 1, 1, Some(9), 100, Goods)) == Ok(Reselling)
  {
    assert Priced(BuyerReturn, Goods) == Goods && Priced(Sale, Goods) == Goods;
    SumOne(Goods[0], ItemTotal());
    assert Goods[..0] == [];
    assert RestockItems(Refunding, 0, [], 0) == Restock(Refunding, 0);
    assert RestockItems(Refunding, 0, Goods, 0) == Restock(Refunding.(batches := [Returned], nextId := 2), -100);
    assert Refunding.docs[0 := Refund.(posted := true, profit := -100)] == Refunded.docs;
    assert PostReturn(Refunding, 0) == Ok(Refunded);
  }

  lemma {:induction false} ResellDeducts()
    ensures DeductItems(Reselling, 2, Some(9), Goods) == Ok(Reselling.(batches := Resold.batches, rows := Resold.rows))
  {
    var caps: seq<nat> := [5];
    assert Goods[..0] == [] && caps[..0] == [];
    assert Caps(Reselling.docs, [Returned], 7, Some(9)) == caps;
    assert Total(caps) == 5 && Takes(caps, 5) == caps;
    RecordsOne(Returned, 5, RowOf(2, 0));
    assert RowsFor([Returned], caps, 2, 0) == Resold.rows;
    assert ApplyTakes([Returned], caps) == Resold.batches;
    assert Deduct(Reselling, 2, 0, 7, Some(9), 5) == Ok(Reselling.(batches := Resold.batches, rows := Resold.rows));
  }

  lemma {:induction false} Resell()
    ensures Next(Reselling, Post(2)) == Ok(Resold)
  {
    ResellDeducts();
    var deducted := Reselling.(batches := Resold.batches, rows := Resold.rows);
    assert Added(Reselling, deducted) == [Resold.rows[0]];
    SumOne(Resold.rows[0], RowCost());
    assert SalePosted(Reselling, deducted, 2) == Resold;
  }

  lemma {:induction false} TradingReaches()
    ensures Run(EmptyDb, Trading) == Resold
  {
    TakeRefund();
    Resell();
    Then([], Trading[0], EmptyDb, Refunding);
    assert [] + [Trading[0]] == [Trading[0]];
    Then([Trading[0]], Trading[1], Refunding, Refunded);
    assert [Trading[0]] + [Trading[1]] == [Trading[0], Trading[1]];
    Then([Trading[0], Trading[1]], Trading[2], Refunded, Reselling);
    assert [Trading[0], Trading[1]] + [Trading[2]] == [Trading[0], Trading[1], Trading[2]];
    Then([Trading[0], Trading[1], Trading[2]], Trading[3], Reselling, Resold);
    assert [Trading[0], Trading[1], Trading[2]] + [Trading[3]] == Trading;
  }

  lemma {:induction false} ResoldUnposts()
    ensures UnpostReturn(Resold, 0).Ok? && Next(Resold, Unpost(0)) == UnpostReturn(Resold, 0)
  {
  }

  lemma {:induction false} ResoldConsumed()
    ensures H.Consumed(Resold, 0)
  {
    assert Resold.rows[0] in Resold.rows && Resold.batches[0] in Resold.batches;
  }

  lemma {:induction false} UnpostingUnbacks(steps: seq<Step>, db: Db, id: Id)
    requires Run(EmptyDb, steps) == db && (forall s :: s in steps ==> !s.Unpost?)
    requires Next(db, Unpost(id)) == UnpostReturn(db, id) && UnpostReturn(db, id).Ok? && H.Consumed(db, id)
    ensures !H.FullyBacked(Run(EmptyDb, steps + [Unpost(id)]))
  {
    H.BackedOverRuns(steps);
    LedgerOverRuns(steps);
    H.UnpostReturnBacked(db, id);
    Then(steps, Unpost(id), db, UnpostReturn(db, id).value);
  }

  /** A return restocked, its stock sold, and the return unposted: the posted sale is left
      without the stock it was sold from. */
  lemma {:induction false} UnpostedReturnUnbacks()
    ensures Next(Resold, Unpost(0)).Ok? && !H.FullyBacked(Run(EmptyDb, Trading + [Unpost(0)]))
  {
    TradingReaches();
    ResoldUnposts();
    ResoldConsumed();
    UnpostingUnbacks(Trading, Resold, 0);
  }

  // ---- a payment saved again after an older debt appeared

  const Client: P.Terms := P.Terms(P.INCOME, Some(1), 10)

  const Paying := [
    P.Enter(P.Realization, Some(1), 5, 10), P.SetPosted(0, true), P.Pay(Client),
    P.Enter(P.Realization, Some(1), 1, 10), P.SetPosted(2, true)]

  const Younger := P.Debt(0, P.Realization, Some(1), 5, 10, 0, true)
  const Older := P.Debt(2, P.Realization, Some(1), 1, 10, 0, true)

  const Paid := P.Books([Older, Younger.(paid := 10)], map[1 := P.Payment(Client, false)],
                        [P.Alloc(1, P.Realization, 0, 10)], 3)

  const Entered := P.Books([Younger.(posted := false)], map[], [], 1)
  const Posted := P.Books([Younger], map[], [], 1)
  const Settled := P.Books([Younger.(paid := 10)], map[1 := P.Payment(Client, false)],
                           [P.Alloc(1, P.Realization, 0, 10)], 2)
  const Backdated := Settled.(debts := [Older.(posted := false), Younger.(paid := 10)], nextId := 3)

  lemma {:induction false} AndThen(steps: seq<P.Step>, step: P.Step, mid: P.Books, after: P.Books)
    requires P.Run(P.EmptyBooks, steps) == mid && P.Next(mid, step) == after
    ensures P.Run(P.EmptyBooks, steps + [step]) == after
  {
    assert (steps + [step])[..|steps|] == steps;
  }

  lemma {:induction false} EnterAndPost()
    ensures P.Next(P.EmptyBooks, Paying[0]) == Entered && P.Next(Entered, Paying[1]) == Posted
  {
  }

  lemma {:induction false} PayYounger()
    ensures P.Next(Posted, Paying[2]) == Settled
  {
    var caps: seq<nat> := [10];
    assert caps[..0] == [];
    RecordsOne(Younger, 10, P.AllocOf(1));
    assert P.Owed([Younger], Client) == caps && Takes(caps, 10) == caps;
    assert P.PayOff([Younger], caps) == [Younger.(paid := 10)];
  }

  lemma {:induction false} EnterOlder()
    ensures P.Next(Settled, Paying[3]) == Backdated
  {
    var paid, older := Younger.(paid := 10), Older.(posted := false);
    assert [paid][..0] == [] && P.DebtDate()(paid) == 5 && P.DebtDate()(older) == 1;
    assert InsertBy([], older, P.DebtDate()) == [older];
    assert InsertBy([paid], older, P.DebtDate()) == [older] + [paid];
  }

  lemma {:induction false} PostOlder()
    ensures P.Next(Backdated, Paying[4]) == Paid
  {
  }

  lemma {:induction false} PayingReaches()
    ensures P.Run(P.EmptyBooks, Paying) == Paid
  {
    EnterAndPost();
    PayYounger();
    EnterOlder();
    PostOlder();
    AndThen([], Paying[0], P.EmptyBooks, Entered);
    assert [] + [Paying[0]] == [Paying[0]];
    AndThen([Paying[0]], Paying[1], Entered, Posted);
    assert [Paying[0]] + [Paying[1]] == [Paying[0], Paying[1]];
    AndThen([Paying[0], Paying[1]], Paying[2], Posted, Settled);
    assert [Paying[0], Paying[1]] + [Paying[2]] == [Paying[0], Paying[1], Paying[2]];
    AndThen([Paying[0], Paying[1], Paying[2]], Paying[3], Settled, Backdated);
    assert [Paying[0], Paying[1], Paying[2]] + [Paying[3]] == [Paying[0], Paying[1], Paying[2], Paying[3]];
    AndThen([Paying[0], Paying[1], Paying[2], Paying[3]], Paying[4], Backdated, Paid);
    assert [Paying[0], Paying[1], Paying[2], Paying[3]] + [Paying[4]] == Paying;
  }

  /** A sale is paid, then an older unpaid one is entered: saving the payment again
      unchanged moves it to the older sale. */
  lemma {:induction false} ResaveMoves()
    ensures P.Edit(P.Run(P.EmptyBooks, Paying), 1, Client).Some?
    ensures P.Edit(P.Run(P.EmptyBooks, Paying), 1, Client).value.debts != P.Run(P.EmptyBooks, Paying).debts
  {
    PayingReaches();
    P.BalancedOverRuns(Paying);
    var given := P.Given(Paid, 1);
    SumOne(Paid.allocs[0], P.PaidByOf(1, Paid.debts[0]));
    SumOne(Paid.allocs[0], P.PaidByOf(1, Paid.debts[1]));
    assert given[0] == 0 && given[1] == 10;
    assert P.Pays(Client, Paid.debts[0]) && Paid.debts[0].paid < Paid.debts[0].amount;
    P.ResaveRestores(Paid, 1, Client);
  }

  // ---- a transaction that only the ledger counts

  const Adjustment := A.Entry(A.OTHER, 1, 0, 5)

  /** With one transaction of an unknown type on day 0, the window up to that day closes with
      five and the window of the next day opens with nothing. */
  lemma {:induction false} UnknownTypeBreaksWindows()
    ensures A.Closing([Adjustment], 1, None, Some(0)) == 5
    ensures A.Opening([Adjustment], 1, Some(1)) == 0
  {
    SumOne(Adjustment, A.OpeningOf(1, 1));
    SumOne(Adjustment, A.OtherOf(1, None, 1));
    A.WindowsCompose([Adjustment], 1, None, 1);
  }
}
