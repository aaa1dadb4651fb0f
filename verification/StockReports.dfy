// The stock-balances and inventory-movement reports, recomputed from batches and
// allocation rows, against the cached quantities and against each other.

module StockReports {
  import opened Sums
  import opened Tables
  import opened Inventory
  import opened Documents
  import opened Conservation
  import opened Runs

  /** Timestamps count milliseconds; a report date is a day number. */
  const DAY := 24 * 60 * 60 * 1000

  function DayStart(day: int): int {
    day * DAY
  }

  // ---- stock balances

  /** The date of the document a batch came from; an arrival has none. */
  function SourceDate(docs: map<Id, Doc>, b: Batch): Option<int> {
    match b.source
    case Arrival => None
    case FromReceipt(d) => if d in docs && docs[d].kind.GoodsReceipt? then Some(docs[d].date) else None
    case FromReturn(d, _) => if d in docs && docs[d].kind.BuyerReturn? then Some(docs[d].date) else None
  }

  predicate DatedBefore(date: Option<int>, end: int) {
    date.Some? && date.value < end
  }

  /** What posted sales and supplier returns dated before `end` took from a batch. */
  function PostedOutOf(docs: map<Id, Doc>, end: int, batch: Id): Row -> int {
    (r: Row) =>
      if r.batch == batch && IsPosted(docs, r.doc) && Outgoing(docs[r.doc].kind) && docs[r.doc].date < end then r.qty
      else 0
  }

  function BatchBalance(db: Db, end: int, b: Batch): int {
    (if DatedBefore(SourceDate(db.docs, b), end) then b.total else 0) - Sum(db.rows, PostedOutOf(db.docs, end, b.id))
  }

  predicate LiesIn(docs: map<Id, Doc>, b: Batch, product: Id, warehouse: Id) {
    b.product == product && WarehouseOf(docs, b) == Some(warehouse)
  }

  function BalanceOf(db: Db, product: Id, warehouse: Id, end: int): Batch -> int {
    (b: Batch) => if LiesIn(db.docs, b, product, warehouse) then BatchBalance(db, end, b) else 0
  }

  /** The balance the stock-balances report shows for a product and warehouse at the end of a day. */
  function StockBalance(db: Db, product: Id, warehouse: Id, day: int): int {
    Sum(db.batches, BalanceOf(db, product, warehouse, DayStart(day + 1)))
  }

  function LeftOf(docs: map<Id, Doc>, product: Id, warehouse: Id): Batch -> int {
    (b: Batch) => if LiesIn(docs, b, product, warehouse) then b.left else 0
  }

  function GapIn(docs: map<Id, Doc>, rows: seq<Row>, product: Id, warehouse: Id): Batch -> int {
    (b: Batch) => if LiesIn(docs, b, product, warehouse) then Gap(rows, b) else 0
  }

  /** Groups lie in one warehouse each, so what holds per group holds per warehouse. */
  lemma {:induction false} NoGapIn(docs: map<Id, Doc>, bs: seq<Batch>, rows: seq<Row>, product: Id, warehouse: Id)
    requires Conserved(bs, rows)
    ensures Sum(bs, GapIn(docs, rows, product, warehouse)) == 0
  {
    var keep := (b: Batch) => LiesIn(docs, b, product, warehouse);
    NoGapWhere(bs, rows, keep);
    SumSame(bs, bs, GapIn(docs, rows, product, warehouse), GapWhere(rows, keep));
  }

  /** On a day no posted document lies after, the report shows exactly the cached
      quantities left of the documents' batches. */
  lemma {:induction false} BalanceIsLeft(db: Db, product: Id, warehouse: Id, day: int)
    requires Ledger(db)
    requires forall d :: IsPosted(db.docs, d) ==> db.docs[d].date < DayStart(day + 1)
    ensures StockBalance(db, product, warehouse, day) == Sum(db.batches, LeftOf(db.docs, product, warehouse))
  {
    var balance := BalanceOf(db, product, warehouse, DayStart(day + 1));
    forall b | b in db.batches
      ensures balance(b) == LeftOf(db.docs, product, warehouse)(b) + GapIn(db.docs, db.rows, product, warehouse)(b)
    {
      if LiesIn(db.docs, b, product, warehouse) {
        assert SourceOk(db.docs, b.source);
        AllRowsCount(db, DayStart(day + 1), b.id);
      }
    }
    SumPlus(db.batches, LeftOf(db.docs, product, warehouse), GapIn(db.docs, db.rows, product, warehouse), balance);
    NoGapIn(db.docs, db.batches, db.rows, product, warehouse);
  }

  lemma {:induction false} AllRowsCount(db: Db, end: int, batch: Id)
    requires Owned(db.docs, db.batches, db.rows)
    requires forall d :: IsPosted(db.docs, d) ==> db.docs[d].date < end
    ensures Sum(db.rows, PostedOutOf(db.docs, end, batch)) == Used(db.rows, batch)
  {
    forall i | 0 <= i < |db.rows|
      ensures PostedOutOf(db.docs, end, batch)(db.rows[i]) == UsedOf(batch)(db.rows[i])
    {
      assert RowOk(db.docs, db.rows[i]);
    }
    SumSame(db.rows, db.rows, PostedOutOf(db.docs, end, batch), UsedOf(batch));
  }

  /** Days follow one another without gap, each of 86,400,000 milliseconds. */
  lemma {:induction false} DayHolds(t: int, day: int)
    ensures DayStart(day) <= t < DayStart(day + 1) <==> t / 86_400_000 == day
  {
  }

  /** So the report of such a day shows what can be deducted of the product from the warehouse. */
  lemma {:induction false} BalanceIsAvailable(db: Db, product: Id, warehouse: Id, day: int)
    requires Ledger(db)
    requires forall d :: IsPosted(db.docs, d) ==> db.docs[d].date / 86_400_000 <= day
    ensures StockBalance(db, product, warehouse, day) == Available(db.docs, db.batches, product, Some(warehouse))
  {
    forall d | IsPosted(db.docs, d)
      ensures db.docs[d].date < DayStart(day + 1)
    {
      DayHolds(db.docs[d].date, db.docs[d].date / 86_400_000);
    }
    BalanceIsLeft(db, product, warehouse, day);
    SumSame(db.batches, db.batches, LeftOf(db.docs, product, warehouse), CapOf(db.docs, product, Some(warehouse)));
  }

  // ---- inventory movement

  predicate Within(date: int, from: Option<int>, end: int) {
    (from.Some? ==> from.value <= date) && date < end
  }

  function IncomingOf(docs: map<Id, Doc>, product: Id, warehouse: Id, from: Option<int>, end: int): Batch -> int {
    (b: Batch) =>
      if LiesIn(docs, b, product, warehouse) && SourceDate(docs, b).Some?
         && Within(SourceDate(docs, b).value, from, end)
      then b.total else 0
  }

  /** Quantities that came in between two timestamps; no lower bound counts from the beginning. */
  function Incoming(db: Db, product: Id, warehouse: Id, from: Option<int>, end: int): int {
    Sum(db.batches, IncomingOf(db.docs, product, warehouse, from, end))
  }

  /** The join of an allocation row with its batch. */
  function BatchOf(bs: seq<Batch>, id: Id): Option<Batch>
    decreases |bs|
  {
    if bs == [] then None
    else if bs[|bs| - 1].id == id then Some(bs[|bs| - 1])
    else BatchOf(bs[..|bs| - 1], id)
  }

  function OutgoingOf(docs: map<Id, Doc>, bs: seq<Batch>, product: Id, warehouse: Id, from: Option<int>,
                      end: int): Row -> int {
    (r: Row) =>
      var b := BatchOf(bs, r.batch);
      if b.Some? && LiesIn(docs, b.value, product, warehouse) && r.doc in docs && Outgoing(docs[r.doc].kind)
         && Within(docs[r.doc].date, from, end)
      then r.qty else 0
  }

  /** Quantities allocated between two timestamps; the movement report does not look at
      the status of the document. */
  function OutgoingQty(db: Db, product: Id, warehouse: Id, from: Option<int>, end: int): int {
    Sum(db.rows, OutgoingOf(db.docs, db.batches, product, warehouse, from, end))
  }

  function StartBalance(db: Db, product: Id, warehouse: Id, from: int): int {
    Incoming(db, product, warehouse, None, DayStart(from)) - OutgoingQty(db, product, warehouse, None, DayStart(from))
  }

  /** The closing balance of the movement report over the days `from` to `to`. */
  function EndBalance(db: Db, product: Id, warehouse: Id, from: int, to: int): int {
    StartBalance(db, product, warehouse, from)
    + Incoming(db, product, warehouse, Some(DayStart(from)), DayStart(to + 1))
    - OutgoingQty(db, product, warehouse, Some(DayStart(from)), DayStart(to + 1))
  }

  /** Before a day and within it add up to before its end. */
  lemma {:induction false} WindowsAdd(db: Db, product: Id, warehouse: Id, from: int, end: int)
    requires from <= end
    ensures Incoming(db, product, warehouse, None, end)
            == Incoming(db, product, warehouse, None, from) + Incoming(db, product, warehouse, Some(from), end)
    ensures OutgoingQty(db, product, warehouse, None, end)
            == OutgoingQty(db, product, warehouse, None, from) + OutgoingQty(db, product, warehouse, Some(from), end)
  {
    SumPlus(db.batches, IncomingOf(db.docs, product, warehouse, None, from),
            IncomingOf(db.docs, product, warehouse, Some(from), end),
            IncomingOf(db.docs, product, warehouse, None, end));
    SumPlus(db.rows, OutgoingOf(db.docs, db.batches, product, warehouse, None, from),
            OutgoingOf(db.docs, db.batches, product, warehouse, Some(from), end),
            OutgoingOf(db.docs, db.batches, product, warehouse, None, end));
  }

  /** The movement report closes where the report of the next period opens. */
  lemma {:induction false} MovementComposes(db: Db, product: Id, warehouse: Id, from: int, to: int)
    requires from <= to
    ensures EndBalance(db, product, warehouse, from, to) == StartBalance(db, product, warehouse, to + 1)
  {
    WindowsAdd(db, product, warehouse, DayStart(from), DayStart(to + 1));
  }

  /** The quantity of a row that meets a batch in the join and falls before `end`. */
  function Pair(docs: map<Id, Doc>, product: Id, warehouse: Id, end: int, b: Batch, r: Row): int {
    if b.id == r.batch && LiesIn(docs, b, product, warehouse) && r.doc in docs && Outgoing(docs[r.doc].kind)
       && docs[r.doc].date < end
    then r.qty else 0
  }

  function PairsOfBatch(docs: map<Id, Doc>, product: Id, warehouse: Id, end: int, b: Batch): Row -> int {
    (r: Row) => Pair(docs, product, warehouse, end, b, r)
  }

  function PairsOfRow(docs: map<Id, Doc>, product: Id, warehouse: Id, end: int, r: Row): Batch -> int {
    (b: Batch) => Pair(docs, product, warehouse, end, b, r)
  }

  /** With ids as keys, a row meets at most one batch of the join. */
  lemma {:induction false} JoinOnce(docs: map<Id, Doc>, bs: seq<Batch>, product: Id, warehouse: Id, end: int, r: Row)
    requires DistinctIds(bs)
    ensures Sum(bs, PairsOfRow(docs, product, warehouse, end, r))
            == OutgoingOf(docs, bs, product, warehouse, None, end)(r)
    decreases |bs|
  {
    if bs != [] {
      var n := |bs| - 1;
      if bs[n].id == r.batch {
        SumZero(bs[..n], PairsOfRow(docs, product, warehouse, end, r));
      } else {
        JoinOnce(docs, bs[..n], product, warehouse, end, r);
      }
    }
  }

  /** One batch's share of what left the warehouse. */
  function OutOfBatch(db: Db, product: Id, warehouse: Id, end: int): Batch -> int {
    (b: Batch) => if LiesIn(db.docs, b, product, warehouse) then Sum(db.rows, PostedOutOf(db.docs, end, b.id)) else 0
  }

  lemma {:induction false} BatchShare(db: Db, product: Id, warehouse: Id, end: int, b: Batch)
    requires Owned(db.docs, db.batches, db.rows)
    ensures Sum(db.rows, PairsOfBatch(db.docs, product, warehouse, end, b))
            == OutOfBatch(db, product, warehouse, end)(b)
  {
    var f := PairsOfBatch(db.docs, product, warehouse, end, b);
    if LiesIn(db.docs, b, product, warehouse) {
      forall i | 0 <= i < |db.rows|
        ensures f(db.rows[i]) == PostedOutOf(db.docs, end, b.id)(db.rows[i])
      {
        assert RowOk(db.docs, db.rows[i]);
      }
      SumSame(db.rows, db.rows, f, PostedOutOf(db.docs, end, b.id));
    } else {
      SumZero(db.rows, f);
    }
  }

  /** Summing what left over the rows or over the batches is the same. */
  lemma {:induction false} OutgoingByBatch(db: Db, product: Id, warehouse: Id, end: int)
    requires Ledger(db)
    ensures OutgoingQty(db, product, warehouse, None, end) == Sum(db.batches, OutOfBatch(db, product, warehouse, end))
  {
    var h := (b: Batch) => PairsOfBatch(db.docs, product, warehouse, end, b);
    var k := (r: Row) => PairsOfRow(db.docs, product, warehouse, end, r);
    forall b | b in db.batches
      ensures OutOfBatch(db, product, warehouse, end)(b) == Sum(db.rows, h(b))
    {
      BatchShare(db, product, warehouse, end, b);
    }
    forall r | r in db.rows
      ensures OutgoingOf(db.docs, db.batches, product, warehouse, None, end)(r) == Sum(db.batches, k(r))
    {
      JoinOnce(db.docs, db.batches, product, warehouse, end, r);
    }
    SumExchange(db.batches, db.rows, h, k, OutOfBatch(db, product, warehouse, end),
                OutgoingOf(db.docs, db.batches, product, warehouse, None, end));
  }

  /** The two reports agree: a movement report closes with the stock balance of its last
      day, although only one of them filters on posted documents. */
  lemma {:induction false} MovementAgrees(db: Db, product: Id, warehouse: Id, from: int, to: int)
    requires Ledger(db) && from <= to
    ensures EndBalance(db, product, warehouse, from, to) == StockBalance(db, product, warehouse, to)
  {
    var end := DayStart(to + 1);
    WindowsAdd(db, product, warehouse, DayStart(from), end);
    OutgoingByBatch(db, product, warehouse, end);
    var incoming := IncomingOf(db.docs, product, warehouse, None, end);
    SumPlus(db.batches, BalanceOf(db, product, warehouse, end), OutOfBatch(db, product, warehouse, end), incoming);
  }
}
