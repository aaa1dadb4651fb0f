// The tables behind the stock ledger, as values: documents, stock batches in FIFO
// order, and the allocation rows that sales and supplier returns write against
// batches. Quantities are whole thousandths; money is kept in the unit of
// quantity times price, so nothing is ever rounded.

module Tables {
  import opened Sums

  type Id = nat

  datatype Kind = GoodsReceipt | BuyerReturn | Sale | SupplierReturn

  datatype Item = Item(product: Id, quantity: nat, price: int, total: int)

  /** A document header with its items; `posted` is the one status the ledger looks at
      (a receipt that is not posted is SAVED, every other document is DRAFT). */
  datatype Doc = Doc(
    kind: Kind, date: int, created: int, warehouse: Option<Id>, items: seq<Item>,
    amount: int, profit: int, posted: bool, deleted: bool)

  /** The document a batch came from; a manual arrival has none. A buyer return also
      links each of its items to the batch made for it. */
  datatype Source = Arrival | FromReceipt(doc: Id) | FromReturn(doc: Id, item: nat)

  datatype Batch = Batch(
    id: Id, product: Id, total: int, left: int, price: int, source: Source, createdAt: int)

  /** One allocation: `qty` of batch `batch` sold or returned by item `item` of `doc`. */
  datatype Row = Row(doc: Id, item: nat, batch: Id, qty: int, price: int)

  datatype Db = Db(docs: map<Id, Doc>, batches: seq<Batch>, rows: seq<Row>, nextId: Id)

  datatype Error =
    | NotFound
    | AlreadyPosted
    | NotPosted
    | Locked
    | Invalid
    | AlreadySold
    | BelowSold(product: Id, sold: int)
    | InsufficientStock(product: Id, needed: nat, missing: nat)

  datatype Result<+T> = Ok(value: T) | Err(error: Error) {
    predicate IsFailure() { Err? }

    function PropagateFailure<U>(): Result<U>
      requires Err?
    {
      Err(error)
    }

    function Extract(): T
      requires Ok?
    {
      value
    }
  }

  // ---- aggregates over the rows

  function UsedOf(batch: Id): Row -> int {
    (r: Row) => if r.batch == batch then r.qty else 0
  }

  /** What the allocation rows take from a batch. */
  function Used(rows: seq<Row>, batch: Id): int {
    Sum(rows, UsedOf(batch))
  }

  function UsedByOf(doc: Id, batch: Id): Row -> int {
    (r: Row) => if r.doc == doc && r.batch == batch then r.qty else 0
  }

  /** What one document takes from a batch. */
  function UsedBy(rows: seq<Row>, doc: Id, batch: Id): int {
    Sum(rows, UsedByOf(doc, batch))
  }

  function BackingOf(doc: Id, item: nat): Row -> int {
    (r: Row) => if r.doc == doc && r.item == item then r.qty else 0
  }

  /** How much of a document's item is backed by allocation rows. */
  function Backing(rows: seq<Row>, doc: Id, item: nat): int {
    Sum(rows, BackingOf(doc, item))
  }

  function RowCost(): Row -> int {
    (r: Row) => r.qty * r.price
  }

  /** The purchase cost recorded by allocation rows. */
  function Cost(rows: seq<Row>): int {
    Sum(rows, RowCost())
  }

  // ---- aggregates over the items

  function DemandOf(product: Id): Item -> int {
    (i: Item) => if i.product == product then i.quantity else 0
  }

  function Demand(items: seq<Item>, product: Id): (r: nat)
  {
    SumNonNegative(items, DemandOf(product));
    Sum(items, DemandOf(product))
  }

  function ItemTotal(): Item -> int {
    (i: Item) => i.total
  }

  function ItemsTotal(items: seq<Item>): int {
    Sum(items, ItemTotal())
  }

  // ---- batches

  function BatchIds(bs: seq<Batch>): set<Id> {
    set b | b in bs :: b.id
  }

  /** Where a batch lies: the warehouse of its receipt or return, none for an arrival.
      A document without a warehouse holds stock nobody can deduct. */
  function WarehouseOf(docs: map<Id, Doc>, b: Batch): Option<Id> {
    match b.source
    case Arrival => None
    case FromReceipt(d) => if d in docs && docs[d].kind.GoodsReceipt? then docs[d].warehouse else None
    case FromReturn(d, _) => if d in docs && docs[d].kind.BuyerReturn? then docs[d].warehouse else None
  }

  /** What a deduction of `product` from `warehouse` may take from a batch. */
  function CapOf(docs: map<Id, Doc>, product: Id, warehouse: Option<Id>): Batch -> nat {
    (b: Batch) =>
      if b.product == product && b.left > 0 && warehouse.Some? && WarehouseOf(docs, b) == warehouse then b.left else 0
  }

  function Caps(docs: map<Id, Doc>, bs: seq<Batch>, product: Id, warehouse: Option<Id>): seq<nat> {
    Map(bs, CapOf(docs, product, warehouse))
  }

  /** The stock of a product available in a warehouse. */
  function Available(docs: map<Id, Doc>, bs: seq<Batch>, product: Id, warehouse: Option<Id>): (r: nat)
  {
    SumNonNegative(bs, CapOf(docs, product, warehouse));
    Sum(bs, CapOf(docs, product, warehouse))
  }

  ghost predicate DistinctIds(bs: seq<Batch>) {
    forall i, j :: 0 <= i < j < |bs| ==> bs[i].id != bs[j].id
  }

  /** Oldest first. */
  ghost predicate Chronological(bs: seq<Batch>) {
    forall i, j :: 0 <= i < j < |bs| ==> bs[i].createdAt <= bs[j].createdAt
  }

  function Find(db: Db, id: Id, kind: Kind): Result<Doc> {
    if id in db.docs && db.docs[id].kind == kind then Ok(db.docs[id]) else Err(NotFound)
  }
}
