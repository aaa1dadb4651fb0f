// The document services as functions on the tables: creating, editing, deleting,
// posting and unposting receipts, buyer returns, sales and supplier returns. Each
// function is one transaction; an error result means the transaction rolled back.

module Documents {
  import opened Sums
  import opened Tables
  import opened Inventory

  // ---- goods receipts

  function AddReceiptItems(db: Db, doc: Id, items: seq<Item>, date: int): (r: Db)
    ensures r.docs == db.docs && r.rows == db.rows
    decreases |items|
  {
    if items == [] then db
    else
      var n := |items| - 1;
      AddStock(AddReceiptItems(db, doc, items[..n], date),
               items[n].product, items[n].quantity, items[n].price, FromReceipt(doc), date)
  }

  function PostReceipt(db: Db, id: Id): Result<Db> {
    var doc :- Find(db, id, GoodsReceipt);
    if doc.posted then Err(AlreadyPosted)
    else
      var stocked := AddReceiptItems(db, id, doc.items, doc.date);
      Ok(stocked.(docs := db.docs[id := doc.(posted := true)]))
  }

  function OfReceipt(bs: seq<Batch>, id: Id): set<Id> {
    set b | b in bs && b.source == FromReceipt(id) :: b.id
  }

  /** The unposting guard: some batch of the receipt holds less than it came with. */
  predicate PartlySold(bs: seq<Batch>, id: Id) {
    exists b :: b in bs && b.source == FromReceipt(id) && b.left < b.total
  }

  function UnpostReceipt(db: Db, id: Id): Result<Db> {
    var doc :- Find(db, id, GoodsReceipt);
    if !doc.posted then Err(NotPosted)
    else if PartlySold(db.batches, id) then Err(AlreadySold)
    else
      var cleared := DeleteBatches(db, OfReceipt(db.batches, id));
      Ok(cleared.(docs := db.docs[id := doc.(posted := false)]))
  }

  // ---- editing a posted receipt

  /** The batches one receipt holds of one product. */
  predicate InGroup(b: Batch, receipt: Id, product: Id) {
    b.source == FromReceipt(receipt) && b.product == product
  }

  function SoldOf(receipt: Id, product: Id): Batch -> int {
    (b: Batch) => if InGroup(b, receipt, product) then b.total - b.left else 0
  }

  /** What the batches of a group say was sold from them. */
  function Sold(bs: seq<Batch>, receipt: Id, product: Id): int {
    Sum(bs, SoldOf(receipt, product))
  }

  function OfGroup(bs: seq<Batch>, receipt: Id, product: Id): set<Id> {
    set b | b in bs && InGroup(b, receipt, product) :: b.id
  }

  /** The first batch of the group holds the new quantities; the others are emptied. */
  function Resize(bs: seq<Batch>, receipt: Id, product: Id, total: int, left: int, price: int): (r: seq<Batch>)
    ensures |r| == |bs|
    decreases |bs|
  {
    if bs == [] then []
    else if InGroup(bs[0], receipt, product) then
      [bs[0].(total := total, left := left, price := price)] + Map(bs[1..], Emptied(receipt, product))
    else
      [bs[0]] + Resize(bs[1..], receipt, product, total, left, price)
  }

  function Emptied(receipt: Id, product: Id): Batch -> Batch {
    (b: Batch) => if InGroup(b, receipt, product) then b.(total := 0, left := 0) else b
  }

  /** The products of a receipt's batches, each once, in table order. */
  function BatchProducts(bs: seq<Batch>, receipt: Id): (r: seq<Id>)
    ensures forall p :: p in r <==> exists b :: b in bs && InGroup(b, receipt, p)
    decreases |bs|
  {
    if bs == [] then []
    else
      var n := |bs| - 1;
      var r := BatchProducts(bs[..n], receipt);
      assert forall b :: b in bs <==> b in bs[..n] || b == bs[n];
      assert bs[n] in bs && (bs[n].source == FromReceipt(receipt) ==> InGroup(bs[n], receipt, bs[n].product));
      if bs[n].source == FromReceipt(receipt) && bs[n].product !in r then r + [bs[n].product] else r
  }

  /** The products of the items, each once, in order of first mention. */
  function ItemProducts(items: seq<Item>): (r: seq<Id>)
    ensures forall p :: p in r <==> exists i :: i in items && i.product == p
    decreases |items|
  {
    if items == [] then []
    else
      var n := |items| - 1;
      var r := ItemProducts(items[..n]);
      assert forall i :: i in items <==> i in items[..n] || i == items[n];
      if items[n].product !in r then r + [items[n].product] else r
  }

  /** The price of the first item of a product. */
  function FirstPrice(items: seq<Item>, product: Id): int {
    if items == [] then 0
    else if items[0].product == product then items[0].price
    else FirstPrice(items[1..], product)
  }

  /** Brings one product of a posted receipt to its new quantity. */
  function EditProduct(db: Db, receipt: Id, product: Id, items: seq<Item>): Result<Db> {
    var sold := Sold(db.batches, receipt, product);
    var total := Demand(items, product);
    if total < sold then Err(BelowSold(product, sold))
    else if total == 0 && sold == 0 then Ok(DeleteBatches(db, OfGroup(db.batches, receipt, product)))
    else if total > 0 then
      Ok(db.(batches := Resize(db.batches, receipt, product, total, total - sold, FirstPrice(items, product))))
    else Ok(db)
  }

  function EditProducts(db: Db, receipt: Id, products: seq<Id>, items: seq<Item>): Result<Db>
    decreases |products|
  {
    if products == [] then Ok(db)
    else
      var n := |products| - 1;
      var before :- EditProducts(db, receipt, products[..n], items);
      EditProduct(before, receipt, products[n], items)
  }

  /** Adds a batch for every product of the items that the receipt did not hold before. */
  function AddNewProducts(db: Db, receipt: Id, products: seq<Id>, known: seq<Id>, items: seq<Item>, date: int): (r: Db)
    ensures r.docs == db.docs && r.rows == db.rows
    decreases |products|
  {
    if products == [] then db
    else
      var n := |products| - 1;
      var before := AddNewProducts(db, receipt, products[..n], known, items, date);
      if products[n] in known then before
      else AddStock(before, products[n], Demand(items, products[n]), FirstPrice(items, products[n]),
                    FromReceipt(receipt), date)
  }

  /** Brings the batches of a posted receipt in line with its new items. */
  function EditStock(db: Db, id: Id, items: seq<Item>, date: int): Result<Db> {
    var known := BatchProducts(db.batches, id);
    var resized :- EditProducts(db, id, known, items);
    Ok(AddNewProducts(resized, id, ItemProducts(items), known, items, date))
  }

  /** Header fields and items of an edit request; a missing field is None. */
  datatype Patch = Patch(date: Option<int>, warehouse: Option<Id>, amount: Option<int>, items: Option<seq<Item>>)

  function Or<T>(o: Option<T>, default: T): T {
    match o case Some(v) => v case None => default
  }

  function UpdateReceipt(db: Db, id: Id, patch: Patch): Result<Db> {
    var doc :- Find(db, id, GoodsReceipt);
    if patch.date.None? then Err(Invalid)
    else
      var items := Or(patch.items, []);
      var edited := doc.(date := patch.date.value, warehouse := patch.warehouse, items := items,
                         amount := ItemsTotal(items));
      var renamed := db.(docs := db.docs[id := edited]);
      if doc.posted then EditStock(renamed, id, items, patch.date.value) else Ok(renamed)
  }

  // ---- buyer returns

  /** The price of the youngest batch of a product, wherever it lies; zero when there is none. */
  function LastCost(bs: seq<Batch>, product: Id): int
    decreases |bs|
  {
    if bs == [] then 0
    else
      var n := |bs| - 1;
      if bs[n].product == product then bs[n].price else LastCost(bs[..n], product)
  }

  /** The tables and the profit after restocking returned items. */
  datatype Restock = Restock(db: Db, profit: int)

  /** Restocks one returned item at the last cost of its product and reverses its margin. */
  function RestockItem(before: Restock, doc: Id, n: nat, item: Item, date: int): (r: Restock)
    ensures r.db.docs == before.db.docs && r.db.rows == before.db.rows
  {
    var cost := LastCost(before.db.batches, item.product);
    Restock(
      AddStock(before.db, item.product, item.quantity, cost, FromReturn(doc, n), date),
      before.profit - (item.price - cost) * item.quantity)
  }

  function RestockItems(db: Db, doc: Id, items: seq<Item>, date: int): (r: Restock)
    ensures r.db.docs == db.docs && r.db.rows == db.rows
    decreases |items|
  {
    if items == [] then Restock(db, 0)
    else
      var n := |items| - 1;
      RestockItem(RestockItems(db, doc, items[..n], date), doc, n, items[n], date)
  }

  function PostReturn(db: Db, id: Id): Result<Db> {
    var doc :- Find(db, id, BuyerReturn);
    if doc.posted then Err(AlreadyPosted)
    else
      var stocked := RestockItems(db, id, doc.items, doc.date);
      Ok(stocked.db.(docs := db.docs[id := doc.(posted := true, profit := stocked.profit)]))
  }

  function OfReturn(bs: seq<Batch>, id: Id): set<Id> {
    set b | b in bs && b.source.FromReturn? && b.source.doc == id :: b.id
  }

  /** Deletes the batches of the return whether or not they were sold from. */
  function UnpostReturn(db: Db, id: Id): Result<Db> {
    var doc :- Find(db, id, BuyerReturn);
    if !doc.posted then Err(NotPosted)
    else
      var cleared := DeleteBatches(db, OfReturn(db.batches, id));
      Ok(cleared.(docs := db.docs[id := doc.(posted := false, profit := 0)]))
  }

  // ---- sales and supplier returns

  function PostSale(db: Db, id: Id): Result<Db> {
    var doc :- Find(db, id, Sale);
    if doc.posted then Err(AlreadyPosted)
    else
      var deducted :- DeductItems(db, id, doc.warehouse, doc.items);
      RowsGrow(db, id, doc.warehouse, doc.items);
      Ok(SalePosted(db, deducted, id))
  }

  /** The profit of a sale is its amount less the cost of what was deducted for it. */
  function SalePosted(db: Db, deducted: Db, id: Id): Db
    requires id in db.docs && db.rows <= deducted.rows
  {
    var profit := db.docs[id].amount - Cost(Added(db, deducted));
    deducted.(docs := db.docs[id := db.docs[id].(posted := true, profit := profit)])
  }

  lemma {:induction false} RowsGrow(db: Db, doc: Id, warehouse: Option<Id>, items: seq<Item>)
    ensures var r := DeductItems(db, doc, warehouse, items);
            r.Ok? ==> db.rows <= r.value.rows
  {
    if DeductItems(db, doc, warehouse, items).Ok? {
      DeductItemsWorth(db, doc, warehouse, items);
    }
  }

  function UnpostSale(db: Db, id: Id): Result<Db> {
    var doc :- Find(db, id, Sale);
    if !doc.posted then Err(NotPosted)
    else Ok(Return(db, id).(docs := db.docs[id := doc.(posted := false, profit := 0)]))
  }

  function PostSupplierReturn(db: Db, id: Id): Result<Db> {
    var doc :- Find(db, id, SupplierReturn);
    if doc.posted then Err(AlreadyPosted)
    else
      var deducted :- DeductItems(db, id, doc.warehouse, doc.items);
      Ok(deducted.(docs := db.docs[id := doc.(posted := true)]))
  }

  function UnpostSupplierReturn(db: Db, id: Id): Result<Db> {
    var doc :- Find(db, id, SupplierReturn);
    if !doc.posted then Err(NotPosted)
    else Ok(Return(db, id).(docs := db.docs[id := doc.(posted := false)]))
  }

  // ---- creating, editing and deleting documents

  /** Returns compute item totals; receipts and sales keep the totals they are given. */
  function PricedItem(kind: Kind): Item -> Item {
    (i: Item) => if kind.BuyerReturn? || kind.SupplierReturn? then i.(total := i.quantity * i.price) else i
  }

  function Priced(kind: Kind, items: seq<Item>): seq<Item> {
    Map(items, PricedItem(kind))
  }

  /** Sales carry the amount of the request; every other amount is the sum of its items. */
  function Create(db: Db, kind: Kind, date: int, created: int, warehouse: Option<Id>, amount: int,
                  items: seq<Item>): Db {
    var priced := Priced(kind, items);
    var total := if kind.Sale? then amount else ItemsTotal(priced);
    db.(docs := db.docs[db.nextId := Doc(kind, date, created, warehouse, priced, total, 0, false, false)],
        nextId := db.nextId + 1)
  }

  function EditSale(db: Db, id: Id, patch: Patch): Result<Db> {
    var doc :- Find(db, id, Sale);
    if doc.posted then Err(Locked)
    else Ok(db.(docs := db.docs[id := doc.(
      date := Or(patch.date, doc.date),
      warehouse := if patch.warehouse.Some? then patch.warehouse else doc.warehouse,
      amount := Or(patch.amount, doc.amount),
      items := Or(patch.items, doc.items))]))
  }

  /** Buyer returns overwrite the header, whose date and warehouse columns are mandatory;
      supplier returns keep what the request leaves out. Both replace the items. */
  function EditReturn(db: Db, id: Id, kind: Kind, patch: Patch): Result<Db>
    requires kind.BuyerReturn? || kind.SupplierReturn?
  {
    var doc :- Find(db, id, kind);
    if doc.posted then Err(Locked)
    else if kind.BuyerReturn? && (patch.date.None? || patch.warehouse.None?) then Err(Invalid)
    else
      var items := Priced(kind, Or(patch.items, []));
      Ok(db.(docs := db.docs[id := doc.(
        date := Or(patch.date, doc.date),
        warehouse := if patch.warehouse.Some? then patch.warehouse else doc.warehouse,
        items := items,
        amount := ItemsTotal(items))]))
  }

  /** A document that is not posted is deleted; a sale is only flagged. */
  function Delete(db: Db, id: Id): Result<Db> {
    if id !in db.docs then Err(NotFound)
    else if db.docs[id].posted then Err(Locked)
    else if db.docs[id].kind.Sale? then Ok(db.(docs := db.docs[id := db.docs[id].(deleted := true)]))
    else Ok(db.(docs := db.docs - {id}))
  }

  // ---- steps and runs

  datatype Step =
    | Arrive(product: Id, quantity: nat, price: int, createdAt: int)
    | New(kind: Kind, date: int, created: int, warehouse: Option<Id>, amount: int, items: seq<Item>)
    | Edit(id: Id, patch: Patch)
    | Remove(id: Id)
    | Post(id: Id)
    | Unpost(id: Id)

  function PostDoc(db: Db, id: Id): Result<Db> {
    if id !in db.docs then Err(NotFound)
    else match db.docs[id].kind
      case GoodsReceipt => PostReceipt(db, id)
      case BuyerReturn => PostReturn(db, id)
      case Sale => PostSale(db, id)
      case SupplierReturn => PostSupplierReturn(db, id)
  }

  function UnpostDoc(db: Db, id: Id): Result<Db> {
    if id !in db.docs then Err(NotFound)
    else match db.docs[id].kind
      case GoodsReceipt => UnpostReceipt(db, id)
      case BuyerReturn => UnpostReturn(db, id)
      case Sale => UnpostSale(db, id)
      case SupplierReturn => UnpostSupplierReturn(db, id)
  }

  function EditDoc(db: Db, id: Id, patch: Patch): Result<Db> {
    if id !in db.docs then Err(NotFound)
    else match db.docs[id].kind
      case GoodsReceipt => UpdateReceipt(db, id, patch)
      case Sale => EditSale(db, id, patch)
      case kind => EditReturn(db, id, kind, patch)
  }

  /** One request. */
  function Next(db: Db, step: Step): Result<Db> {
    match step
    case Arrive(p, q, price, at) => Ok(AddStock(db, p, q, price, Arrival, at))
    case New(kind, date, created, warehouse, amount, items) =>
      Ok(Create(db, kind, date, created, warehouse, amount, items))
    case Edit(id, patch) => EditDoc(db, id, patch)
    case Remove(id) => Delete(db, id)
    case Post(id) => PostDoc(db, id)
    case Unpost(id) => UnpostDoc(db, id)
  }

  /** A request that fails rolls back. */
  function Apply(db: Db, step: Step): Db {
    var r := Next(db, step);
    if r.Ok? then r.value else db
  }

  /** Any interleaving of requests. */
  function Run(db: Db, steps: seq<Step>): Db
    decreases |steps|
  {
    if steps == [] then db else Apply(Run(db, steps[..|steps| - 1]), steps[|steps| - 1])
  }

  const EmptyDb := Db(map[], [], [], 0)
}
