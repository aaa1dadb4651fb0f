# Stock ledger, reposting, payments and sync: a verified model

This project models the part of the server that moves stock and debt, and proves laws
about it that hold over every run of requests.

The server keeps stock in cost batches (`ProductBatch`). Goods receipts and buyer returns
bring batches in; sales and supplier returns take from them oldest first and write one
allocation row per batch they took from. Every document can be posted, unposted, edited
and deleted under status guards, and a bulk run can unpost and post many of them again in
date order. Cash transactions are spread over the oldest unpaid documents the same way.
Reports recompute balances, movements and profits from the rows. A phone pushes lists of
order changes that may arrive twice.

## How it is modelled

- `Tables`, `Inventory` and `Documents` hold the tables as values and each transaction as a
  function from tables to tables or an error. `Payments` does the same for cash
  transactions, `Push` for orders, `Replay` for the bulk run, the report modules for the
  report queries.
- `Store.Store`, `CashDesk.CashDesk` and `Push.OrderTable` are the services as they run:
  classes whose methods change their fields step by step, with the loops the code has. Each
  method is proved to reach exactly the state its function gives, including after an error,
  where the rollback restores the tables.
- What the system promises is proved about those functions: per call, over every
  interleaving of requests (`Documents.Run`, `Payments.Run`), and between modules.
- Quantities are whole thousandths and money is kept in the unit of quantity times price,
  so no value is rounded. Quantities of items are not negative.
- Batches stand in one fixed order that refines `createdAt`, and documents in one that
  refines the comparator of the bulk run, because ties are real. Queries without an order
  return their rows in any order (`Replay.Listing`, and permutations elsewhere).
- Each transaction is one step. Ids come from a counter. The server's clock is a symbolic
  stamp (`Push.ServerTime`) or a parameter. Deleting a batch deletes the allocation rows
  that point at it, as the foreign keys do (`src/migrations/add_realization_batches.ts:22`,
  `src/migrations/add_supplier_returns.ts:44`).

| file | content |
|---|---|
| `Sums.dfy`, `Fifo.dfy` | aggregates over rows and ordered insertion; the oldest-first walk and its loop, shared by stock and payments |
| `Tables.dfy`, `Inventory.dfy`, `Documents.dfy` | tables, stock operations, document services, runs |
| `Conservation.dfy`, `Runs.dfy`, `History.dfy`, `OnHand.dfy` | the ledger invariant and the laws over runs |
| `Postings.dfy`, `Edits.dfy`, `Scope.dfy` | what posting, editing and bulk runs leave, in the words of documents and requests |
| `Replay.dfy`, `Clearing.dfy`, `Renumbering.dfy`, `Canonical.dfy` | bulk reposting |
| `Witnesses.dfy` | runs and inputs at which the code falls short |
| `StockReports.dfy`, `ProfitReports.dfy`, `Reconciliation.dfy` | reports |
| `Payments.dfy` | payments as functions on the books, and their laws |
| `Push.dfy` | offline order push |
| `Store.dfy`, `CashDesk.dfy` | the services as classes |

## Where the code is weaker than one would expect

The first five come with the exact condition and a run or an input at which the code falls
short; the last is a comment the code does not follow.

- Editing a posted receipt that holds several batches of one product merges them into the
  first. An accepted request keeps the batch-by-batch agreement exactly when it is not an
  edit that merges a group sold from its later batches (`History.NextPerBatch`); the
  agreement per receipt and product always survives (`Runs.LedgerOverRuns`).
- After such an edit an unfiltered repost is refused by the sold guard although every
  selected sale has been unposted by then (`Canonical.MergedThenRefused`; a run in
  `Witnesses.MergeRefusesRepost`). Supplier returns are never reposted, so one that holds
  stock of a receipt has the same effect (`Canonical.PhaseOne`).
- Unposting a buyer return has no sold guard. Posted items stay fully backed exactly when
  nothing was allocated from its batches (`History.UnpostReturnBacked`; a run in
  `Witnesses.UnpostedReturnUnbacks`).
- The opening balance of the reconciliation ignores cash transactions of a type other than
  INCOME and OUTCOME, its ledger adds them. Windows compose exactly when such transactions
  sum to zero (`Reconciliation.WindowsCompose`; an input in
  `Witnesses.UnknownTypeBreaksWindows`).
- Saving a payment again unchanged may move it to other documents. It restores every paid
  amount exactly when the account stood settled oldest first (`Payments.ResaveRestores`; a
  run in `Witnesses.ResaveMoves`).
- The comment of `BuyerReturnService.post` speaks of restocking at the return price
  (`src/services/buyerReturnService.ts:124-127`); the code restocks at the last cost, and so
  does the model.

## Model

| member | source | states |
|---|---|---|
| Fifo.TakesGreedy | src/services/inventoryService.ts:42-62 | the walk stays within each batch and touches a batch only when every older one is emptied |
| Fifo.GreedyUnique | src/services/inventoryService.ts:42-62 | an allocation that stays within the batches and empties older ones first is determined by its sum |
| Fifo.TakesTotal | src/services/inventoryService.ts:42-76 | the walk takes the lesser of what is needed and what there is |
| Fifo.TakesAdditive | src/services/inventoryService.ts:42-62 | taking a and then b from what is left takes from every batch what taking a + b takes |
| Inventory.InsertChronological | src/services/inventoryService.ts:10-18 | a new batch enters the first-in order by its date and keeps the table oldest first |
| Inventory.DeductExact | src/services/inventoryService.ts:24-76 | a deduction succeeds iff the warehouse holds enough, then is the one oldest-first allocation of the need; a failure reports what is missing |
| Inventory.DeductItemsAtOnce | src/services/realizationService.ts:24-38 | deducting item by item succeeds iff each product's whole demand is available, and leaves in each batch what one deduction of the whole demand leaves |
| Inventory.DeductItemsWorth | src/services/realizationService.ts:21-40 | the cost a posting records is exactly the drop in the worth of the stock |
| Inventory.ItemOrderIrrelevant | src/services/realizationService.ts:18-40 | for every permutation of the items: same success or failure, same batches, same total cost |
| Inventory.AddStockBrings | src/services/inventoryService.ts:10-18 | one full batch under a new id takes its place behind every batch that is not younger, what its warehouse can deduct of the product grows by exactly its quantity, and nothing else changes |
| Store.Store.DeductStock | src/services/inventoryService.ts:24-76 | the loop reaches the batches and the deduction list of the oldest-first walk, or reports what is missing |
| Store.Store.ReturnStock | src/services/inventoryService.ts:81-105 | putting rows back one by one restores every batch by what the document took from it, and removes its rows |
| Store.Store.DeductItems | src/services/realizationService.ts:24-38 | the nested loops reach the state of the specified deduction, and the accumulated cost is the cost of the rows written |
| Store.Store.PostReceipt | src/services/goodsReceiptService.ts:165-208 | adds the receipt's batches and posts it, or refuses and changes nothing; keeps the ledger |
| Store.Store.UnpostReceipt | src/services/goodsReceiptService.ts:211-243 | refuses when a batch holds less than it came with, else deletes the batches; keeps the ledger |
| Store.Store.SumHeld | src/services/goodsReceiptService.ts:70-84 | the map of old batches holds, for each product, total minus left summed over the receipt's batches, in table order |
| Store.Store.SumWanted | src/services/goodsReceiptService.ts:86-94 | the map of incoming items holds each product's summed quantity and the price of its first item |
| Store.Store.ResizeProducts | src/services/goodsReceiptService.ts:96-122 | the loop over old products reaches the specified edit, or stops at the first product wanted below what was sold |
| Store.Store.AddProducts | src/services/goodsReceiptService.ts:124-136 | adds one batch for every wanted product the receipt did not hold |
| Store.Store.UpdateReceipt | src/services/goodsReceiptService.ts:52-162 | rewrites header and items and, when posted, the batches; an edit below what was sold rolls everything back |
| Store.Store.PostSale | src/services/realizationService.ts:5-63 | deducts, records allocations, sets profit to amount minus recorded cost; running out of stock changes nothing |
| Store.Store.UnpostSale | src/services/realizationService.ts:65-110 | gives back every allocation and clears status and profit |
| Store.Store.PostSupplierReturn | src/services/supplierReturnService.ts:114-161 | deducts and records allocations, or changes nothing |
| Store.Store.UnpostSupplierReturn | src/services/supplierReturnService.ts:164-215 | gives the quantities back to the exact batches and removes the rows |
| Store.Store.PostReturn | src/services/buyerReturnService.ts:110-177 | restocks each item at the last cost of its product and stores the reversed margin as profit |
| Store.Store.UnpostReturn | src/services/buyerReturnService.ts:180-228 | deletes the return's batches, with the allocation rows that point at them |
| Store.Store.CreateDocument | src/services/buyerReturnService.ts:8-55 | a new draft with priced items; the amount is the sum of the items except for sales, which keep the amount given |
| Store.Store.EditSale | src/routes/realization.ts:239-285 | keeps what the request leaves out, replaces items when given, refuses a posted sale |
| Store.Store.EditReturn | src/services/supplierReturnService.ts:58-111 | always replaces the items and recomputes the amount, refuses a posted return |
| Store.Store.DeleteDocument | src/routes/realization.ts:318-343 | flags a sale, deletes any other draft, refuses a posted document |
| Store.Store.InsertItems | src/services/buyerReturnService.ts:28-45 | the item loop writes the priced items and sums their totals |
| Store.Store.RunReposting | src/services/documentRepostingService.ts:106-225 | the two phases reach the specified bulk run, or roll everything back with the first error |
| Runs.LedgerOverRuns | src/services/inventoryService.ts:10-105 | after every run of requests nothing is oversold and total minus left equals the sum of allocation rows, per receipt and product, and per batch for buyer returns and arrivals; only posted documents own batches or rows |
| Runs.UnpostReceiptCascade | src/services/goodsReceiptService.ts:222-229 | when the sold guard passes, the cascading delete removes no allocation row, even after merging edits |
| Runs.UpdateReceiptKeeps | src/services/goodsReceiptService.ts:101-122 | editing a receipt, posted or not, keeps the ledger and removes no allocation row |
| History.ResizePerBatch | src/services/goodsReceiptService.ts:113-120 | a resize keeps every single batch right iff nothing was sold from the later batches of its group |
| History.NextPerBatch | src/services/goodsReceiptService.ts:69-137 | an accepted request keeps the agreement batch by batch iff it is not an edit of a posted receipt that merges a group sold from its later batches |
| History.PerBatchOverRuns | src/services/goodsReceiptService.ts:69-137 | in every run without a merging edit each batch accounts for its own rows and 0 <= left <= total |
| History.DeductItemsBacks | src/services/supplierReturnService.ts:128-145 | posting backs each item with exactly its quantity and no other item |
| History.UnpostReturnBacked | src/services/buyerReturnService.ts:191-210 | unposting a buyer return keeps posted items backed iff nothing was allocated from its batches |
| History.BackedOverRuns | src/services/realizationService.ts:24-38 | in every run that never unposts a consumed buyer return, allocations of each item of a posted sale or supplier return sum to its quantity; other documents have none |
| History.WithinOverRuns | src/services/inventoryService.ts:42-62 | in every run whatever, allocations of an item of a posted sale or supplier return never exceed its quantity |
| History.HistoryIndependence | src/services/realizationService.ts:65-95 | after any interleaving of posting and unposting some sales and supplier returns, once these are unposted again every batch and every allocation row is what it was, whatever other documents are posted |
| Postings.AsPostedOverRuns | src/services/goodsReceiptService.ts:180-194 | after every run the batches of a posted receipt not edited since are its items in order, with their quantities and prices and the receipt's date; those of a posted buyer return its items with their quantities and its date |
| Postings.EarlierDocumentsFirst | src/services/inventoryService.ts:26-62 | after every run a deduction takes from a batch of one document only when the batches of every earlier-dated document are empty, unless one was edited since it was posted |
| Postings.RestocksAtLastCost | src/services/buyerReturnService.ts:131-147 | every item of a buyer return is restocked at the price of the youngest batch its product had before the return was posted, and at zero when it had none |
| Edits.EditAccepted | src/services/goodsReceiptService.ts:96-103 | an edit of a posted receipt is accepted iff it wants of each product at least what was sold of it; otherwise the error names such a product and what was sold |
| Edits.EditMoves | src/services/goodsReceiptService.ts:59-152 | after an accepted edit the header is the request's, and every warehouse can deduct of every product what other documents give it plus, if it is the requested one, what is wanted less what was sold |
| Edits.EditConsolidatesAll | src/services/goodsReceiptService.ts:108-136 | of each product one batch then holds all that is wanted, less what was sold, at the price of its first item; its other batches are empty |
| Edits.EditDates | src/services/goodsReceiptService.ts:113-134 | an edit moves no batch in the FIFO order; only batches of new products carry the requested date |
| Edits.CreateEnters | src/routes/realization.ts:107-132 | a new document has the fields of the request under a new id; a sale the amount requested, a return the value of its items, a receipt the sum of their totals |
| Edits.SaleEdits | src/routes/realization.ts:247-274 | refused iff missing or posted; each field is as sent, or as it was when not sent; nothing else changes |
| Edits.ReturnEdits | src/services/buyerReturnService.ts:61-97 | refused iff missing, posted or, for a buyer return, without date or warehouse; the items are the request's, valued anew |
| Edits.DeleteRemoves | src/services/goodsReceiptService.ts:307-315 | refused iff missing or posted; a sale stays, flagged, any other document is gone, nothing else changes |
| OnHand.MatchedOverRuns | src/services/goodsReceiptService.ts:69-193 | in every run, edits of posted receipts included, the batches of a posted receipt total what its items say of each product, each item of a posted buyer return has batches of exactly its quantity, and other documents have none |
| OnHand.FittingOverRuns | src/services/inventoryService.ts:26-59 | in every run each allocation row draws on a batch that a document brought, of the product of the item it was written for |
| OnHand.StockIsDocuments | src/services/inventoryService.ts:10-105 | after every run the cached stock of a product is at least what arrived, plus what posted receipts and buyer returns say, less what posted sales and supplier returns say; it is exactly that iff every posted item of the product is fully backed |
| Replay.SortOrders | src/services/documentRepostingService.ts:168-184 | sorting puts the documents in the comparator's order |
| Scope.PostingOrder | src/services/documentRepostingService.ts:168-184 | the posting order is by date; within a date receipts before buyer returns before sales; within a kind by creation time |
| Scope.RestocksBetween | src/services/documentRepostingService.ts:188-217 | when a replay restocks a buyer return, every listed receipt of its date or earlier has been posted and no listed sale of its date or later |
| Scope.RunScope | src/services/documentRepostingService.ts:43-86 | a committed run posts or unposts exactly the documents its filters ask for, by kind, date, status and deletion flag, and leaves every other document as it was |
| Scope.PostAccepted | src/services/realizationService.ts:14-16 | posting is accepted iff the document is there and not posted and, for a sale or supplier return, its warehouse holds its whole demand; it changes that header's status and profit only |
| Scope.UnpostAccepted | src/services/goodsReceiptService.ts:218-232 | unposting is accepted iff the document is posted and, for a receipt, no batch is short; sales and buyer returns lose their profit |
| Scope.PostThenUnpost | src/services/goodsReceiptService.ts:165-243 | unposting what was just posted is accepted and gives back every batch, row and header, for all four kinds |
| Replay.OrderedUnique | src/services/documentRepostingService.ts:168-184 | that order does not depend on the order in which the queries returned the rows |
| Replay.RepostIsRun | src/services/documentRepostingService.ts:106-220 | a committed bulk run does what single requests in its order do, so every law over runs covers it |
| Replay.ReplaySucceeds | src/services/documentRepostingService.ts:188-217 | posting a list succeeds iff at every sale, for its warehouse and every product, opening stock plus supply posted so far covers the cumulative demand |
| Replay.PostAllStock | src/services/documentRepostingService.ts:188-217 | a replay moves available stock by exactly what the list supplies and takes, and leaves other documents alone |
| Replay.CodeOrderIsBest | src/services/documentRepostingService.ts:168-184 | if any arrangement by date can be posted, so can the code's, with receipts and returns before sales within a date |
| Renumbering.PostAllRenumbered | src/services/documentRepostingService.ts:188-217 | a replay does the same, ids of new batches aside, from tables that differ only in the next id |
| Clearing.PhaseOneExact | src/services/documentRepostingService.ts:106-141 | phase one of any run that unposts, from any tables: it succeeds iff what the listed sales give back fills every batch of the listed receipts, and then exactly the listed documents and their batches are cleared |
| Canonical.PhaseOne | src/services/documentRepostingService.ts:106-141 | phase one of an unfiltered repost succeeds iff batches agree one by one and no supplier return or deleted sale holds stock of a receipt; it then leaves no allocation, no document's batch and no selected document posted |
| Canonical.MergedThenRefused | src/services/goodsReceiptService.ts:222-226 | after an edit that merges sold batches, phase one of an unfiltered repost is refused by the sold guard |
| Canonical.RepostSucceeds | src/services/documentRepostingService.ts:106-217 | an unfiltered repost succeeds iff batches agree one by one, no unselected document holds stock of a receipt, and the sorted documents are covered from the blank tables, in which nothing is available |
| Canonical.RepostTwice | src/services/documentRepostingService.ts:106-217 | a second unfiltered repost succeeds and gives the same documents, profits, batches and allocations as the first, up to the ids of new batches, whatever supplier returns and deleted sales stay posted |
| Canonical.PlainOverRuns | src/routes/realization.ts:318-343 | every run leads to tables of which the reposting laws speak: the ledger holds, rows draw on documents' batches, only sales are flagged as deleted |
| StockReports.BalanceIsLeft | src/routes/reports.ts:34-76 | on a day no posted document lies after, the balance report equals the cached quantities left |
| StockReports.BalanceIsAvailable | src/routes/reports.ts:50-76 | such a report shows exactly what can be deducted of the product from the warehouse |
| StockReports.MovementComposes | src/routes/reports.ts:183-191 | a movement report closes where the report of the next period opens |
| StockReports.MovementAgrees | src/routes/reports.ts:109-191 | the movement report's end balance equals the balance report of its last day |
| ProfitReports.RecordedOverRuns | src/services/realizationService.ts:21-48 | in every run the profit stored with a posted buyer return, and with a posted sale while it is fully backed, is what its batches and allocation rows give |
| ProfitReports.ReportsWhenBacked | src/routes/reports.ts:489-550 | after every run that leaves every posted item fully backed, profit by client minus profit by product is exactly the sum over posted sales of header amount minus item totals; returns contribute nothing |
| ProfitReports.ReportsOne | src/routes/reports.ts:293-315 | after every run, for one document: of a posted sale the stored profit, and item totals less recorded cost; of a posted buyer return the stored profit in both reports; of others nothing |
| Payments.AllocatesOldestFirst | src/routes/finance.ts:152-217 | a payment allocates the lesser of amount and outstanding debt, in the only way that pays older debts first |
| Payments.PaysDebts | src/routes/finance.ts:152-217 | all documents together are paid the lesser of the amount and what the counterparty has open: on posted sales for INCOME, on posted receipts for OUTCOME; a payment of another type or without a counterparty pays nothing |
| Payments.PaysOldestFirst | src/routes/finance.ts:152-217 | a document is paid only if posted, of the counterparty and of the kind the type pays, within its amount, and only when every older one of these is paid in full |
| Payments.AllocatesWithin | src/routes/finance.ts:162-183 | no allocation raises a document above its amount, lowers what was paid, or pays a document of another account |
| Payments.PaymentsAdd | src/routes/finance.ts:152-217 | two payments in a row on one account pay what one payment of their sum pays |
| Payments.PaymentsCommute | src/routes/finance.ts:152-217 | two payments in either order pay the same, on one account or on different ones |
| Payments.BalancedOverRuns | src/routes/finance.ts:149-354 | after every run each document's paid amount is the sum of its allocation rows, live payments allocate at most their amount, deleted ones nothing |
| Payments.EditIsDeleteAndCreate | src/routes/finance.ts:234-318 | editing a payment leaves the paid amounts that deleting it and entering it anew leaves, and the same allocation rows but for the payment's id |
| Payments.CreateThenDelete | src/routes/finance.ts:334-354 | entering a payment and deleting it changes no paid amount, leaves no allocation, and keeps the payment flagged as deleted |
| Payments.DeletedForGood | src/routes/finance.ts:239-240 | a deleted payment cannot be edited, and deleting it again changes nothing |
| Payments.ResaveRestores | src/routes/finance.ts:242-318 | saving a payment unchanged restores every paid amount iff the account stood settled oldest first around what it paid |
| CashDesk.CashDesk.AllocateFifo | src/routes/finance.ts:162-183 | the loop reaches the books of the specified allocation |
| CashDesk.CashDesk.RevertAllocations | src/routes/finance.ts:243-251 | taking allocations back row by row gives every document back what this payment paid and removes its rows |
| CashDesk.CashDesk.CreateTransaction | src/routes/finance.ts:128-217 | enters and allocates a payment, or refuses an unknown cashbox and changes nothing; keeps the books balanced |
| CashDesk.CashDesk.EditTransaction | src/routes/finance.ts:229-318 | reverts and reallocates a live payment, refuses a missing or deleted one; keeps the books balanced |
| CashDesk.CashDesk.DeleteTransaction | src/routes/finance.ts:332-357 | reverts and flags a payment; keeps the books balanced |
| Reconciliation.WindowsCompose | src/routes/reports.ts:622-652 | a window opens with what any window ending the day before closed with, less transactions of unknown type; equal iff those sum to zero |
| Reconciliation.CleanWindowsCompose | src/routes/reports.ts:622-652 | with INCOME and OUTCOME only, windows compose without remainder |
| Reconciliation.ClosingOrderFree | src/routes/reports.ts:730-766 | the order of the rows does not move the closing balance |
| Reconciliation.OpeningIs | src/routes/reports.ts:624-646 | the opening balance is sales, supplier returns and OUTCOME less buyer returns, receipts and INCOME up to the day before; other types count nothing |
| Reconciliation.ClosingIs | src/routes/reports.ts:656-730 | the closing balance adds the same over the days of the window, in which other types count as money paid out |
| Reconciliation.Statement | src/routes/reports.ts:735-766 | the grouping loop gives each counterparty of the window or of the opening balances its rows with running balances |
| Reconciliation.RunningBalance | src/routes/reports.ts:752-766 | each running balance is the opening balance plus the changes up to that line |
| Reconciliation.StatementCloses | src/routes/reports.ts:656-766 | the account the grouping gives a requested counterparty opens with its opening balance and closes with its closing balance, whatever the order of the rows |
| Push.OrderTable.Push | src/routes/sync.ts:110-227 | the loop over the changes reaches the specified table and reports each change's success |
| Push.PushRowByRow | src/routes/sync.ts:110-206 | changes to one order depend on and affect that order only |
| Push.ListIdempotent | src/routes/sync.ts:110-206 | applying a change list twice leaves the row that applying it once leaves |
| Push.RetrySafe | src/routes/sync.ts:110-206 | applying any prefix and then the whole list leaves the table that applying the list once leaves, server time aside |
| Push.LastDecides | src/routes/sync.ts:116-197 | after a push each field of an order has the value of the last change that decides it: an upsert sends it or stores the default, an update what it sends |
| Push.LastCreatesOrDeletes | src/routes/sync.ts:199-206 | an order exists after a push iff the last upsert, or hard delete by an admin, is an upsert |
| Witnesses.MergeRefusesRepost | src/services/goodsReceiptService.ts:113-120 | a receipt of two lots, a sale across both and an edit that makes them one: a run after which every unfiltered repost is refused in phase one |
| Witnesses.UnpostedReturnUnbacks | src/services/buyerReturnService.ts:191-192 | a return restocked, its stock sold and the return unposted: a run after which a posted sale is not backed |
| Witnesses.ResaveMoves | src/routes/finance.ts:242-318 | a sale paid, an older one entered later: a run after which saving the payment unchanged moves it |
| Witnesses.UnknownTypeBreaksWindows | src/routes/reports.ts:627-632 | one transaction of an unknown type with which a window closes with five and the next opens with nothing |

## Left out

- Mutual exclusion of bulk runs: the lock is checked and set by separate queries, and a refused run still unlocks in `finally` (`src/services/documentRepostingService.ts:25-27`, `226-230`), so the code does not provide it.
- Price documents and the price journal: phase one deletes journal rows by the document's creation time while applying writes its date, so no replay law holds of them.
- Document numbers, comments, log messages and `updatedAt`; the negative-profit comment is appended on each post and never removed.
- Rounding of stored columns and floating-point drift of `remaining` and of parsed amounts: arithmetic is exact.
- Choice among rows of equal `createdAt` or `date`: the model fixes one order and proves nothing about databases that change it between queries.
- Bulk runs limited to price documents, which select none of the documents modelled here.
- The status of the order behind a sale, and creating a sale from an order: the sale it creates is one more draft.
- The fallback in `BuyerReturnService.unpost` that deletes batches through the old link table: since the migration every such batch carries its return's id.
- The `isDeleted` flag of receipts: no code sets it, so a receipt is never passed over for it.
- Payment debts and stock documents are two state machines here: `Payments` sees a posted sale or receipt only through its account, date, amount and status.
- Store.Store.CreateDocument: one method for the four create handlers, with the fields the ledger uses; counterparties, currencies and comments are not kept.
- Store.Store.UpdateReceipt: batches of one product are merged in table order, where the query has no order of its own.
- Push.OrderTable.Push: database errors other than missing data and a refused hard delete are not modelled, nor is the item table that inserts also fill.
- `/sync/full` and `/sync/pull`: the insert branch of the former is empty for orders, the latter reads the clock after its query.
- Report filters by manager, group and sales type, the value column, and sorting and naming of report rows: profit laws hold for any selection of documents instead.
- Manual arrivals have no source document and no warehouse: they are inert rows that no deduction and no report sees, and are modelled as such.
- Express wiring, authentication, other CRUD, cashflow, picking lists and migrations.
