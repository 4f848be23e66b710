# Stock ledger and work-assignment engine of a textile inventory backend

This project models the three controllers that move stock in a textile-inventory backend:

- **Vendor receipts** (`createInventory`). A receipt records an inventory batch of lines and credits each product's `totalAvailableStock`.
- **Allocation to job workers** (`assignToWorkers`). One request creates one dispatch challan. The challan is numbered `CH-00001`, `CH-00002`, … by `getNextChallanNumber`. For every requested item, the product's stock is checked and debited, and a FIFO draw is taken from the batches in ascending challan date. A `Pending` work assignment records where the units came from. The per-line batch writes are collected and applied together by one `bulkWrite` at the end.
- **Recording what comes back.** There are three paths:
  - the legacy `receiveAssignmentReturn`, which commits outcome counters directly;
  - a two-phase protocol. `submitReturnRequest` stages a proposal on the assignment under the `activeReturnRequestId` lock. `reviewReturnRequest` then rejects the proposal (a pure undo) or approves it (it commits the counters, credits the cleared units to the product when they are positive and writes one ledger entry per positive category);
  - the privileged `directReturnProcess`.
- **Sales** (`createSaleOrder`). A sale deducts each line's quantity from the product's `Cleared` work assignments, one after another, then from product stock. It saves the sale-order document last.

Each handler runs inside one Mongo transaction. The model therefore treats each one as a single method on one database object, `Store.Db`. A handler either fails and leaves every collection as it was, or applies all of its updates. The database holds:

- product stock, as a map from product id to `totalAvailableStock`;
- the inventory batches;
- challans, work assignments and return requests;
- the inventory ledger;
- sale orders.

Ids are positions in these sequences. A product id that is not a key of the stock map is a product that does not exist.

The handlers' logic lives in pure modules, one per concern:

- `ChallanNumber`: the numbering, and the `split`/`parseInt` that reads it back.
- `Fifo`: the draw walk.
- `Inventory`: batches, receipt credits, the batch query and sort, and `bulkWrite`.
- `Assignments`: the work-assignment record and its commits.
- `Returns`: requests, ledger entries, and the order in which each return handler checks its input.
- `Allocation`: the item loop of `assignToWorkers`.
- `Sale`: the line loop of `createSaleOrder`.
- `Bookkeeping`: the consistency that the handlers keep between challans, assignments and requests.

The loops of the source are methods with loop invariants: `Fifo.PlanDraw`, `Inventory.CreditAll`, `Allocation.Allocate`, `Sale.DeductSequentially` and `Sale.Fulfil`. Each is proved equal to the pure function that specifies it. The store methods call these loop methods and state their new state through the same functions.

The invariant `Store.Db.Valid()` (which is `Bookkeeping.Consistent`) states four things:
- challan i carries number `Format(i + 1)`;
- every assignment names an existing challan;
- a lock names a `Pending` request of its assignment whose proposal the staging fields hold, and with no lock the staging fields are zero;
- every `Pending` request is the one its assignment's lock names.

Every handler keeps this invariant. It yields three results:
- at most one outstanding request per assignment;
- the pending-request reduce of `directReturnProcess` equals the staged total;
- challan numbers never collide under the `unique` index.

Conservation (committed plus staged ≤ quantity) is kept by submit, review and the corrected direct process, each for the assignment it touches. It is not a global invariant: the legacy receive path and the sale path both break it, and `Assignments.ReceiveIgnoresStaging` and `Sale.DrainBreaksAccounting` show how.

Inputs that the handlers read from the request body are parameters; a field that may be absent is an `Option`. On several points the handlers are looser than a careful design would be, and the model follows the handlers:
- a receipt does not check that quantities are positive, nor that products exist (an unknown product is silently not credited), although a receipt could be expected to refuse both;
- the sale sums and deducts the assignments' `quantity`, not `clearedQuantity`, so the counters can exceed the quantity afterwards;
- the batches are read once before the writes, and one `bulkWrite` applies them, last write winning, rather than re-reading each line before drawing from it;
- a review whose ledger write dereferences a deleted product fails after its other checks have passed, instead of at validation.

## Model

| member | source | states |
|---|---|---|
| ChallanNumber.Next | controllers/inventoryController.js:83-91 | With no challan the number is `CH-00001`; every result starts with `CH-` followed by at least five characters. |
| ChallanNumber.PadStart | controllers/inventoryController.js:89 | `padStart`: the result has length max(len, width), ends with the input and is filled with the fill character before it. |
| ChallanNumber.Segment | controllers/inventoryController.js:88 | `split('-')[1]` is absent exactly when there is no `-`, and never contains `-`. |
| ChallanNumber.SegmentText | controllers/inventoryController.js:88 | When there is a `-`, `split('-')[1]` is the text after the first `-`, up to the next `-` or the end. |
| ChallanNumber.HexCounter | controllers/inventoryController.js:88-90 | `parseInt` reads a `0x` counter in base 16: after `CH-0x10` comes `CH-00017`. |
| ChallanNumber.ParseFormat | controllers/inventoryController.js:88 | Splitting and parsing a formatted challan number gives back its counter. |
| ChallanNumber.SuccessorOfFormat | controllers/inventoryController.js:83-91 | The next number after `Format(n)` is `Format(n + 1)`. |
| ChallanNumber.FormatInjective | controllers/inventoryController.js:89-90 | Two counters give the same challan number exactly when they are equal. |
| ChallanNumber.PaddedDigits | controllers/inventoryController.js:89 | The padded counter is a non-empty string of decimal digits whose value is the counter. |
| Fifo.PlanDraw | controllers/inventoryController.js:251-275 | The draw loop (including its `break`) returns exactly the specified draw list, and the remainder is the request minus what was taken. |
| Fifo.DrawBounds | controllers/inventoryController.js:255-261 | Every take is positive and at most its line's available stock, so each new level is in [0, old level). |
| Fifo.DrawTotal | controllers/inventoryController.js:251-261 | The takes sum to the request, or to all the positive stock of the candidates when that is less; a request of zero or less takes nothing. |
| Fifo.DrawPrefix | controllers/inventoryController.js:254-258 | The lines drawn from are exactly the first stocked candidates in walk order; no stocked candidate is skipped. |
| Fifo.DrawDrains | controllers/inventoryController.js:259-261 | Every draw except the last empties its line. |
| Fifo.DrawFrom | controllers/inventoryController.js:254-266 | Every `sourceBatches` entry comes from one of the candidate batches. |
| Fifo.DrawIsFifo | controllers/inventoryController.js:246-275 | Over candidates in ascending date, a batch is drawn from only after every stocked batch with an earlier date has been drawn from and emptied. |
| Fifo.OlderBatchFirst | controllers/inventoryController.js:249-261 | Batches holding 5 (older) and 10 (newer) give 5 from the older one and 3 from the newer one for a request of 8. |
| Inventory.Normalize | controllers/inventoryController.js:32-41 | One line per input line, with product and quantity copied, `availableStock` equal to the quantity, and price and discount defaulting to 0. |
| Inventory.CreditAll | controllers/inventoryController.js:57-63 | The increment loop yields the specified credited stock. |
| Inventory.CreditedExact | controllers/inventoryController.js:57-63 | A receipt raises each existing product's stock by exactly the quantity its lines hold in the batch; the set of products is unchanged. |
| Inventory.FirstLine | controllers/inventoryController.js:256 | `products.find`: the index found holds the product and no earlier line does; none is found only when no line holds it. |
| Inventory.Collect | controllers/inventoryController.js:246-249 | The candidates are exactly the batches the query matches (a line for the product and some line with positive stock), each with its first line's level. |
| Inventory.InsertSorted | controllers/inventoryController.js:249 | Inserting a batch into a date-ascending walk order keeps it ascending. |
| Inventory.InsertPermutes | controllers/inventoryController.js:249 | Inserting a batch adds exactly that batch and keeps every other one. |
| Inventory.SortByDateSorted | controllers/inventoryController.js:249 | The date sort yields an ascending sequence that is a permutation of its input. |
| Inventory.CandidatesOrdered | controllers/inventoryController.js:246-249 | The walk order is sorted by challan date, is a permutation of the matching batches, and contains every matching batch. |
| Inventory.LastWriteWins | controllers/inventoryController.js:268-273 | After `bulkWrite` only available stock changes, and only on the first line of a product in a batch that a write names; there the last write naming it decides the level. |
| Assignments.StatusFor | controllers/inventoryController.js:726-727 | The recomputed status is `Cleared` exactly when the accounted sum equals the quantity; it is never `Pending`. |
| Assignments.Fresh | controllers/inventoryController.js:282-292 | A new assignment is `Pending`, with zero counters, nothing staged and no lock; it conserves when its quantity is not negative. |
| Assignments.Commit | controllers/inventoryController.js:716-727 | Each counter grows by its delta and the status is recomputed; nothing else changes. A delta within the remaining quantity keeps accounted ≤ quantity, and a delta within remaining minus staged keeps conservation. |
| Assignments.Stage | controllers/returnController.js:78-81 | The proposal is staged and the lock names the request; the counters and status are untouched. A proposal within the remaining quantity conserves. |
| Assignments.Unstage | controllers/returnController.js:156-159 | The staging fields are zeroed and the lock is released; conservation is kept. |
| Assignments.Approved | controllers/returnController.js:213-230 | The staged values move into the counters exactly once, the staging fields are zeroed, the lock is released, the status is recomputed, and conservation is kept. |
| Assignments.ReceiveIgnoresStaging | controllers/inventoryController.js:702-719 | The legacy receive checks committed counters only, so accounting for all that remains while a proposal is staged breaks conservation. |
| Assignments.ApprovalScenario | controllers/returnController.js:67-81 | Ten units, with 7/2/1 proposed and approved, give cleared 7, lost 2, damaged 1, status `Cleared`, and nothing staged. |
| Returns.PendingQuantityOfLock | controllers/returnController.js:290-297 | When every `Pending` request of an assignment is the one its lock names, the reduce over them is that request's total, or 0. |
| Returns.CategoryEntries | controllers/returnController.js:179-211 | There is one ledger entry per positive category, with that amount, product, assignment and actor; a category has an entry exactly when it is positive. |
| Returns.ReasonOrDefault | controllers/returnController.js:152 | An absent or empty reason becomes "no reason"; any other reason is kept. |
| Returns.ReviewedOnce | controllers/returnController.js:135-137 | A request that is no longer `Pending` fails review with AlreadyReviewed, whatever the action. |
| Returns.OnlyTwoActions | controllers/returnController.js:150-234 | A `Pending` request reviewed with an action other than approve or reject fails with InvalidAction. |
| Returns.DirectAsWrittenAlwaysAborts | controllers/returnController.js:337-369 | As written, every direct process that passes its checks fails with UndefinedName. |
| Returns.DirectConserves | controllers/returnController.js:299-324 | A direct commit within remaining minus pending keeps conservation and strictly increases the accounted sum. |
| Allocation.SourceList | controllers/inventoryController.js:263-266 | One `sourceBatches` entry per draw, holding its batch and the quantity taken. |
| Allocation.OpsOf | controllers/inventoryController.js:268-273 | One `updateOne` per draw, setting the drawn line of its batch to the new level. |
| Allocation.PlanItems | controllers/inventoryController.js:240-243 | The only way an allocation fails is the stock check. |
| Allocation.Allocate | controllers/inventoryController.js:236-297 | The item loop (check against running stock, FIFO walk, debit, pushes) yields exactly the specified plan or failure. |
| Allocation.PlanStock | controllers/inventoryController.js:240-279 | A successful allocation lowers each product's stock by exactly the total its items request; the set of products is unchanged. |
| Allocation.PlanFailsIff | controllers/inventoryController.js:240-243 | The allocation fails if and only if some item names an unknown product, or asks more than the stock that the items before it left. |
| Allocation.PlanCreated | controllers/inventoryController.js:282-296 | One `Pending` assignment per item, in item order, holding the item's product, quantity, price (0 when absent) and its FIFO draw. |
| Allocation.PlanUnlocked | controllers/inventoryController.js:282-296 | Every new assignment belongs to the new challan, holds no lock and stages nothing. |
| Allocation.PlanOps | controllers/inventoryController.js:268-273 | The writes are the concatenation of every item's draw writes, in item order. |
| Allocation.DrawOpsLower | controllers/inventoryController.js:258-273 | Every write of one item names the first line of an existing batch and lowers its level to a value that is not negative. |
| Allocation.AllOpsLower | controllers/inventoryController.js:236-275 | The same for the writes of all items. |
| Allocation.LevelsLowered | controllers/inventoryController.js:300-302 | After the bulk write, each batch line keeps its level or holds a lower, non-negative one; nothing else in the batches changes. |
| Sale.ClearedOf | controllers/saleOrderController.js:31-34 | The query returns exactly the `Cleared` assignments of the product, in store order. |
| Sale.DeductSequentially | controllers/saleOrderController.js:50-60 | The deduction loop (with its `break` before the save) yields the specified deductions and the number of saved assignments. |
| Sale.SavedDrained | controllers/saleOrderController.js:50-60 | No deduction exceeds what its assignment holds, and every saved assignment gave all it held. |
| Sale.CoversRequest | controllers/saleOrderController.js:41-60 | When the `Cleared` assignments hold enough, the deductions sum to the request, and every touched assignment but the last is saved. |
| Sale.LastDeductionLost | controllers/saleOrderController.js:56-59 | The saved assignments together held less than the request: the last deduction is never persisted. |
| Sale.NonPositiveSavesNothing | controllers/saleOrderController.js:50-57 | A line of zero or less saves no assignment. |
| Sale.SetQuantitiesEffect | controllers/saleOrderController.js:53-59 | Saving sets the quantities of exactly the saved assignments and leaves every other one as it was. |
| Sale.Drain | controllers/saleOrderController.js:50-60 | The saves of one line change only `Cleared` assignments of its product, each drained to zero with its status kept. |
| Sale.SaleStepEffect | controllers/saleOrderController.js:30-71 | A successful line debits exactly its quantity from its product and changes only `Cleared` assignments of that product, by draining them to zero. |
| Sale.Fulfil | controllers/saleOrderController.js:30-72 | The line loop yields exactly the specified outcome, against the state the earlier lines left. |
| Sale.SalePlanEffect | controllers/saleOrderController.js:30-72 | A successful order debits each product by exactly what its lines ask; assignments change only by draining `Cleared` ones of an ordered product to zero. |
| Sale.SalePlanQuantities | controllers/saleOrderController.js:53-59 | A successful order changes nothing of an assignment but its `quantity`. |
| Sale.DrainBreaksAccounting | controllers/saleOrderController.js:53 | A fully accounted `Cleared` assignment drained to zero still counts as `Cleared` but accounts for more than its quantity. |
| Sale.OrderOf | controllers/saleOrderController.js:22-27 | The order validates exactly when every line has a price and there is an invoice number and date; lines map one to one with discount defaulting to 0; otherwise InvalidDocument. |
| Bookkeeping.NextNumber | controllers/inventoryController.js:83-91 | When the challans are numbered in creation order, the next number read from the most recent one is `Format(number of challans + 1)`. |
| Bookkeeping.IdsNameCreated | controllers/inventoryController.js:293-305 | The ids a new challan lists name the created assignments one for one, in item order. |
| Bookkeeping.PendingIsStaged | controllers/returnController.js:47-49 | A `Pending` request is the one its assignment's lock names, its proposal is staged there, and it is the assignment's only `Pending` request. |
| Bookkeeping.PendingMatchesLock | controllers/returnController.js:290-305 | The pending reduce of the direct process equals the total staged on the assignment. |
| Bookkeeping.ChallanNumbersDistinct | model/Challan.js:5-9 | No two challans share a number, and the next number is new, so the `unique` index never refuses a challan. |
| Bookkeeping.KeepsBookkeeping | controllers/inventoryController.js:716-729 | Replacing an assignment by one with the same challan, lock and staging fields keeps the invariant. |
| Bookkeeping.AddSettledRequest | controllers/returnController.js:374-382 | Appending an already approved request keeps the invariant. |
| Bookkeeping.SubmitKeeps | controllers/returnController.js:67-83 | Recording a `Pending` request and staging it under the lock of an unlocked assignment keeps the invariant. |
| Bookkeeping.ReviewKeeps | controllers/returnController.js:150-238 | Settling a `Pending` request and unlocking its assignment with zero staging keeps the invariant. |
| Bookkeeping.AllocationKeeps | controllers/inventoryController.js:222-306 | Appending a challan with the next number and unlocked, unstaged assignments under it keeps the invariant. |
| Bookkeeping.SaleKeeps | controllers/saleOrderController.js:49-60 | Changing only the quantity of assignments keeps the invariant. |
| Store.Db.NextChallanNumber | controllers/inventoryController.js:83-91 | In a consistent store, the next number is `Format(number of challans + 1)`. |
| Store.Db.CreateInventory | controllers/inventoryController.js:7-81 | No lines or no issuer gives MissingInput. A line without product or quantity, or a missing challan number or date, gives InvalidDocument. Otherwise the batch is appended and stock is credited per line; nothing else changes. |
| Store.Db.AssignToWorkers | controllers/inventoryController.js:207-323 | No job worker or no items gives MissingInput. A refused stock check changes nothing. Otherwise stock, batches, assignments and challans become exactly what the allocation plan says, under a challan with the next number whose k-th id names the assignment created for item k. |
| Store.Db.Dispatch | controllers/inventoryController.js:277-305 | The store keeps its invariant while the debited stock, the batch writes, the new assignments and the challan holding their ids are written; requests, ledger and orders stay as they were. |
| Store.Db.ReceiveAssignmentReturn | controllers/inventoryController.js:675-762 | The checks fail in the source's order (missing id, total ≤ 0, not found, over remaining). Otherwise the counters are committed and accounted ≤ quantity holds. |
| Store.Db.SubmitReturnRequest | controllers/returnController.js:13-107 | The checks fail in the source's order, including the lock conflict. Otherwise a `Pending` request is appended and staged under the lock, and the assignment conserves. |
| Store.Db.ReviewReturnRequest | controllers/returnController.js:115-256 | The checks fail in the source's order. A reject unstages and writes one rejection entry, leaving stock alone. An approve commits the proposal, writes one entry per positive category and credits exactly the cleared units when they are positive. |
| Store.Db.Reject | controllers/returnController.js:150-166 | A reject marks the request `Rejected` with its reviewer and reason (defaulting to "no reason"), unstages and unlocks the assignment, and adds one rejection entry; stock is untouched. |
| Store.Db.Approve | controllers/returnController.js:170-230 | An approve marks the request `Approved`, credits exactly the staged cleared units when they are positive, writes one entry per positive category, and commits the staged proposal into the counters. |
| Store.Db.Settle | controllers/returnController.js:237-238 | Saving the settled request and the unlocked assignment keeps the invariant and changes nothing else. |
| Store.Db.DirectReturnProcess | controllers/returnController.js:263-404 | The checks reserve exactly the staged total. A success commits the counters (conserving), credits cleared units, writes the category entries and appends an approved request. |
| Store.Db.CreateSaleOrder | controllers/saleOrderController.js:7-108 | No lines gives MissingInput. A failing line or an invalid order changes nothing. Otherwise assignments and stock are as the sale plan says, and the order is appended. |
| Store.Db.RecordSale | controllers/saleOrderController.js:59-85 | Saving the drained assignments, the debited stock and the new order keeps the invariant and changes nothing else. |

## Left out

- Sessions, concurrency and retries: each handler is one atomic step. `getNextChallanNumber` reads outside the session, so two concurrent allocations could compute the same number; the model serialises them.
- Response texts, HTTP status codes and console output: a failure is an error kind.
- The `notes` of receipts and challans, the `firm` of receipts and `issueDetails`: they are stored and never read. `createdAt` and the other timestamps are also left out.
- A request field that is a quantity but absent (`quantity: undefined`) leads to NaN arithmetic in the source. Item and sale-line quantities are plain integers here, and cleared/shortage/seconds default to 0 as in the destructuring.
- Products are created and edited by the product controller, which is not part of this model. The database starts from a given stock map.
- `model/WorkAssignment.js` declares neither the staging fields `pending*` nor `activeReturnRequestId` nor `sourceBatches`. Under Mongoose's strict mode such writes would be dropped. The model keeps them as the handlers write them.
- Ledger entries carry kind, amount, product, assignment and actor. The `log` text is not modelled. The corrected direct process is taken to supply the `log` that the ledger schema requires; it does not write `type`, `quantityChange` or `relatedReturnId`, which are not ledger fields.
- When the product document is gone, review reads `productId._id` on null. The model gives NullReference whenever review writes a ledger entry for an unknown product; display names (`title`, `name`) are not modelled.
- In `createInventory` the `session` is declared inside the `try`, but the `catch` and the `finally` (controllers/inventoryController.js:74-80) use it too. The `finally` runs on every path, after the commit and after the early 400 returns, so every call ends in a rejected promise from a ReferenceError; a failing save ends the same way without aborting explicitly. The model keeps only the effect on the collections: the commit, when reached, comes before the `finally`, and nothing is committed otherwise. The response that has already been sent and the unhandled rejection are not modelled.
- `updateInventory`, `deleteInventory` and the read-only report endpoints of the inventory controller are outside the modelled core. The first two can bypass the batch invariants.
- Mongo's result order for `find` without a sort is taken to be insertion order. `sort({challanDate: 1})` is modelled as a stable sort.
- `parseInt` skips JavaScript's white space and line terminators, takes an optional `+`, and reads base 16 after `0x`/`0X` and base 10 otherwise. Its floating-point result is not modelled: counters beyond 2^53 lose precision in the source and stay exact here.
- Store.Db.ReceiveAssignmentReturn: does not promise conservation, because the source's check ignores staged proposals (see `Assignments.ReceiveIgnoresStaging`).
- Store.Db.CreateSaleOrder: does not promise accounted ≤ quantity for drained assignments, because the source lowers `quantity` of fully accounted assignments (see `Sale.DrainBreaksAccounting`).

## Findings

| source | as written | input that shows it | evidently intended | confidence | as-written member | corrected member |
|---|---|---|---|---|---|---|
| controllers/returnController.js:341-343 | The ledger writes of `directReturnProcess` read `reviewedBy` and `returnRequest`, which that handler never declares. The first write throws a ReferenceError and the transaction aborts, so no direct process ever commits. | Any assignment with remaining quantity and a direct process with cleared = 1: the checks pass, then `performedBy: reviewedBy` throws. | Entries performed by the acting super-admin (`superAdminId`), followed by the approved history request. | not executed | Returns.DirectAsWrittenAlwaysAborts | Store.Db.DirectReturnProcess |
