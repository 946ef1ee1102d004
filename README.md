# Cashwrap receipt monitoring: a Dafny model of the booklet reconciliation

Cashwrap tracks pre-printed receipt booklets for a group of retail branches. The
central warehouse holds stock for each branch, counted in **units**: boxes of 500
Sales Invoices, or booklets of 50 receipts of the other types. Each branch keeps a
**ledger entry** per receipt type. An entry holds the current series bounds, the last
number used and the receipts that remain, and it is flagged low at 5000 / 250.

Stock moves through a lifecycle:

- A branch requests units. The order is PENDING.
- The administrator approves the order, then ships it from a typed-in start series. Shipping takes the units from the warehouse allocation.
- The order is marked arrived (DELIVERED).
- The branch confirms receipt (RECEIVED), which credits its ledger entry.
- The administrator also orders stock from the supplier (REQUESTED, SHIPPED, DELIVERED), confirms the delivery, which replenishes the warehouse, and tracks PRF numbers and payment.

The program exists in two revisions that differ in their guards and fallbacks: `App.tsx` and `app/page.tsx`. Both are modelled, over one shared domain.

Modules:

- `Types` (types.dfy): the enumerations and record shapes. Optional fields are `Option`. JavaScript's `x || fallback` on optional text and numbers is written out, because an empty string or 0 counts as false.
- `Rules`: 500/Box versus 50/Booklet, the 5000/250 threshold, and the series-end arithmetic.
- `Seqs`: `find`, `map` restricted to matching elements, and `filter` on sequences.
- `Ledger`: inventory entries. A lookup takes the first entry for a (branch, type) pair, and an update rewrites every such entry. Also the consumption step and the upsert of a receipt.
- `Warehouse`: the per-branch item lists. This covers lazy creation, the guarded and the clamped decrement, replenishment, and the well-formedness invariant that the operations keep.
- `Records`: the user, order and supplier-order record transforms that both revisions share.
- `Seed`: the demonstration data of `constants.ts`.
- `App`: class `AppStore`, with the five state slots of `App.tsx` as fields and one method per handler. Each method states its whole new state through the functions above.
- `Page`: class `PageStore`, the same for `app/page.tsx`. Shipping and supplier delivery are a fold, one warehouse write per matching order.
- `Text`: `String.prototype.trim`.
- `BranchDashboard`: the branch portal. It models the unit-label and pack-size lookups, the consumption validation, the request and arrival forms, the class `BranchForm` for the form state those handlers reset, and the status-gated buttons.
- `AdminDashboard`: the administrator's lookups and filters, the two billing sums, and the row actions. The search test is a parameter `m`.
- `Lifecycle`: how the operations compose along an order's life, in both revisions.
- `Scenarios`: facts about the seed data and the demonstration order.

## Model

| member | source | states |
|---|---|---|
| Types.ReceiptTypesClosed | types.ts:7-12 | the receipt types are exactly four distinct values |
| Types.OrderStatusesClosed | types.ts:14-21 | six distinct order statuses, CANCELLED among them |
| Types.SupplierOrderStatusesClosed | types.ts:23-28 | four distinct supplier order statuses |
| Types.OrText | components/BranchDashboard.tsx:82 | `text \|\| fallback`: the text unless it is absent or empty |
| Types.OrNumber | App.tsx:119 | `n \|\| fallback`: the number unless it is absent or 0 |
| Rules.ReceiptsPerUnit | App.tsx:76 | 500 exactly for Sales Invoice, 50 exactly for the others, always positive |
| Rules.UnitLabelFor | App.tsx:77 | Box exactly for Sales Invoice |
| Rules.ThresholdFor | App.tsx:123 | 5000 exactly for Sales Invoice, 250 exactly for the others |
| Rules.SeriesEnd | App.tsx:166-168 | a series from `start` to the result holds exactly `receipts` numbers |
| Rules.ThresholdInUnits | App.tsx:123 | the threshold is ten boxes or five booklets |
| Rules.LabelMatchesPackSize | App.tsx:76-77 | Box goes with 500 and Booklet with 50, both ways |
| Seqs.FirstIndex | App.tsx:109 | the index `find` stops at: it matches, and nothing before it does |
| Seqs.Find | App.tsx:109 | `find`: None exactly when nothing matches; otherwise a matching element of the list |
| Seqs.MapWhere | App.tsx:151 | `map` with a conditional: same length, matching elements rewritten, the others untouched |
| Seqs.Filter | app/page.tsx:46 | `filter`: exactly the matching elements, each as often as in the input |
| Seqs.MapWhereNoMatch | App.tsx:151 | rewriting when nothing matches is the identity |
| Ledger.FindEntry | components/AdminDashboard.tsx:85-86 | the first entry for (branch, type): None exactly when there is none |
| Ledger.Consume | App.tsx:45-53 | sets the last number used, date and logger; takes the consumed receipts off the stock, clamped at 0; touches no other field |
| Ledger.UpdateLastUsed | App.tsx:43-57 | every entry for (branch, type) is consumed and all others are unchanged; no consumed entry ends negative |
| Ledger.Upsert | App.tsx:121-147 | an existing pair has every matching entry rewritten; an absent pair gets the new entry appended |
| Ledger.ValidConsumptionKeepsBalance | components/BranchDashboard.tsx:62 | consuming up to a number in the open range keeps a balanced entry balanced |
| Ledger.ConsumptionNeverIncreasesStock | App.tsx:50 | any strictly increasing run of logged numbers, as the check at components/BranchDashboard.tsx:62 allows, never raises the remaining stock and never makes it negative |
| Ledger.IsLow | components/BranchDashboard.tsx:120 | on a balanced entry: low exactly when the unused part of the series is at most the threshold (the same test as components/AdminDashboard.tsx:448) |
| Warehouse.NewItem | App.tsx:76-81 | an item of the branch and type holding the given units, with the 500/Box, 50/Booklet pack size and label |
| Warehouse.FindItem | App.tsx:158-159 | the branch's first item of the type; None exactly when the branch has none |
| Warehouse.Rewrite | App.tsx:170-177 | the branch's items of the type are rewritten in place; other branches are unchanged |
| Warehouse.EnsureItem | App.tsx:71-83 | unchanged when the item exists; otherwise a zero-unit item with the derived pack size and label is appended; afterwards the item exists |
| Warehouse.TakeUnits | App.tsx:170-177 | every item of that type loses exactly `q` units; other items and branches are unchanged |
| Warehouse.TakeUnitsClamped | app/page.tsx:92-98 | every item of that type loses `q` units, never going below 0; other items and branches are unchanged |
| Warehouse.Replenish | App.tsx:195-214 | an existing item gains `units`; an absent one is appended holding `units`; the item found afterwards holds the sum |
| Warehouse.EnsureItemWellFormed | App.tsx:71-83 | lazy creation keeps the warehouse well formed |
| Warehouse.ReplenishWellFormed | App.tsx:195-214 | replenishing a non-negative amount keeps the warehouse well formed |
| Warehouse.TakeUnitsClampedWellFormed | app/page.tsx:92-98 | the clamped decrement keeps the warehouse well formed |
| Warehouse.TakeUnitsWellFormed | App.tsx:161-177 | once the stock guard passes, the unclamped decrement keeps the warehouse well formed |
| Records.NewBranchUser | App.tsx:27-34 | a BRANCH account with the given id, username, branch name, company and TIN |
| Records.PatchUser | App.tsx:39 | `{...u, ...updates}`: each field present in the patch replaces the user's, the id stays |
| Records.PatchUsers | App.tsx:39 | only users with that id take the patch |
| Records.SyncCompany | App.tsx:40 | the branch's entries take the new company unless it is absent or empty; others unchanged |
| Records.DeleteUser | app/page.tsx:44-48 | exactly the users without that id remain, with their multiplicities |
| Records.NewOrder | App.tsx:60-68 | a PENDING order of the branch, company, branch name, type and units, requested today, with no series, delivery date or receiver |
| Records.FindOrder | App.tsx:109 | the first order with the id; None exactly when there is none |
| Records.ApproveOrders | App.tsx:150-152 | orders with the id become APPROVED; nothing else changes; no CANCELLED is created |
| Records.ReceiveOrders | App.tsx:112 | orders with the id become RECEIVED with the receiver recorded; no CANCELLED is created |
| Records.EditOrders | App.tsx:104 | type and units change only for orders with the id, and only PENDING ones when protected; no CANCELLED is created |
| Records.RewriteCreatesNoCancellation | types.ts:20 | a rewrite that never writes CANCELLED adds no cancelled id |
| Records.PrependCreatesNoCancellation | App.tsx:85 | prepending a non-CANCELLED order adds no cancelled id |
| Records.NewSupplierOrder | App.tsx:217-225 | a REQUESTED supplier order of the branch, type and units, requested today, with the given payment flag and no PRF number, billing or delivery details |
| Records.FindSupplierOrder | App.tsx:238-239 | the first supplier order with the id; None exactly when there is none |
| Records.SetSupplierStatus | App.tsx:229-231 | supplier orders with the id take the status; the others are unchanged |
| Records.PatchSupplierOrder | App.tsx:233-235 | each of PRF number, billing invoice, amount, delivery receipt, delivery date and payment flag present in the patch replaces the order's, an absent one keeps it; identity fields stay |
| Records.PatchSupplierOrders | App.tsx:233-235 | only supplier orders with the id take the patch |
| Records.DeliverSupplierOrder | App.tsx:241-245 | the billing details are merged and the status is DELIVERED; identity and payment fields stay |
| Records.DeliverSupplierOrders | App.tsx:241-245 | only supplier orders with the id are delivered |
| App.ShipCheck | App.tsx:155-164 | not found exactly when no order has the id; accepted exactly when the branch has the item with at least the order's units |
| App.ShipOrders | App.tsx:166-184 | every order with the id goes IN_TRANSIT with the one series `start..end` computed from the order found; the others are unchanged |
| App.DeliverOrders | App.tsx:187-193 | orders with the id become DELIVERED with the delivery date |
| App.PackSizeAtReceipt | App.tsx:114-116 | the configured pack size unless it is absent or 0, then the fixed rule |
| App.RaiseEntry | App.tsx:125-132 | a credited entry keeps its branch, type, company, series start and last used; its stock grows by the receipts; an order without a series end sets the end to 0 |
| App.CreatedEntry | App.tsx:133-145 | a new entry for the order's branch, type and company holding the receipts; balanced when the order carries a series of that length |
| App.CreditReceipt | App.tsx:118-147 | existing entries gain the receipts, the order's series end (or 0), the type's threshold and today's date, keeping start and last used; otherwise a new entry with the order's company and today's date is appended starting at `seriesStart or 0` with last used one before it |
| App.PackSizesAgree | App.tsx:114-166 | on a well-formed warehouse the configured pack size is the fixed rule |
| App.ContiguousReceiptKeepsBalance | App.tsx:125-132 | a delivery whose series continues the entry keeps it balanced |
| App.CreatedEntryBalanced | App.tsx:133-145 | an entry created from a shipped order is balanced |
| App.AppStore.constructor | App.tsx:12-16 | the seed data and no supplier orders |
| App.AppStore.AddBranch | App.tsx:26-36 | a branch account is appended; nothing else changes |
| App.AppStore.UpdateUser | App.tsx:38-41 | users are patched and the branch's entries take the new company |
| App.AppStore.UpdateLastUsed | App.tsx:43-57 | the inventory becomes the consumption of (branch, type); nothing else changes |
| App.AppStore.RequestReceipts | App.tsx:59-86 | a PENDING order is prepended and the warehouse item is created if missing; well-formedness is kept |
| App.AppStore.UpdateRequest | App.tsx:88-106 | an unknown id changes nothing; otherwise the item for the new type is ensured and only a PENDING order is edited |
| App.AppStore.ConfirmReceipt | App.tsx:108-148 | nothing unless the order exists and is DELIVERED; then RECEIVED and the ledger is credited |
| App.AppStore.ApproveOrder | App.tsx:150-152 | orders with the id become APPROVED whatever their status |
| App.AppStore.ShipOrder | App.tsx:154-185 | refused without change unless the stock guard passes; then the units are taken and every order with the id goes IN_TRANSIT with the one series computed from the order found |
| App.AppStore.MarkAsDelivered | App.tsx:187-193 | DELIVERED with today's date |
| App.AppStore.ReplenishWarehouse | App.tsx:195-214 | the warehouse is replenished; only the warehouse changes |
| App.AppStore.RequestFromSupplier | App.tsx:216-227 | a REQUESTED, unpaid supplier order is prepended |
| App.AppStore.UpdateSupplierOrder | App.tsx:229-231 | supplier orders with the id take the status |
| App.AppStore.UpdateSupplierDetails | App.tsx:233-235 | supplier orders with the id take the patch |
| App.AppStore.ConfirmSupplierDelivery | App.tsx:237-248 | an unknown id changes nothing; otherwise DELIVERED with the details, and the found order's units are replenished |
| Page.PageStamp | app/page.tsx:86-106 | IN_TRANSIT with the series from `start` as long as the order's units times 500 or 50, and the ship date as delivery date; no other field changes |
| Page.PageShipOrders | app/page.tsx:84-110 | every order with the id is stamped with a series of its own length; the others are unchanged; every id stays |
| Page.ShipAllClamped | app/page.tsx:85-98 | no matching order gives no change; branches without a matching order are unchanged; well-formedness is kept |
| Page.ShipAllClampedSingle | app/page.tsx:85-98 | with one matching order, shipping is one clamped decrement |
| Page.ReplenishAll | app/page.tsx:165-191 | no matching order gives no change; other branches are unchanged; well-formedness is kept for non-negative quantities |
| Page.ReplenishAllSingle | app/page.tsx:165-191 | with one matching supplier order, the delivery is one replenishment |
| Page.MarkDelivered | app/page.tsx:112-114 | only the status becomes DELIVERED |
| Page.PageRaiseEntry | app/page.tsx:128-133 | a credited entry keeps its branch, type, company, series start, last used and threshold; its stock grows by the receipts; an absent or 0 series end keeps the old end |
| Page.PageCreatedEntry | app/page.tsx:135-145 | a new entry for the order's branch, type and company; without a series start it starts at 0 with last used 0; balanced for a series of that length starting anywhere but 0 |
| Page.PageCreditReceipt | app/page.tsx:122-146 | existing entries gain the receipts and keep their series end when the order's is absent or 0, threshold untouched; otherwise an entry with the order's company is appended with series `seriesStart or 0` to `seriesEnd or 0` and last used `(seriesStart or 1) - 1` |
| Page.PageCreatedEntryBalanced | app/page.tsx:135-145 | the created entry is balanced when the order's series starts anywhere but 0 |
| Page.PageCreatedEntryZeroStart | app/page.tsx:139-141 | a series starting at 0 is created counting one receipt more than it has left |
| Page.PageContiguousReceiptKeepsBalance | app/page.tsx:128-133 | a continuing series keeps the entry balanced |
| Page.PageReceiptWithoutSeriesUnbalances | app/page.tsx:116-134 | crediting an order never shipped unbalances a balanced entry |
| Page.PageStore.constructor | app/page.tsx:14-18 | the seed data and no supplier orders |
| Page.PageStore.AddBranch | app/page.tsx:28-38 | a branch account is appended |
| Page.PageStore.UpdateUser | app/page.tsx:40-42 | users are patched and the inventory is untouched |
| Page.PageStore.DeleteUser | app/page.tsx:44-48 | if confirmed, exactly the users with the id are removed; nothing else changes |
| Page.PageStore.UpdateLastUsed | app/page.tsx:50-64 | the same consumption as `App.tsx` |
| Page.PageStore.RequestReceipts | app/page.tsx:66-78 | a PENDING order is prepended with no warehouse change |
| Page.PageStore.UpdateRequest | app/page.tsx:225 | type and units change for the id whatever the status |
| Page.PageStore.ApproveOrder | app/page.tsx:80-82 | orders with the id become APPROVED |
| Page.PageStore.ShipOrder | app/page.tsx:84-110 | no guard: clamped decrements for the matching orders, then IN_TRANSIT with series and date |
| Page.PageStore.MarkAsDelivered | app/page.tsx:112-114 | only the status |
| Page.PageStore.ConfirmReceipt | app/page.tsx:116-147 | an unknown id changes nothing; otherwise RECEIVED and credited, with no status guard |
| Page.PageStore.RequestFromSupplier | app/page.tsx:149-159 | a REQUESTED supplier order without a payment flag is prepended |
| Page.PageStore.UpdateSupplierStatus | app/page.tsx:161-163 | supplier orders with the id take the status |
| Page.PageStore.UpdateSupplierDetails | app/page.tsx:212 | supplier orders with the id take the patch |
| Page.PageStore.ConfirmSupplierDelivery | app/page.tsx:165-191 | each matching supplier order replenishes the warehouse, then all are DELIVERED with the details |
| Text.TextStart | components/BranchDashboard.tsx:57 | the first position from `i` on that is not white space |
| Text.TextEnd | components/BranchDashboard.tsx:57 | one past the last position before `m` that is not white space |
| Text.Trim | components/BranchDashboard.tsx:57 | neither end is white space, and the result is empty exactly when the input is all white space |
| Text.TrimIdempotent | components/BranchDashboard.tsx:63 | trimming twice is trimming once |
| BranchDashboard.ConfigFor | components/BranchDashboard.tsx:44 | the first configured item of the type |
| BranchDashboard.GetUnitLabel | components/BranchDashboard.tsx:43-47 | the configured label, else Box for Sales Invoice and Booklet otherwise |
| BranchDashboard.GetReceiptsPerUnit | components/BranchDashboard.tsx:49-53 | the configured pack size, else 500 for Sales Invoice and 50 otherwise |
| BranchDashboard.ConfiguredRuleIsFixedRule | components/BranchDashboard.tsx:43-53 | on a well-formed list both lookups agree with the fixed rule |
| BranchDashboard.TotalReceiptsPreview | components/BranchDashboard.tsx:277 | the requested units times the pack size shown |
| BranchDashboard.BranchView | app/page.tsx:221 | exactly the branch's entries |
| BranchDashboard.ActiveEntry | components/BranchDashboard.tsx:41 | the first entry of the view with the type |
| BranchDashboard.ActiveEntryIsLedgerEntry | components/BranchDashboard.tsx:41 | the branch's active entry is the ledger's first entry for (branch, type) |
| BranchDashboard.EditOffered | components/BranchDashboard.tsx:192 | Edit is never offered together with Confirm Arrival |
| BranchDashboard.ConfirmArrivalOffered | components/BranchDashboard.tsx:206 | Confirm Arrival is never offered for an order already RECEIVED or CANCELLED |
| BranchDashboard.SeriesUpdateDecision | components/BranchDashboard.tsx:55-69 | refused for a missing field or blank logger; dispatched exactly when an entry exists and the number lies in (last used, series end], with the trimmed logger |
| BranchDashboard.AcceptedUpdateKeepsBalance | components/BranchDashboard.tsx:61-63 | a dispatched consumption keeps every balanced entry balanced and takes exactly the consumed receipts |
| BranchDashboard.ShownLowerBound | components/BranchDashboard.tsx:67 | the refusal message's lower bound as written: the last number used itself |
| BranchDashboard.ShownLowerBoundIsRefused | components/BranchDashboard.tsx:62-67 | the shown lower bound is refused by the check it explains |
| BranchDashboard.LeastAcceptedNumber | components/BranchDashboard.tsx:67 | the intended lower bound: one past the last number used |
| BranchDashboard.LeastAcceptedNumberIsLeast | components/BranchDashboard.tsx:62-67 | a number is accepted exactly when it lies between the intended bound and the series end |
| BranchDashboard.RequestSubmitCall | components/BranchDashboard.tsx:78-85 | an update exactly when an order is being edited, otherwise a request with the user's company and branch or "" |
| BranchDashboard.ArrivalCall | components/BranchDashboard.tsx:87-94 | dispatched exactly with a selected order and a receiver that is not blank, passed trimmed |
| BranchDashboard.BranchForm.constructor | components/BranchDashboard.tsx:28-39 | the initial form state |
| BranchDashboard.BranchForm.SubmitSeriesUpdate | components/BranchDashboard.tsx:55-69 | the decision; on dispatch the number and logger fields are cleared, otherwise nothing changes |
| BranchDashboard.BranchForm.OpenEditModal | components/BranchDashboard.tsx:71-76 | the form takes the order's id, type and units and opens |
| BranchDashboard.BranchForm.SubmitRequest | components/BranchDashboard.tsx:78-101 | the call, then the form closes and resets to Sales Invoice and 5 units |
| BranchDashboard.BranchForm.ConfirmArrival | components/BranchDashboard.tsx:87-94 | the call; on dispatch the selection and receiver are cleared |
| AdminDashboard.FindUser | components/AdminDashboard.tsx:82 | the first account with the id; None exactly when there is none |
| AdminDashboard.GetBranchName | components/AdminDashboard.tsx:82 | the branch name, else "Branch " + id when there is no account or no name |
| AdminDashboard.GetBranchCompany | components/AdminDashboard.tsx:83 | the company; "Unknown" when there is no account or the account's company is absent or empty |
| AdminDashboard.GetBranchLastSeriesForType | components/AdminDashboard.tsx:88-91 | the first entry's series end, else 0 |
| AdminDashboard.NextSeriesStart | components/AdminDashboard.tsx:198-207 | the "Starts At" number: last series end + 1, or 1 |
| AdminDashboard.FilteredAccounts | components/AdminDashboard.tsx:132-136 | exactly the matching non-admin accounts; never an admin |
| AdminDashboard.FilteredInventory | components/AdminDashboard.tsx:138-142 | exactly the entries whose branch name, company or type matches |
| AdminDashboard.FilteredBillingOrders | components/AdminDashboard.tsx:144-149 | exactly the DELIVERED supplier orders that match |
| AdminDashboard.ProcurementOrders | components/AdminDashboard.tsx:238 | exactly the supplier orders not DELIVERED |
| AdminDashboard.ProcurementAndBillingPartition | components/AdminDashboard.tsx:144-238 | with an empty search the two tables split the supplier orders exactly |
| AdminDashboard.ActiveLogisticsRequests | components/AdminDashboard.tsx:151 | exactly the orders not RECEIVED |
| AdminDashboard.LogisticsHistory | components/AdminDashboard.tsx:152-156 | exactly the RECEIVED orders that match |
| AdminDashboard.ActiveAndHistoryPartition | components/AdminDashboard.tsx:151-156 | never in both lists; with an empty search they partition the orders |
| AdminDashboard.Amount | components/AdminDashboard.tsx:158 | `amount \|\| 0` |
| AdminDashboard.IsPaid | components/AdminDashboard.tsx:158-159 | only an explicit `true` counts as paid; an absent flag is unpaid |
| AdminDashboard.TotalPaid | components/AdminDashboard.tsx:158-159 | paid total plus unpaid total is the total amount: every order counts in exactly one |
| AdminDashboard.TotalUnpaid | components/AdminDashboard.tsx:158-159 | 0 when every order is paid |
| AdminDashboard.TotalAmount | components/AdminDashboard.tsx:158-159 | never negative when no amount is |
| AdminDashboard.PaymentMovesAmount | components/AdminDashboard.tsx:327 | confirming payment moves exactly that amount from unpaid to paid |
| AdminDashboard.OrderActionFor | components/AdminDashboard.tsx:369-371 | Approve exactly for PENDING, Ship exactly for APPROVED, Mark Arrived exactly for IN_TRANSIT |
| AdminDashboard.SupplierActionFor | components/AdminDashboard.tsx:250-254 | Mark Shipped exactly for REQUESTED, else Confirm Delivery |
| AdminDashboard.ProcessedNeverWritten | components/AdminDashboard.tsx:251 | no supplier button writes PROCESSED |
| AdminDashboard.BillingActionFor | components/AdminDashboard.tsx:324-330 | Add PRF without PRF number; Confirm Payment with one and unpaid; Complete otherwise |
| AdminDashboard.PaymentCompletes | components/AdminDashboard.tsx:327 | after Confirm Payment the row is Complete, and only the payment flag changed |
| Lifecycle.ButtonsAdvanceLifecycle | components/AdminDashboard.tsx:369-371 | each button's handler moves the order to where the next button appears; Edit is offered for every order an edit changes |
| Lifecycle.PackSizeAtReceiptIsRule | App.tsx:114-116 | on a well-formed warehouse the pack size at receipt is the fixed rule |
| Lifecycle.RevisionsShipSameSeries | App.tsx:166-184 | on a well-formed warehouse and with one order per id, both revisions stamp the same series |
| Lifecycle.RevisionsDifferOnDuplicateIds | App.tsx:166-184 | with two orders sharing an id, `App.tsx` stamps both with the first order's end while `app/page.tsx` gives each its own |
| Lifecycle.AppLifecycleKeepsBalance | App.tsx:108-193 | ship from "Starts At", deliver, confirm: the order is found delivered and its entry stays balanced, gaining the receipts |
| Lifecycle.AppReceiptPackSize | App.tsx:114-177 | after the guarded decrement the pack size at receipt is the fixed rule |
| Lifecycle.AppShippedThenDelivered | App.tsx:179-193 | shipping then delivering is found again as the delivered order |
| Lifecycle.AppCreditKeepsBalance | App.tsx:121-132 | crediting a continuing series keeps the branch's only entry balanced |
| Lifecycle.PageLifecycleKeepsBalance | app/page.tsx:84-147 | the same walk in this revision keeps the entry balanced |
| Lifecycle.PageShippedThenDelivered | app/page.tsx:84-114 | shipping then delivering found again |
| Lifecycle.PageCreditKeepsBalance | app/page.tsx:122-134 | crediting a continuing series keeps the entry balanced |
| Lifecycle.AppCreditKeepsEntriesUnique | App.tsx:121-147 | a ledger with one entry per (branch, type) keeps one after `confirmReceipt`'s upsert |
| Lifecycle.PageCreditKeepsEntriesUnique | app/page.tsx:122-146 | the same for this revision's upsert |
| Lifecycle.UpdateLastUsedKeepsEntriesUnique | App.tsx:43-57 | logging a consumption keeps one entry per (branch, type) |
| Lifecycle.SyncCompanyKeepsEntriesUnique | App.tsx:40 | renaming a branch's company keeps one entry per (branch, type) |
| Scenarios.SeedLedgerConsistent | constants.ts:11-16 | every seeded entry is balanced, low, with its type's threshold, and unique per type |
| Scenarios.SeedWarehouseWellFormed | constants.ts:22-34 | the seeded warehouse is well formed |
| Scenarios.SeedAccounts | constants.ts:4-9 | exactly one admin; distinct usernames and ids |
| Scenarios.SeedShipScenario | constants.ts:18-34 | ord_1 is offered Approve, passes the stock guard and would start at 5001 |
| Scenarios.SeedShipTakesUnits | constants.ts:22-34 | shipping ord_1 drops branch 2's 15 boxes to 10 |
| Scenarios.SeedShipSeries | constants.ts:18-20 | a series for ord_1 from any `s` ends at `s + 2499` |
| Scenarios.SeedLifecycle | constants.ts:11-20 | the walk through confirmation leaves branch 2's entry balanced at 2,650 receipts, ending at 7500 |

"Balanced" means `currentSeriesStart - 1 <= lastUsedNumber <= currentSeriesEnd` and
`remainingStock == currentSeriesEnd - lastUsedNumber`. "Well formed" for the warehouse
means four things for each branch's list:

- every item is filed under its own branch;
- no item holds negative stock;
- every item follows the 500/Box, 50/Booklet rule;
- no type occurs twice.

## Left out

- Rendering, CSS and the UI-only state (tabs, modal visibility, search text) are not modelled. The login, navigation bar, layouts, entry point and styling configuration are presentation and boot code.
- `handleLogin` is authentication glue.
- The remote database clients are foreign calls and asynchronous I/O: `lib/supabase.ts`, `lib/mongodb.ts`, `utils/supabase/server.ts` and `app/notes/page.tsx`.
- `Date.now()` ids and `new Date()` dates are parameters of the handlers.
- `alert` becomes a returned outcome. `confirm` becomes a boolean parameter.
- `parseInt` of form text: BranchDashboard.SeriesUpdateDecision takes the last-used number as an already-parsed `Option<int>`, with None standing for NaN. App.AppStore.ShipOrder and Page.PageStore.ShipOrder take the ship start (components/AdminDashboard.tsx:375) as an integer, and the unit counts (components/BranchDashboard.tsx:275, components/AdminDashboard.tsx:539) are integers too. The NaN start that an untouched, empty box (components/AdminDashboard.tsx:370) produces, which `seriesEnd || 0` later reads as 0, is not modelled. Amounts are integers, not floating point.
- Search uses `toLowerCase().includes` (case folding). It is taken as an uninterpreted predicate `m`.
- React's nested state updaters in `app/page.tsx` (the warehouse written from inside the orders callback) are sequentialised: orders first, then one warehouse write per matching order, in list order. In `App.tsx`, `updateRequest` writes the warehouse from inside the orders updater; this is modelled as one step.
- A patch field explicitly set to `undefined` in a `Partial<...>` is treated as absent. The supplier delivery details, typed `any` in `app/page.tsx`, are the four fields `App.tsx` names.
- `onReplenishWarehouse` in `app/page.tsx:209` is a no-op; `PageStore` has no replenish method.
- The administrator's supplier-request form checks `if(supBranchId)` (components/AdminDashboard.tsx:528); that form guard is not modelled.
- Series overlap is not excluded: the start series is typed in by the administrator, so the model does not claim that series are disjoint.
- Ship, approve, mark-delivered and supplier-confirm (App.tsx:150-193, App.tsx:237-248) do not check the order's prior status, so repeating them is not idempotent and no such claim is made; `confirmReceipt` does check for DELIVERED (App.tsx:110) and `updateRequest` edits only PENDING orders (App.tsx:104). The lifecycle lemmas start from the state each button is offered in.
- components/AdminDashboard.tsx:369-371 offers Ship only for APPROVED orders, but `shipOrder` (App.tsx:154-164) checks only the stock, so a second call decrements again; the model follows the code.
- Lifecycle.AppLifecycleKeepsBalance and Lifecycle.PageLifecycleKeepsBalance require one order per id and one ledger entry per (branch, type); Lifecycle.RevisionsShipSameSeries, Lifecycle.AppShippedThenDelivered and Lifecycle.PageShippedThenDelivered require one order per id. The source does not enforce unique order ids: they come from `Date.now()`. One entry per (branch, type) is kept by the ledger handlers, because `confirmReceipt` appends only when `find` found nothing; Lifecycle.AppCreditKeepsEntriesUnique, Lifecycle.PageCreditKeepsEntriesUnique, Lifecycle.UpdateLastUsedKeepsEntriesUnique and Lifecycle.SyncCompanyKeepsEntriesUnique prove it, and the seed ledger starts that way. On duplicate ids the two revisions stamp different ends, as Lifecycle.RevisionsDifferOnDuplicateIds shows.

## Findings

| source | as written | input that shows it | evidently intended | confidence | as-written member | corrected member |
|---|---|---|---|---|---|---|
| components/BranchDashboard.tsx:67 | the refusal message shows `activeInv?.lastUsedNumber \|\| 0 + 1`, which parses as `lastUsedNumber \|\| 1` and shows the last number used itself | the seeded Sales Invoice entry of branch 2 (last used 4850): the message reads "between 4850 and 5000", but entering 4850 is refused | `(activeInv?.lastUsedNumber \|\| 0) + 1`, the least number accepted | high; not executed | BranchDashboard.ShownLowerBound, BranchDashboard.ShownLowerBoundIsRefused | BranchDashboard.LeastAcceptedNumber, BranchDashboard.LeastAcceptedNumberIsLeast |
