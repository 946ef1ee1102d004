/** The administrator's dashboard: the lookups it displays, the lists it filters, the
    two billing sums, and which action each row offers. A search box's
    `toLowerCase().includes(query)` test is a parameter `m`: `m(field)` says whether the
    field matches the current query. */
module AdminDashboard {
  import opened Types
  import opened Seqs
  import opened Ledger
  import opened Records

  // ---------------------------------------------------------------- lookups

  /** The first account with that id, if any. */
  function FindUser(users: seq<User>, id: string): (r: Option<User>)
    ensures r.None? <==> forall j :: 0 <= j < |users| ==> users[j].id != id
    ensures r.Some? ==> r.value in users && r.value.id == id
  {
    Find(users, (u: User) => u.id == id)
  }

  /** `getBranchName`: the account's branch name, or "Branch <id>" when there is no
      account or it has no (or an empty) branch name. */
  function GetBranchName(users: seq<User>, b: string): (r: string)
    ensures FindUser(users, b).Some? && FindUser(users, b).value.branchName.Some? &&
            FindUser(users, b).value.branchName.value != [] ==>
      r == FindUser(users, b).value.branchName.value
    ensures FindUser(users, b).None? ==> r == "Branch " + b
    ensures FindUser(users, b).Some? && OrText(FindUser(users, b).value.branchName, "") == [] ==> r == "Branch " + b
    ensures r != []
  {
    var u := FindUser(users, b);
    OrText(if u.Some? then u.value.branchName else None, "Branch " + b)
  }

  /** `getBranchCompany`: the account's company, or "Unknown". */
  function GetBranchCompany(users: seq<User>, b: string): (r: string)
    ensures FindUser(users, b).Some? && FindUser(users, b).value.company.Some? &&
            FindUser(users, b).value.company.value != [] ==>
      r == FindUser(users, b).value.company.value
    ensures FindUser(users, b).None? ==> r == "Unknown"
    ensures FindUser(users, b).Some? &&
            (FindUser(users, b).value.company.None? || FindUser(users, b).value.company.value == []) ==>
      r == "Unknown"
    ensures r != []
  {
    var u := FindUser(users, b);
    OrText(if u.Some? then u.value.company else None, "Unknown")
  }

  /** `getBranchLastSeriesForType`: the series end of the branch's entry for that
      type, or 0 when it has none. */
  function GetBranchLastSeriesForType(inv: seq<ReceiptInventory>, b: string, t: ReceiptType): (n: int)
    ensures FindEntry(inv, b, t).Some? ==> n == FindEntry(inv, b, t).value.currentSeriesEnd
    ensures FindEntry(inv, b, t).None? ==> n == 0
  {
    match FindEntry(inv, b, t)
    case Some(e) => e.currentSeriesEnd
    case None => 0
  }

  /** The "Starts At" number shown beside each warehouse item: one past the last series. */
  function NextSeriesStart(inv: seq<ReceiptInventory>, b: string, t: ReceiptType): (n: int)
    ensures FindEntry(inv, b, t).Some? ==> n == FindEntry(inv, b, t).value.currentSeriesEnd + 1
    ensures FindEntry(inv, b, t).None? ==> n == 1
  {
    GetBranchLastSeriesForType(inv, b, t) + 1
  }

  // ---------------------------------------------------------------- filters

  /** The display name of a receipt type, as the enum's string value. */
  function TypeName(t: ReceiptType): string {
    match t
    case SalesInvoice => "Sales Invoice"
    case CollectionReceipt => "Collection Receipt"
    case DeliveryReceipt => "Delivery Receipt"
    case ServiceInvoice => "Service Invoice"
  }

  /** Does the optional text field exist and match? (`field?.…includes(q)`) */
  predicate OptionalMatches(field: Option<string>, m: string -> bool) {
    field.Some? && m(field.value)
  }

  predicate AccountShown(u: User, m: string -> bool) {
    u.role != Admin && (OptionalMatches(u.branchName, m) || OptionalMatches(u.company, m) || m(u.username))
  }

  /** `filteredAccounts`: the branch accounts that match the search, in order. */
  function FilteredAccounts(users: seq<User>, m: string -> bool): (r: seq<User>)
    ensures forall u: User :: u in r <==> u in users && AccountShown(u, m)
    ensures forall j :: 0 <= j < |r| ==> r[j].role != Admin
    ensures forall u: User :: multiset(r)[u] == if AccountShown(u, m) then multiset(users)[u] else 0
  {
    var r := Filter(users, (u: User) => AccountShown(u, m));
    assert forall j :: 0 <= j < |r| ==> r[j] in r;
    r
  }

  predicate InventoryShown(users: seq<User>, e: ReceiptInventory, m: string -> bool) {
    m(GetBranchName(users, e.branchId)) || m(e.company) || m(TypeName(e.receiptType))
  }

  /** `filteredInventory`: the entries whose branch name, company or type matches. */
  function FilteredInventory(users: seq<User>, inv: seq<ReceiptInventory>, m: string -> bool): (r: seq<ReceiptInventory>)
    ensures forall e: ReceiptInventory :: e in r <==> e in inv && InventoryShown(users, e, m)
  {
    Filter(inv, (e: ReceiptInventory) => InventoryShown(users, e, m))
  }

  predicate BillingShown(users: seq<User>, o: SupplierOrder, m: string -> bool) {
    o.status == SupplierOrderStatus.Delivered &&
    (m(GetBranchName(users, o.branchId)) || OptionalMatches(o.billingInvoiceNo, m) || OptionalMatches(o.prfNumber, m))
  }

  /** `filteredBillingOrders`: delivered supplier orders that match the search. */
  function FilteredBillingOrders(users: seq<User>, sup: seq<SupplierOrder>, m: string -> bool): (r: seq<SupplierOrder>)
    ensures forall o: SupplierOrder :: o in r <==> o in sup && BillingShown(users, o, m)
    ensures forall j :: 0 <= j < |r| ==> r[j].status == SupplierOrderStatus.Delivered
    ensures forall o: SupplierOrder :: multiset(r)[o] == if BillingShown(users, o, m) then multiset(sup)[o] else 0
  {
    var r := Filter(sup, (o: SupplierOrder) => BillingShown(users, o, m));
    assert forall j :: 0 <= j < |r| ==> r[j] in r;
    r
  }

  predicate InProcurement(o: SupplierOrder) {
    o.status != SupplierOrderStatus.Delivered
  }

  /** The procurement table: the supplier orders not yet delivered. */
  function ProcurementOrders(sup: seq<SupplierOrder>): (r: seq<SupplierOrder>)
    ensures forall o: SupplierOrder :: o in r <==> o in sup && o.status != SupplierOrderStatus.Delivered
    ensures forall o: SupplierOrder :: multiset(r)[o] == if InProcurement(o) then multiset(sup)[o] else 0
  {
    Filter(sup, (o: SupplierOrder) => InProcurement(o))
  }

  /** With an empty search (every field matches), the procurement table and the billing
      list split the supplier orders between them: each order is in exactly one of the
      two, as often as it is in the list. */
  lemma ProcurementAndBillingPartition(users: seq<User>, sup: seq<SupplierOrder>, m: string -> bool)
    requires forall s :: m(s)
    ensures multiset(ProcurementOrders(sup)) + multiset(FilteredBillingOrders(users, sup, m)) == multiset(sup)
    ensures |ProcurementOrders(sup)| + |FilteredBillingOrders(users, sup, m)| == |sup|
  {
    var p := ProcurementOrders(sup);
    var q := FilteredBillingOrders(users, sup, m);
    forall o: SupplierOrder ensures (multiset(p) + multiset(q))[o] == multiset(sup)[o] {
      assert BillingShown(users, o, m) <==> !InProcurement(o);
    }
    assert multiset(p) + multiset(q) == multiset(sup);
    assert |multiset(p) + multiset(q)| == |multiset(sup)|;
  }

  predicate IsActive(o: ReceiptOrder) {
    o.status != Received
  }

  /** `activeLogisticsRequests`: the orders not yet received. */
  function ActiveLogisticsRequests(orders: seq<ReceiptOrder>): (r: seq<ReceiptOrder>)
    ensures forall o: ReceiptOrder :: o in r <==> o in orders && o.status != Received
    ensures forall o: ReceiptOrder :: multiset(r)[o] == if IsActive(o) then multiset(orders)[o] else 0
  {
    Filter(orders, (o: ReceiptOrder) => IsActive(o))
  }

  predicate HistoryShown(o: ReceiptOrder, m: string -> bool) {
    o.status == Received && (m(o.branchName) || m(TypeName(o.receiptType)))
  }

  /** `filteredLogisticsHistory`: received orders that match the search. */
  function LogisticsHistory(orders: seq<ReceiptOrder>, m: string -> bool): (r: seq<ReceiptOrder>)
    ensures forall o: ReceiptOrder :: o in r <==> o in orders && HistoryShown(o, m)
    ensures forall j :: 0 <= j < |r| ==> r[j].status == Received
    ensures forall o: ReceiptOrder :: multiset(r)[o] == if HistoryShown(o, m) then multiset(orders)[o] else 0
  {
    var r := Filter(orders, (o: ReceiptOrder) => HistoryShown(o, m));
    assert forall j :: 0 <= j < |r| ==> r[j] in r;
    r
  }

  /** Active requests and history partition the orders when the search is empty; with
      a search, history only narrows. */
  lemma ActiveAndHistoryPartition(orders: seq<ReceiptOrder>, m: string -> bool)
    ensures (forall s :: m(s)) ==>
      multiset(ActiveLogisticsRequests(orders)) + multiset(LogisticsHistory(orders, m)) == multiset(orders)
    ensures forall o: ReceiptOrder :: !(o in ActiveLogisticsRequests(orders) && o in LogisticsHistory(orders, m))
  {
    if forall s :: m(s) {
      var a := ActiveLogisticsRequests(orders);
      var h := LogisticsHistory(orders, m);
      forall o: ReceiptOrder ensures (multiset(a) + multiset(h))[o] == multiset(orders)[o] {
        assert HistoryShown(o, m) <==> !IsActive(o);
      }
      assert multiset(a) + multiset(h) == multiset(orders);
    }
  }

  // ---------------------------------------------------------------- billing sums

  /** `o.isPaid` read as a JavaScript condition: only an explicit `true` counts. */
  predicate IsPaid(o: SupplierOrder): (r: bool)
    ensures o.isPaid.None? ==> !r
    ensures o.isPaid.Some? ==> (r <==> o.isPaid.value)
  {
    o.isPaid == Some(true)
  }

  /** `o.amount || 0` */
  function Amount(o: SupplierOrder): (a: int)
    ensures o.amount.None? ==> a == 0
    ensures o.amount.Some? ==> a == o.amount.value
  {
    OrNumber(o.amount, 0)
  }

  /** `totalPaid`: the amounts of the paid orders, summed left to right. With the unpaid
      total it splits the billed amount: every order counts in exactly one. */
  function TotalPaid(s: seq<SupplierOrder>): (r: int)
    ensures r + TotalUnpaid(s) == TotalAmount(s)
  {
    if s == [] then 0
    else TotalPaid(s[..|s| - 1]) + (if IsPaid(s[|s| - 1]) then Amount(s[|s| - 1]) else 0)
  }

  /** `totalUnpaid`: the amounts of the orders not paid, summed left to right. */
  function TotalUnpaid(s: seq<SupplierOrder>): (r: int)
    ensures (forall j :: 0 <= j < |s| ==> IsPaid(s[j])) ==> r == 0
  {
    if s == [] then 0
    else TotalUnpaid(s[..|s| - 1]) + (if !IsPaid(s[|s| - 1]) then Amount(s[|s| - 1]) else 0)
  }

  /** The amounts of all orders, a missing amount counting as 0. */
  function TotalAmount(s: seq<SupplierOrder>): (r: int)
    ensures (forall j :: 0 <= j < |s| ==> Amount(s[j]) >= 0) ==> r >= 0
  {
    if s == [] then 0 else TotalAmount(s[..|s| - 1]) + Amount(s[|s| - 1])
  }

  /** Confirming payment of one unpaid order moves its amount from the unpaid to the
      paid total, and the billed amount stays the same. */
  lemma {:induction false} PaymentMovesAmount(s: seq<SupplierOrder>, k: nat)
    requires k < |s| && !IsPaid(s[k])
    ensures TotalPaid(s[k := s[k].(isPaid := Some(true))]) == TotalPaid(s) + Amount(s[k])
    ensures TotalUnpaid(s[k := s[k].(isPaid := Some(true))]) == TotalUnpaid(s) - Amount(s[k])
    ensures TotalAmount(s[k := s[k].(isPaid := Some(true))]) == TotalAmount(s)
  {
    PaidAndBilledAfterPayment(s, k);
  }

  /** The paid and billed halves of that, by induction on the list. */
  lemma {:induction false} PaidAndBilledAfterPayment(s: seq<SupplierOrder>, k: nat)
    requires k < |s| && !IsPaid(s[k])
    ensures TotalPaid(s[k := s[k].(isPaid := Some(true))]) == TotalPaid(s) + Amount(s[k])
    ensures TotalAmount(s[k := s[k].(isPaid := Some(true))]) == TotalAmount(s)
  {
    var s' := s[k := s[k].(isPaid := Some(true))];
    if k == |s| - 1 {
      assert s'[..|s'| - 1] == s[..|s| - 1];
    } else {
      PaidAndBilledAfterPayment(s[..|s| - 1], k);
      assert s'[..|s'| - 1] == s[..|s| - 1][k := s[k].(isPaid := Some(true))];
    }
  }

  // ---------------------------------------------------------------- row actions

  /** The button a branch order's row offers. */
  datatype OrderAction = ApproveButton | ShipButton | MarkArrivedButton | NoButton

  /** Approve only for PENDING, Ship only for APPROVED, Mark Arrived only for IN_TRANSIT. */
  function OrderActionFor(o: ReceiptOrder): (a: OrderAction)
    ensures a == ApproveButton <==> o.status == Pending
    ensures a == ShipButton <==> o.status == Approved
    ensures a == MarkArrivedButton <==> o.status == InTransit
  {
    match o.status
    case Pending => ApproveButton
    case Approved => ShipButton
    case InTransit => MarkArrivedButton
    case _ => NoButton
  }

  /** The button a procurement row offers. */
  datatype SupplierAction = MarkShippedButton | ConfirmDeliveryButton

  /** A REQUESTED order can be marked SHIPPED (PROCESSED is skipped); any other order
      still in the table can be confirmed as delivered. */
  function SupplierActionFor(o: SupplierOrder): (a: SupplierAction)
    ensures a == MarkShippedButton <==> o.status == Requested
  {
    if o.status == Requested then MarkShippedButton else ConfirmDeliveryButton
  }

  /** The status the "Mark Shipped" button writes. */
  const MarkShippedStatus: SupplierOrderStatus := Shipped

  /** No button of the dashboard ever writes PROCESSED: "Mark Shipped" writes SHIPPED
      and "Confirm Delivery" writes DELIVERED. */
  lemma ProcessedNeverWritten(sup: seq<SupplierOrder>, id: string, d: DeliveryDetails)
    ensures MarkShippedStatus != Processed
    ensures forall j :: 0 <= j < |sup| && sup[j].id == id ==>
      SetSupplierStatus(sup, id, MarkShippedStatus)[j].status == Shipped &&
      DeliverSupplierOrders(sup, id, d)[j].status == SupplierOrderStatus.Delivered
  {
  }

  /** What a billing row offers. */
  datatype BillingAction = AddPrfButton | ConfirmPaymentButton | Complete

  /** `!o.prfNumber` first, then `!o.isPaid`. */
  function BillingActionFor(o: SupplierOrder): (a: BillingAction)
    ensures a == AddPrfButton <==> OrText(o.prfNumber, "") == []
    ensures a == ConfirmPaymentButton <==> OrText(o.prfNumber, "") != [] && !IsPaid(o)
    ensures a == Complete <==> OrText(o.prfNumber, "") != [] && IsPaid(o)
  {
    if OrText(o.prfNumber, "") == [] then AddPrfButton
    else if !IsPaid(o) then ConfirmPaymentButton
    else Complete
  }

  /** The patch "Confirm Payment" sends. */
  const PaymentPatch: SupplierPatch := SupplierPatch(None, None, None, None, None, None, Some(true))

  /** Confirming payment completes the row: once the patch is applied the row offers no
      further action, and the patch changes nothing but the payment flag. */
  lemma PaymentCompletes(o: SupplierOrder)
    requires BillingActionFor(o) == ConfirmPaymentButton
    ensures BillingActionFor(PatchSupplierOrder(o, PaymentPatch)) == Complete
    ensures PatchSupplierOrder(o, PaymentPatch) == o.(isPaid := Some(true))
  {
  }
}
