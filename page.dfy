/** The handlers of the `app/page.tsx` revision over the same five state slots. This
    revision has no stock guard on shipping (the stock is clamped at zero instead), no
    status guard on receipt confirmation, another fallback for the series end, and no
    lazy creation of warehouse items. Where it writes the warehouse from inside the
    `map` over the orders, the model takes the orders first and then one warehouse
    write per matching order, in list order. */
module Page {
  import opened Types
  import opened Rules
  import opened Ledger
  import opened Warehouse
  import opened Records
  import Seed

  /** One order as this revision ships it: IN_TRANSIT with a series of its own length
      from `start`, the pack size taken from the fixed rule, and today's date as the
      delivery date; no other field changes. */
  function PageStamp(o: ReceiptOrder, start: int, today: string): (r: ReceiptOrder)
    ensures r.status == InTransit && r.seriesStart == Some(start) && r.deliveryDate == Some(today)
    ensures r.seriesEnd == Some(SeriesEnd(start, o.quantityUnits * ReceiptsPerUnit(o.receiptType)))
    ensures r.(status := o.status, seriesStart := o.seriesStart, seriesEnd := o.seriesEnd,
               deliveryDate := o.deliveryDate) == o
  {
    o.(status := InTransit, seriesStart := Some(start),
       seriesEnd := Some(SeriesEnd(start, o.quantityUnits * ReceiptsPerUnit(o.receiptType))),
       deliveryDate := Some(today))
  }

  /** The order stamp at shipping: every order with the id is stamped as above, each
      with a series of its own length. */
  function PageShipOrders(orders: seq<ReceiptOrder>, id: string, start: int, today: string): (r: seq<ReceiptOrder>)
    ensures |r| == |orders|
    ensures forall j :: 0 <= j < |orders| ==>
      r[j] == if orders[j].id == id then PageStamp(orders[j], start, today) else orders[j]
    ensures forall j :: 0 <= j < |orders| ==> r[j].id == orders[j].id
    ensures CancelledIds(r) <= CancelledIds(orders)
  {
    var r := Seqs.MapWhere(orders, (o: ReceiptOrder) => o.id == id, (o: ReceiptOrder) => PageStamp(o, start, today));
    RewriteCreatesNoCancellation(orders, r);
    r
  }

  /** The warehouse writes of shipping: each order with that id, in list order, takes
      its quantity from its branch's items of its type, clamped at zero. */
  function ShipAllClamped(w: WarehouseStock, orders: seq<ReceiptOrder>, id: string): (r: WarehouseStock)
    ensures (forall j :: 0 <= j < |orders| ==> orders[j].id != id) ==> r == w
    ensures forall c :: (forall j :: 0 <= j < |orders| && orders[j].id == id ==> orders[j].branchId != c) ==>
      BranchItems(r, c) == BranchItems(w, c)
    ensures WellFormed(w) ==> WellFormed(r)
    decreases orders
  {
    if orders == [] then w
    else
      var o := orders[0];
      var next := if o.id == id then TakeUnitsClamped(w, o.branchId, o.receiptType, o.quantityUnits) else w;
      TakeUnitsClampedWellFormed(w, o.branchId, o.receiptType, o.quantityUnits);
      var r := ShipAllClamped(next, orders[1..], id);
      assert forall j :: 0 <= j < |orders[1..]| ==> orders[1..][j] == orders[j + 1];
      r
  }

  /** With exactly one order carrying the id, shipping writes the warehouse once. */
  lemma {:induction false} ShipAllClampedSingle(w: WarehouseStock, orders: seq<ReceiptOrder>, id: string, k: nat)
    requires k < |orders| && orders[k].id == id
    requires forall j :: 0 <= j < |orders| && j != k ==> orders[j].id != id
    ensures ShipAllClamped(w, orders, id) ==
      TakeUnitsClamped(w, orders[k].branchId, orders[k].receiptType, orders[k].quantityUnits)
  {
    if k > 0 {
      assert orders[0].id != id;
      assert forall j :: 0 <= j < |orders[1..]| && j != k - 1 ==> orders[1..][j] == orders[j + 1];
      ShipAllClampedSingle(w, orders[1..], id, k - 1);
    } else {
      assert forall j :: 0 <= j < |orders[1..]| ==> orders[1..][j] == orders[j + 1];
    }
  }

  /** The warehouse writes of the supplier delivery: each supplier order with that id,
      in list order, replenishes its branch's item of its type. */
  function ReplenishAll(w: WarehouseStock, orders: seq<SupplierOrder>, id: string): (r: WarehouseStock)
    ensures (forall j :: 0 <= j < |orders| ==> orders[j].id != id) ==> r == w
    ensures forall c :: (forall j :: 0 <= j < |orders| && orders[j].id == id ==> orders[j].branchId != c) ==>
      BranchItems(r, c) == BranchItems(w, c)
    ensures WellFormed(w) && (forall j :: 0 <= j < |orders| && orders[j].id == id ==> orders[j].quantityUnits >= 0) ==>
      WellFormed(r)
    decreases orders
  {
    if orders == [] then w
    else
      var o := orders[0];
      var next := if o.id == id then Replenish(w, o.branchId, o.receiptType, o.quantityUnits) else w;
      ReplenishStep(w, o, id);
      assert forall j :: 0 <= j < |orders[1..]| ==> orders[1..][j] == orders[j + 1];
      ReplenishAll(next, orders[1..], id)
  }

  /** One step of that loop: a supplier order without the id writes nothing, one with
      it writes only its own branch, and a non-negative quantity keeps well-formedness. */
  lemma ReplenishStep(w: WarehouseStock, o: SupplierOrder, id: string)
    ensures var next := if o.id == id then Replenish(w, o.branchId, o.receiptType, o.quantityUnits) else w;
      (o.id != id ==> next == w) &&
      (forall c :: o.id != id || o.branchId != c ==> BranchItems(next, c) == BranchItems(w, c)) &&
      (WellFormed(w) && (o.id == id ==> o.quantityUnits >= 0) ==> WellFormed(next))
  {
    if o.id == id && o.quantityUnits >= 0 {
      ReplenishWellFormed(w, o.branchId, o.receiptType, o.quantityUnits);
    }
  }

  /** With exactly one supplier order carrying the id, the delivery replenishes once. */
  lemma {:induction false} ReplenishAllSingle(w: WarehouseStock, orders: seq<SupplierOrder>, id: string, k: nat)
    requires k < |orders| && orders[k].id == id
    requires forall j :: 0 <= j < |orders| && j != k ==> orders[j].id != id
    ensures ReplenishAll(w, orders, id) ==
      Replenish(w, orders[k].branchId, orders[k].receiptType, orders[k].quantityUnits)
  {
    if k > 0 {
      assert orders[0].id != id;
      assert forall j :: 0 <= j < |orders[1..]| && j != k - 1 ==> orders[1..][j] == orders[j + 1];
      ReplenishAllSingle(w, orders[1..], id, k - 1);
    } else {
      assert forall j :: 0 <= j < |orders[1..]| ==> orders[1..][j] == orders[j + 1];
    }
  }

  /** `markAsDelivered` of this revision: only the status changes. */
  function MarkDelivered(orders: seq<ReceiptOrder>, id: string): (r: seq<ReceiptOrder>)
    ensures |r| == |orders|
    ensures forall j :: 0 <= j < |orders| ==>
      r[j] == if orders[j].id == id then orders[j].(status := OrderStatus.Delivered) else orders[j]
    ensures forall j :: 0 <= j < |orders| ==> r[j].id == orders[j].id
    ensures CancelledIds(r) <= CancelledIds(orders)
  {
    var r := Seqs.MapWhere(orders, (o: ReceiptOrder) => o.id == id,
                           (o: ReceiptOrder) => o.(status := OrderStatus.Delivered));
    RewriteCreatesNoCancellation(orders, r);
    r
  }

  /** An existing entry credited by this revision: the series end is the order's, or the
      old one when the order has none (or 0); the threshold is left alone. */
  function PageRaiseEntry(e: ReceiptInventory, o: ReceiptOrder, today: string): (r: ReceiptInventory)
    ensures r.branchId == e.branchId && r.receiptType == e.receiptType && r.company == e.company
    ensures r.currentSeriesStart == e.currentSeriesStart && r.lastUsedNumber == e.lastUsedNumber
    ensures r.threshold == e.threshold
    ensures r.remainingStock - e.remainingStock == o.quantityUnits * ReceiptsPerUnit(o.receiptType)
    ensures o.seriesEnd.None? || o.seriesEnd == Some(0) ==> r.currentSeriesEnd == e.currentSeriesEnd
  {
    e.(currentSeriesEnd := OrNumber(o.seriesEnd, e.currentSeriesEnd),
       remainingStock := e.remainingStock + o.quantityUnits * ReceiptsPerUnit(o.receiptType),
       lastUpdateDate := Some(today))
  }

  /** The entry this revision creates for a first delivery: the last number used is one
      before the series start, where a missing or zero start counts as 1. */
  function PageCreatedEntry(o: ReceiptOrder, today: string): (r: ReceiptInventory)
    ensures IsEntryFor(r, o.branchId, o.receiptType) && r.company == o.company
    ensures r.remainingStock == o.quantityUnits * ReceiptsPerUnit(o.receiptType)
    ensures o.seriesStart.None? ==> r.currentSeriesStart == 0 && r.lastUsedNumber == 0
    ensures o.quantityUnits * ReceiptsPerUnit(o.receiptType) >= 0 && o.seriesStart.Some? && o.seriesStart.value != 0 &&
            o.seriesEnd == Some(SeriesEnd(o.seriesStart.value, o.quantityUnits * ReceiptsPerUnit(o.receiptType)))
            ==> Balanced(r)
  {
    ReceiptInventory(o.branchId, o.company, o.receiptType, OrNumber(o.seriesStart, 0), OrNumber(o.seriesEnd, 0),
                     OrNumber(o.seriesStart, 1) - 1, o.quantityUnits * ReceiptsPerUnit(o.receiptType),
                     ThresholdFor(o.receiptType), Some(today), None)
  }

  /** The inventory upsert of this revision's `confirmReceipt`. */
  function PageCreditReceipt(inv: seq<ReceiptInventory>, o: ReceiptOrder, today: string): (r: seq<ReceiptInventory>)
    ensures FindEntry(inv, o.branchId, o.receiptType).Some? ==>
      |r| == |inv| &&
      forall j :: 0 <= j < |inv| ==>
        if IsEntryFor(inv[j], o.branchId, o.receiptType) then
          r[j].remainingStock == inv[j].remainingStock + o.quantityUnits * ReceiptsPerUnit(o.receiptType) &&
          r[j].currentSeriesEnd == (if o.seriesEnd.Some? && o.seriesEnd.value != 0 then o.seriesEnd.value
                                    else inv[j].currentSeriesEnd) &&
          r[j].lastUpdateDate == Some(today) &&
          r[j].(currentSeriesEnd := inv[j].currentSeriesEnd, remainingStock := inv[j].remainingStock,
                lastUpdateDate := inv[j].lastUpdateDate) == inv[j]
        else r[j] == inv[j]
    ensures FindEntry(inv, o.branchId, o.receiptType).None? ==>
      |r| == |inv| + 1 && r[..|inv|] == inv &&
      IsEntryFor(r[|inv|], o.branchId, o.receiptType) && r[|inv|].company == o.company &&
      r[|inv|].currentSeriesStart == OrNumber(o.seriesStart, 0) &&
      r[|inv|].currentSeriesEnd == OrNumber(o.seriesEnd, 0) &&
      r[|inv|].lastUsedNumber == (if o.seriesStart.Some? && o.seriesStart.value != 0 then o.seriesStart.value else 1) - 1 &&
      r[|inv|].remainingStock == o.quantityUnits * ReceiptsPerUnit(o.receiptType) &&
      r[|inv|].threshold == ThresholdFor(o.receiptType) &&
      r[|inv|].lastUpdateDate == Some(today) && r[|inv|].lastUpdatedBy.None?
  {
    Upsert(inv, o.branchId, o.receiptType, e => PageRaiseEntry(e, o, today), PageCreatedEntry(o, today))
  }

  /** The created entry is balanced when the order carries a series that starts
      anywhere but at 0 and is as long as the delivery. */
  lemma PageCreatedEntryBalanced(o: ReceiptOrder, start: int, today: string)
    requires o.quantityUnits >= 0 && start != 0
    requires o.seriesStart == Some(start)
    requires o.seriesEnd == Some(SeriesEnd(start, o.quantityUnits * ReceiptsPerUnit(o.receiptType)))
    ensures Balanced(PageCreatedEntry(o, today))
  {
  }

  /** A series that starts at 0 is read as absent by the `|| 1` fallback: the entry
      then counts receipt 0 as already used and holds one receipt more than its series
      has left. */
  lemma PageCreatedEntryZeroStart(o: ReceiptOrder, today: string)
    requires o.quantityUnits > 0
    requires o.seriesStart == Some(0)
    requires o.seriesEnd == Some(SeriesEnd(0, o.quantityUnits * ReceiptsPerUnit(o.receiptType)))
    ensures PageCreatedEntry(o, today).lastUsedNumber == PageCreatedEntry(o, today).currentSeriesStart
    ensures PageCreatedEntry(o, today).remainingStock ==
      PageCreatedEntry(o, today).currentSeriesEnd - PageCreatedEntry(o, today).lastUsedNumber + 1
    ensures !Balanced(PageCreatedEntry(o, today))
  {
  }

  /** A delivery whose series continues the entry's keeps the entry balanced. */
  lemma PageContiguousReceiptKeepsBalance(e: ReceiptInventory, o: ReceiptOrder, today: string)
    requires Balanced(e) && o.quantityUnits >= 0
    requires o.seriesStart == Some(e.currentSeriesEnd + 1)
    requires o.seriesEnd == Some(SeriesEnd(e.currentSeriesEnd + 1, o.quantityUnits * ReceiptsPerUnit(o.receiptType)))
    requires o.seriesEnd.value != 0
    ensures Balanced(PageRaiseEntry(e, o, today))
  {
  }

  /** A delivery credited without a series (one never shipped, which this revision
      lets through) adds receipts that no series covers, so a balanced entry with stock
      to add stops being balanced. */
  lemma PageReceiptWithoutSeriesUnbalances(e: ReceiptInventory, o: ReceiptOrder, today: string)
    requires Balanced(e) && o.quantityUnits > 0
    requires o.seriesEnd.None?
    ensures !Balanced(PageRaiseEntry(e, o, today))
  {
  }

  class PageStore {
    var users: seq<User>
    var inventory: seq<ReceiptInventory>
    var orders: seq<ReceiptOrder>
    var warehouse: WarehouseStock
    var supplierOrders: seq<SupplierOrder>

    /** The state the page starts in. */
    constructor ()
      ensures users == Seed.InitialUsers && inventory == Seed.InitialInventory
      ensures orders == Seed.InitialOrders && warehouse == Seed.InitialWarehouse
      ensures supplierOrders == []
    {
      users := Seed.InitialUsers;
      inventory := Seed.InitialInventory;
      orders := Seed.InitialOrders;
      warehouse := Seed.InitialWarehouse;
      supplierOrders := [];
    }

    /** Writes every state slot at once, as React applies one batch of updates; each
        handler computes the next value of every slot from the current ones. */
    method Commit(u: seq<User>, i: seq<ReceiptInventory>, o: seq<ReceiptOrder>,
                  w: WarehouseStock, s: seq<SupplierOrder>)
      modifies this
      ensures users == u && inventory == i && orders == o && warehouse == w && supplierOrders == s
    {
      users, inventory, orders, warehouse, supplierOrders := u, i, o, w, s;
    }

    /** `handleAddBranch`: a new BRANCH account at the end of the list. */
    method AddBranch(id: string, branchName: string, company: string, username: string, tinNumber: Option<string>)
      modifies this
      ensures users == old(users) + [NewBranchUser(id, branchName, company, username, tinNumber)]
      ensures inventory == old(inventory) && orders == old(orders)
      ensures warehouse == old(warehouse) && supplierOrders == old(supplierOrders)
    {
      users := users + [NewBranchUser(id, branchName, company, username, tinNumber)];
    }

    /** `handleUpdateUser`: only the account changes; the inventory keeps its company. */
    method UpdateUser(userId: string, updates: UserPatch)
      modifies this
      ensures users == PatchUsers(old(users), userId, updates)
      ensures inventory == old(inventory) && orders == old(orders)
      ensures warehouse == old(warehouse) && supplierOrders == old(supplierOrders)
    {
      users := PatchUsers(users, userId, updates);
    }

    /** `handleDeleteUser`: once confirmed, the accounts with that id are removed; the
        branch's inventory, orders and warehouse allocation stay. */
    method DeleteUser(userId: string, confirmed: bool)
      modifies this
      ensures users == if confirmed then Records.DeleteUser(old(users), userId) else old(users)
      ensures inventory == old(inventory) && orders == old(orders)
      ensures warehouse == old(warehouse) && supplierOrders == old(supplierOrders)
    {
      if confirmed {
        users := Records.DeleteUser(users, userId);
      }
    }

    /** `updateLastUsed`: the same consumption log as the other revision. */
    method UpdateLastUsed(branchId: string, t: ReceiptType, newLastUsed: int, updateDate: string, loggedBy: Option<string>)
      modifies this
      ensures inventory == Ledger.UpdateLastUsed(old(inventory), branchId, t, newLastUsed, updateDate, loggedBy)
      ensures users == old(users) && orders == old(orders)
      ensures warehouse == old(warehouse) && supplierOrders == old(supplierOrders)
    {
      inventory := Ledger.UpdateLastUsed(inventory, branchId, t, newLastUsed, updateDate, loggedBy);
    }

    /** `requestReceipts`: a PENDING order in front; the warehouse is not touched. */
    method RequestReceipts(id: string, today: string, branchId: string, company: string, branchName: string,
                           t: ReceiptType, units: int)
      modifies this
      ensures orders == [NewOrder(id, branchId, company, branchName, t, units, today)] + old(orders)
      ensures CancelledIds(orders) == old(CancelledIds(orders))
      ensures users == old(users) && inventory == old(inventory)
      ensures warehouse == old(warehouse) && supplierOrders == old(supplierOrders)
    {
      PrependCreatesNoCancellation(NewOrder(id, branchId, company, branchName, t, units, today), orders);
      orders := [NewOrder(id, branchId, company, branchName, t, units, today)] + orders;
    }

    /** The inline `onUpdateRequest`: type and units change whatever the status. */
    method UpdateRequest(orderId: string, t: ReceiptType, units: int)
      modifies this
      ensures orders == EditOrders(old(orders), orderId, t, units, false)
      ensures CancelledIds(orders) <= old(CancelledIds(orders))
      ensures users == old(users) && inventory == old(inventory)
      ensures warehouse == old(warehouse) && supplierOrders == old(supplierOrders)
    {
      orders := EditOrders(orders, orderId, t, units, false);
    }

    /** `approveOrder`: APPROVED, whatever the order's status was. */
    method ApproveOrder(orderId: string)
      modifies this
      ensures orders == ApproveOrders(old(orders), orderId)
      ensures CancelledIds(orders) <= old(CancelledIds(orders))
      ensures users == old(users) && inventory == old(inventory)
      ensures warehouse == old(warehouse) && supplierOrders == old(supplierOrders)
    {
      orders := ApproveOrders(orders, orderId);
    }

    /** `shipOrder`: no guard. Each order with that id goes IN_TRANSIT with its series
        and today's date, and takes its stock from the warehouse, clamped at zero. */
    method ShipOrder(orderId: string, startSeries: int, today: string)
      modifies this
      ensures orders == PageShipOrders(old(orders), orderId, startSeries, today)
      ensures warehouse == ShipAllClamped(old(warehouse), old(orders), orderId)
      ensures old(WellFormed(warehouse)) ==> WellFormed(warehouse)
      ensures CancelledIds(orders) <= old(CancelledIds(orders))
      ensures users == old(users) && inventory == old(inventory) && supplierOrders == old(supplierOrders)
    {
      Commit(users, inventory, PageShipOrders(orders, orderId, startSeries, today),
             ShipAllClamped(warehouse, orders, orderId), supplierOrders);
    }

    /** `markAsDelivered`: only the status becomes DELIVERED. */
    method MarkAsDelivered(orderId: string)
      modifies this
      ensures orders == MarkDelivered(old(orders), orderId)
      ensures CancelledIds(orders) <= old(CancelledIds(orders))
      ensures users == old(users) && inventory == old(inventory)
      ensures warehouse == old(warehouse) && supplierOrders == old(supplierOrders)
    {
      orders := MarkDelivered(orders, orderId);
    }

    /** `confirmReceipt`: nothing for an unknown id; otherwise RECEIVED and the
        inventory credited, whatever the order's status was. */
    method ConfirmReceipt(orderId: string, receivedBy: string, today: string)
      modifies this
      ensures FindOrder(old(orders), orderId).None? ==> orders == old(orders) && inventory == old(inventory)
      ensures FindOrder(old(orders), orderId).Some? ==>
        orders == ReceiveOrders(old(orders), orderId, receivedBy) &&
        inventory == PageCreditReceipt(old(inventory), FindOrder(old(orders), orderId).value, today)
      ensures CancelledIds(orders) <= old(CancelledIds(orders))
      ensures users == old(users) && warehouse == old(warehouse) && supplierOrders == old(supplierOrders)
    {
      var order := FindOrder(orders, orderId);
      if order.Some? {
        Commit(users, PageCreditReceipt(inventory, order.value, today), ReceiveOrders(orders, orderId, receivedBy),
               warehouse, supplierOrders);
      }
    }

    /** `handleRequestFromSupplier`: a REQUESTED supplier order in front, with no
        payment flag. */
    method RequestFromSupplier(id: string, today: string, branchId: string, t: ReceiptType, units: int)
      modifies this
      ensures supplierOrders == [NewSupplierOrder(id, branchId, t, units, today, None)] + old(supplierOrders)
      ensures users == old(users) && inventory == old(inventory)
      ensures orders == old(orders) && warehouse == old(warehouse)
    {
      supplierOrders := [NewSupplierOrder(id, branchId, t, units, today, None)] + supplierOrders;
    }

    /** `handleUpdateSupplierStatus`: the supplier order takes the given status. */
    method UpdateSupplierStatus(orderId: string, status: SupplierOrderStatus)
      modifies this
      ensures supplierOrders == SetSupplierStatus(old(supplierOrders), orderId, status)
      ensures users == old(users) && inventory == old(inventory)
      ensures orders == old(orders) && warehouse == old(warehouse)
    {
      supplierOrders := SetSupplierStatus(supplierOrders, orderId, status);
    }

    /** The inline `onUpdateSupplierDetails`: PRF entry and payment. */
    method UpdateSupplierDetails(orderId: string, updates: SupplierPatch)
      modifies this
      ensures supplierOrders == PatchSupplierOrders(old(supplierOrders), orderId, updates)
      ensures users == old(users) && inventory == old(inventory)
      ensures orders == old(orders) && warehouse == old(warehouse)
    {
      supplierOrders := PatchSupplierOrders(supplierOrders, orderId, updates);
    }

    /** `handleConfirmSupplierDelivery`: each supplier order with that id takes the
        billing details and becomes DELIVERED, and replenishes the warehouse; an unknown
        id changes nothing. */
    method ConfirmSupplierDelivery(orderId: string, details: DeliveryDetails)
      modifies this
      ensures supplierOrders == DeliverSupplierOrders(old(supplierOrders), orderId, details)
      ensures warehouse == ReplenishAll(old(warehouse), old(supplierOrders), orderId)
      ensures FindSupplierOrder(old(supplierOrders), orderId).None? ==>
        supplierOrders == old(supplierOrders) && warehouse == old(warehouse)
      ensures users == old(users) && inventory == old(inventory) && orders == old(orders)
    {
      Commit(users, inventory, orders, ReplenishAll(warehouse, supplierOrders, orderId),
             DeliverSupplierOrders(supplierOrders, orderId, details));
      if FindSupplierOrder(old(supplierOrders), orderId).None? {
        assert supplierOrders == old(supplierOrders);
      }
    }
  }
}
