/** The handlers of the `App.tsx` revision. The five state slots are the fields of
    `AppStore`; each handler is one method that replaces some of them in a single
    atomic step. This revision guards shipping by the warehouse stock, accepts a
    receipt confirmation only for a DELIVERED order, and creates warehouse items lazily
    when a branch requests a type. */
module App {
  import opened Types
  import opened Rules
  import opened Ledger
  import opened Warehouse
  import opened Records
  import Seed

  /** What `shipOrder` does: ship, or give up because the order is unknown or because the
      branch's allocation lacks the stock (the source then shows an alert). */
  datatype ShipOutcome = ShipAccepted | OrderNotFound | InsufficientStock

  /** The guard of `shipOrder`. */
  function ShipCheck(orders: seq<ReceiptOrder>, w: WarehouseStock, id: string): (r: ShipOutcome)
    ensures r == OrderNotFound <==> FindOrder(orders, id).None?
    ensures r == ShipAccepted <==>
      FindOrder(orders, id).Some? &&
      var o := FindOrder(orders, id).value;
      FindItem(w, o.branchId, o.receiptType).Some? &&
      FindItem(w, o.branchId, o.receiptType).value.totalUnits >= o.quantityUnits
  {
    match FindOrder(orders, id)
    case None => OrderNotFound
    case Some(o) =>
      match FindItem(w, o.branchId, o.receiptType)
      case None => InsufficientStock
      case Some(item) => if item.totalUnits < o.quantityUnits then InsufficientStock else ShipAccepted
  }

  /** The order stamp at shipping: every order with the id becomes IN_TRANSIT with the
      one series `start..end` that `shipOrder` computed from the order it found. */
  function ShipOrders(orders: seq<ReceiptOrder>, id: string, start: int, end: int): (r: seq<ReceiptOrder>)
    ensures |r| == |orders|
    ensures forall j :: 0 <= j < |orders| ==>
      r[j] == if orders[j].id == id
              then orders[j].(status := InTransit, seriesStart := Some(start), seriesEnd := Some(end))
              else orders[j]
    ensures CancelledIds(r) <= CancelledIds(orders)
  {
    var r := Seqs.MapWhere(orders, (o: ReceiptOrder) => o.id == id,
                  (o: ReceiptOrder) => o.(status := InTransit, seriesStart := Some(start), seriesEnd := Some(end)));
    RewriteCreatesNoCancellation(orders, r);
    r
  }

  /** `markAsDelivered`: DELIVERED, stamped with today's date. */
  function DeliverOrders(orders: seq<ReceiptOrder>, id: string, today: string): (r: seq<ReceiptOrder>)
    ensures |r| == |orders|
    ensures forall j :: 0 <= j < |orders| ==>
      r[j] == if orders[j].id == id then orders[j].(status := OrderStatus.Delivered, deliveryDate := Some(today)) else orders[j]
    ensures CancelledIds(r) <= CancelledIds(orders)
  {
    var r := Seqs.MapWhere(orders, (o: ReceiptOrder) => o.id == id,
                  (o: ReceiptOrder) => o.(status := OrderStatus.Delivered, deliveryDate := Some(today)));
    RewriteCreatesNoCancellation(orders, r);
    r
  }

  /** The pack size used when the receipt is confirmed: the branch's configured
      `receiptsPerUnit` unless it is absent or 0, else the fixed rule. */
  function PackSizeAtReceipt(w: WarehouseStock, o: ReceiptOrder): (n: int)
    ensures FindItem(w, o.branchId, o.receiptType).Some? && FindItem(w, o.branchId, o.receiptType).value.receiptsPerUnit != 0 ==>
      n == FindItem(w, o.branchId, o.receiptType).value.receiptsPerUnit
    ensures FindItem(w, o.branchId, o.receiptType).None? || FindItem(w, o.branchId, o.receiptType).value.receiptsPerUnit == 0 ==>
      n == ReceiptsPerUnit(o.receiptType)
  {
    var config := FindItem(w, o.branchId, o.receiptType);
    OrNumber(if config.Some? then Some(config.value.receiptsPerUnit) else None, ReceiptsPerUnit(o.receiptType))
  }

  /** An existing entry credited with the delivery: the series end is replaced by the
      order's (0 when it has none), the receipts are added and the threshold reset. */
  function RaiseEntry(e: ReceiptInventory, o: ReceiptOrder, perUnit: int, today: string): (r: ReceiptInventory)
    ensures r.branchId == e.branchId && r.receiptType == e.receiptType && r.company == e.company
    ensures r.currentSeriesStart == e.currentSeriesStart && r.lastUsedNumber == e.lastUsedNumber
    ensures r.remainingStock - e.remainingStock == o.quantityUnits * perUnit
    ensures o.seriesEnd.None? ==> r.currentSeriesEnd == 0
  {
    e.(currentSeriesEnd := OrNumber(o.seriesEnd, 0),
       remainingStock := e.remainingStock + o.quantityUnits * perUnit,
       threshold := ThresholdFor(o.receiptType),
       lastUpdateDate := Some(today))
  }

  /** The entry created for a branch's first delivery of a type. */
  function CreatedEntry(o: ReceiptOrder, perUnit: int, today: string): (r: ReceiptInventory)
    ensures IsEntryFor(r, o.branchId, o.receiptType) && r.company == o.company
    ensures r.remainingStock == o.quantityUnits * perUnit
    ensures o.quantityUnits * perUnit >= 0 && o.seriesStart.Some? &&
            o.seriesEnd == Some(SeriesEnd(o.seriesStart.value, o.quantityUnits * perUnit))
            ==> Balanced(r)
  {
    var start := OrNumber(o.seriesStart, 0);
    ReceiptInventory(o.branchId, o.company, o.receiptType, start, OrNumber(o.seriesEnd, 0), start - 1,
                     o.quantityUnits * perUnit, ThresholdFor(o.receiptType), Some(today), None)
  }

  /** The inventory upsert of `confirmReceipt`. */
  function CreditReceipt(inv: seq<ReceiptInventory>, o: ReceiptOrder, perUnit: int, today: string): (r: seq<ReceiptInventory>)
    ensures FindEntry(inv, o.branchId, o.receiptType).Some? ==>
      |r| == |inv| &&
      forall j :: 0 <= j < |inv| ==>
        if IsEntryFor(inv[j], o.branchId, o.receiptType) then
          r[j].remainingStock == inv[j].remainingStock + o.quantityUnits * perUnit &&
          r[j].currentSeriesEnd == OrNumber(o.seriesEnd, 0) &&
          r[j].threshold == ThresholdFor(o.receiptType) &&
          r[j].currentSeriesStart == inv[j].currentSeriesStart &&
          r[j].lastUsedNumber == inv[j].lastUsedNumber &&
          r[j].lastUpdateDate == Some(today) &&
          r[j].(currentSeriesEnd := inv[j].currentSeriesEnd, remainingStock := inv[j].remainingStock,
                threshold := inv[j].threshold, lastUpdateDate := inv[j].lastUpdateDate) == inv[j]
        else r[j] == inv[j]
    ensures FindEntry(inv, o.branchId, o.receiptType).None? ==>
      |r| == |inv| + 1 && r[..|inv|] == inv &&
      IsEntryFor(r[|inv|], o.branchId, o.receiptType) &&
      r[|inv|].currentSeriesStart == OrNumber(o.seriesStart, 0) &&
      r[|inv|].lastUsedNumber == r[|inv|].currentSeriesStart - 1 &&
      r[|inv|].currentSeriesEnd == OrNumber(o.seriesEnd, 0) &&
      r[|inv|].remainingStock == o.quantityUnits * perUnit &&
      r[|inv|].threshold == ThresholdFor(o.receiptType) &&
      r[|inv|].company == o.company &&
      r[|inv|].lastUpdateDate == Some(today) && r[|inv|].lastUpdatedBy.None?
  {
    Upsert(inv, o.branchId, o.receiptType, e => RaiseEntry(e, o, perUnit, today), CreatedEntry(o, perUnit, today))
  }

  /** On a well-formed warehouse both lookups of the pack size, the one at shipping
      and the one at receipt, give the fixed rule. */
  lemma PackSizesAgree(w: WarehouseStock, o: ReceiptOrder)
    requires WellFormed(w)
    requires FindItem(w, o.branchId, o.receiptType).Some?
    ensures FindItem(w, o.branchId, o.receiptType).value.receiptsPerUnit == ReceiptsPerUnit(o.receiptType)
    ensures PackSizeAtReceipt(w, o) == ReceiptsPerUnit(o.receiptType)
  {
    assert o.branchId in w;
  }

  /** A delivery whose series continues the entry's series keeps the entry balanced:
      the remaining stock is again the unused part of the series. */
  lemma ContiguousReceiptKeepsBalance(e: ReceiptInventory, o: ReceiptOrder, perUnit: int, today: string)
    requires Balanced(e) && o.quantityUnits * perUnit >= 0
    requires o.seriesStart == Some(e.currentSeriesEnd + 1)
    requires o.seriesEnd == Some(SeriesEnd(e.currentSeriesEnd + 1, o.quantityUnits * perUnit))
    ensures Balanced(RaiseEntry(e, o, perUnit, today))
  {
  }

  /** The entry created from a shipped order is balanced: it starts one before the
      series and holds exactly the series' receipts. */
  lemma CreatedEntryBalanced(o: ReceiptOrder, start: int, perUnit: int, today: string)
    requires o.quantityUnits * perUnit >= 0
    requires o.seriesStart == Some(start)
    requires o.seriesEnd == Some(SeriesEnd(start, o.quantityUnits * perUnit))
    ensures Balanced(CreatedEntry(o, perUnit, today))
  {
  }

  class AppStore {
    var users: seq<User>
    var inventory: seq<ReceiptInventory>
    var orders: seq<ReceiptOrder>
    var warehouse: WarehouseStock
    var supplierOrders: seq<SupplierOrder>

    /** The state the application starts in. */
    constructor ()
      ensures users == Seed.InitialUsers && inventory == Seed.InitialInventory
      ensures orders == Seed.InitialOrders && warehouse == Seed.InitialWarehouse
      ensures supplierOrders == []
    {
      users := Seed.InitialUsers;
      inventory := Seed.InitialInventory;
      orders := Seed.InitialOrders;
      warehouse := Seed.InitialWarehouse;
      supplierOrders := [];
    }

    /** Writes every state slot at once, as React applies one batch of updates; each
        handler computes the next value of every slot from the current ones. */
    method Commit(u: seq<User>, i: seq<ReceiptInventory>, o: seq<ReceiptOrder>,
                  w: WarehouseStock, s: seq<SupplierOrder>)
      modifies this
      ensures users == u && inventory == i && orders == o && warehouse == w && supplierOrders == s
    {
      users, inventory, orders, warehouse, supplierOrders := u, i, o, w, s;
    }

    /** `handleAddBranch`: a new BRANCH account at the end of the list. */
    method AddBranch(id: string, branchName: string, company: string, username: string, tinNumber: Option<string>)
      modifies this
      ensures users == old(users) + [NewBranchUser(id, branchName, company, username, tinNumber)]
      ensures inventory == old(inventory) && orders == old(orders)
      ensures warehouse == old(warehouse) && supplierOrders == old(supplierOrders)
    {
      users := users + [NewBranchUser(id, branchName, company, username, tinNumber)];
    }

    /** `handleUpdateUser`: the account takes the edit, and a new non-empty company is
        copied onto that branch's inventory entries. */
    method UpdateUser(userId: string, updates: UserPatch)
      modifies this
      ensures users == PatchUsers(old(users), userId, updates)
      ensures inventory == SyncCompany(old(inventory), userId, updates.company)
      ensures orders == old(orders) && warehouse == old(warehouse) && supplierOrders == old(supplierOrders)
    {
      users := PatchUsers(users, userId, updates);
      inventory := SyncCompany(inventory, userId, updates.company);
    }

    /** `updateLastUsed`: the consumption log, applied without any range check (the
        branch dashboard checks the range before it calls this). */
    method UpdateLastUsed(branchId: string, t: ReceiptType, newLastUsed: int, updateDate: string, loggedBy: Option<string>)
      modifies this
      ensures inventory == Ledger.UpdateLastUsed(old(inventory), branchId, t, newLastUsed, updateDate, loggedBy)
      ensures users == old(users) && orders == old(orders)
      ensures warehouse == old(warehouse) && supplierOrders == old(supplierOrders)
    {
      inventory := Ledger.UpdateLastUsed(inventory, branchId, t, newLastUsed, updateDate, loggedBy);
    }

    /** `requestReceipts`: a PENDING order in front, and a zero-unit warehouse item
        when the branch has none of that type. */
    method RequestReceipts(id: string, today: string, branchId: string, company: string, branchName: string,
                           t: ReceiptType, units: int)
      modifies this
      ensures orders == [NewOrder(id, branchId, company, branchName, t, units, today)] + old(orders)
      ensures warehouse == EnsureItem(old(warehouse), branchId, t)
      ensures old(WellFormed(warehouse)) ==> WellFormed(warehouse)
      ensures CancelledIds(orders) <= old(CancelledIds(orders))
      ensures users == old(users) && inventory == old(inventory) && supplierOrders == old(supplierOrders)
    {
      EnsureItemWellFormed(warehouse, branchId, t);
      PrependCreatesNoCancellation(NewOrder(id, branchId, company, branchName, t, units, today), orders);
      warehouse := EnsureItem(warehouse, branchId, t);
      orders := [NewOrder(id, branchId, company, branchName, t, units, today)] + orders;
    }

    /** `updateRequest`: an unknown id changes nothing. Otherwise the warehouse item for
        the new type is ensured whatever the order's status, and the order takes the new
        type and units only while it is PENDING. */
    method UpdateRequest(orderId: string, t: ReceiptType, units: int)
      modifies this
      ensures FindOrder(old(orders), orderId).None? ==> orders == old(orders) && warehouse == old(warehouse)
      ensures FindOrder(old(orders), orderId).Some? ==>
        warehouse == EnsureItem(old(warehouse), FindOrder(old(orders), orderId).value.branchId, t) &&
        orders == EditOrders(old(orders), orderId, t, units, true)
      ensures old(WellFormed(warehouse)) ==> WellFormed(warehouse)
      ensures CancelledIds(orders) <= old(CancelledIds(orders))
      ensures users == old(users) && inventory == old(inventory) && supplierOrders == old(supplierOrders)
    {
      var target := FindOrder(orders, orderId);
      if target.Some? {
        var b := target.value.branchId;
        EnsureItemWellFormed(warehouse, b, t);
        Commit(users, inventory, EditOrders(orders, orderId, t, units, true), EnsureItem(warehouse, b, t), supplierOrders);
      }
    }

    /** `confirmReceipt`: nothing unless the order exists and is DELIVERED; then the
        order becomes RECEIVED and the branch's inventory is credited. */
    method ConfirmReceipt(orderId: string, receivedBy: string, today: string)
      modifies this
      ensures var o := FindOrder(old(orders), orderId);
        if o.None? || o.value.status != OrderStatus.Delivered then
          orders == old(orders) && inventory == old(inventory)
        else
          orders == ReceiveOrders(old(orders), orderId, receivedBy) &&
          inventory == CreditReceipt(old(inventory), o.value, PackSizeAtReceipt(old(warehouse), o.value), today)
      ensures CancelledIds(orders) <= old(CancelledIds(orders))
      ensures users == old(users) && warehouse == old(warehouse) && supplierOrders == old(supplierOrders)
    {
      var order := FindOrder(orders, orderId);
      if order.Some? && order.value.status == OrderStatus.Delivered {
        Commit(users, CreditReceipt(inventory, order.value, PackSizeAtReceipt(warehouse, order.value), today),
               ReceiveOrders(orders, orderId, receivedBy), warehouse, supplierOrders);
      }
    }

    /** `approveOrder`: APPROVED, whatever the order's status was. */
    method ApproveOrder(orderId: string)
      modifies this
      ensures orders == ApproveOrders(old(orders), orderId)
      ensures CancelledIds(orders) <= old(CancelledIds(orders))
      ensures users == old(users) && inventory == old(inventory)
      ensures warehouse == old(warehouse) && supplierOrders == old(supplierOrders)
    {
      orders := ApproveOrders(orders, orderId);
    }

    /** `shipOrder`: when the order exists and its branch holds at least its quantity of
        that type, the stock is taken from the warehouse and the order goes IN_TRANSIT
        with the series computed once from the order found, which every order with the
        id receives; otherwise nothing changes. */
    method ShipOrder(orderId: string, startSeries: int) returns (outcome: ShipOutcome)
      modifies this
      ensures outcome == ShipCheck(old(orders), old(warehouse), orderId)
      ensures outcome != ShipAccepted ==> orders == old(orders) && warehouse == old(warehouse)
      ensures outcome == ShipAccepted ==>
        var o := FindOrder(old(orders), orderId).value;
        var item := FindItem(old(warehouse), o.branchId, o.receiptType).value;
        warehouse == TakeUnits(old(warehouse), o.branchId, o.receiptType, o.quantityUnits) &&
        orders == ShipOrders(old(orders), orderId, startSeries,
                             SeriesEnd(startSeries, o.quantityUnits * item.receiptsPerUnit))
      ensures old(WellFormed(warehouse)) ==> WellFormed(warehouse)
      ensures CancelledIds(orders) <= old(CancelledIds(orders))
      ensures users == old(users) && inventory == old(inventory) && supplierOrders == old(supplierOrders)
    {
      outcome := ShipCheck(orders, warehouse, orderId);
      if outcome == ShipAccepted {
        var o := FindOrder(orders, orderId).value;
        var item := FindItem(warehouse, o.branchId, o.receiptType).value;
        TakeUnitsWellFormed(warehouse, o.branchId, o.receiptType, o.quantityUnits);
        var end := SeriesEnd(startSeries, o.quantityUnits * item.receiptsPerUnit);
        Commit(users, inventory, ShipOrders(orders, orderId, startSeries, end),
               TakeUnits(warehouse, o.branchId, o.receiptType, o.quantityUnits), supplierOrders);
      }
    }

    /** `markAsDelivered`: DELIVERED with today's date, whatever the order's status was. */
    method MarkAsDelivered(orderId: string, today: string)
      modifies this
      ensures orders == DeliverOrders(old(orders), orderId, today)
      ensures CancelledIds(orders) <= old(CancelledIds(orders))
      ensures users == old(users) && inventory == old(inventory)
      ensures warehouse == old(warehouse) && supplierOrders == old(supplierOrders)
    {
      orders := DeliverOrders(orders, orderId, today);
    }

    /** `handleReplenishWarehouse`: the branch's item of that type gains `units`, or is
        created holding them. */
    method ReplenishWarehouse(branchId: string, t: ReceiptType, units: int)
      modifies this
      ensures warehouse == Replenish(old(warehouse), branchId, t, units)
      ensures old(WellFormed(warehouse)) && units >= 0 ==> WellFormed(warehouse)
      ensures users == old(users) && inventory == old(inventory)
      ensures orders == old(orders) && supplierOrders == old(supplierOrders)
    {
      if units >= 0 {
        ReplenishWellFormed(warehouse, branchId, t, units);
      }
      warehouse := Replenish(warehouse, branchId, t, units);
    }

    /** `requestFromSupplier`: a REQUESTED, unpaid supplier order in front. */
    method RequestFromSupplier(id: string, today: string, branchId: string, t: ReceiptType, units: int)
      modifies this
      ensures supplierOrders == [NewSupplierOrder(id, branchId, t, units, today, Some(false))] + old(supplierOrders)
      ensures users == old(users) && inventory == old(inventory)
      ensures orders == old(orders) && warehouse == old(warehouse)
    {
      supplierOrders := [NewSupplierOrder(id, branchId, t, units, today, Some(false))] + supplierOrders;
    }

    /** `updateSupplierOrder`: the supplier order takes the given status. */
    method UpdateSupplierOrder(orderId: string, status: SupplierOrderStatus)
      modifies this
      ensures supplierOrders == SetSupplierStatus(old(supplierOrders), orderId, status)
      ensures users == old(users) && inventory == old(inventory)
      ensures orders == old(orders) && warehouse == old(warehouse)
    {
      supplierOrders := SetSupplierStatus(supplierOrders, orderId, status);
    }

    /** `updateSupplierDetails`: PRF entry and payment. */
    method UpdateSupplierDetails(orderId: string, updates: SupplierPatch)
      modifies this
      ensures supplierOrders == PatchSupplierOrders(old(supplierOrders), orderId, updates)
      ensures users == old(users) && inventory == old(inventory)
      ensures orders == old(orders) && warehouse == old(warehouse)
    {
      supplierOrders := PatchSupplierOrders(supplierOrders, orderId, updates);
    }

    /** `confirmSupplierDelivery`: an unknown id changes nothing; otherwise the order
        takes the billing details and becomes DELIVERED, and the warehouse is
        replenished once, by the first such order's quantity. */
    method ConfirmSupplierDelivery(orderId: string, details: DeliveryDetails)
      modifies this
      ensures FindSupplierOrder(old(supplierOrders), orderId).None? ==>
        supplierOrders == old(supplierOrders) && warehouse == old(warehouse)
      ensures FindSupplierOrder(old(supplierOrders), orderId).Some? ==>
        var o := FindSupplierOrder(old(supplierOrders), orderId).value;
        supplierOrders == DeliverSupplierOrders(old(supplierOrders), orderId, details) &&
        warehouse == Replenish(old(warehouse), o.branchId, o.receiptType, o.quantityUnits)
      ensures users == old(users) && inventory == old(inventory) && orders == old(orders)
    {
      var order := FindSupplierOrder(supplierOrders, orderId);
      if order.None? {
        return;
      }
      supplierOrders := DeliverSupplierOrders(supplierOrders, orderId, details);
      warehouse := Replenish(warehouse, order.value.branchId, order.value.receiptType, order.value.quantityUnits);
    }
  }
}
