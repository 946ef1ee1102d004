/** How the operations work together along an order's life: the dashboards' buttons
    lead each order through PENDING, APPROVED, IN_TRANSIT, DELIVERED and RECEIVED, and an
    order shipped with the series the admin dashboard proposes, then received, leaves
    the branch's ledger entry balanced, in both revisions. */
module Lifecycle {
  import opened Types
  import opened Rules
  import opened Ledger
  import opened Warehouse
  import opened Records
  import opened App
  import opened Page
  import opened BranchDashboard
  import opened AdminDashboard

  /** Only one order carries that id. */
  predicate UniqueOrderId(orders: seq<ReceiptOrder>, id: string) {
    forall i, j :: 0 <= i < |orders| && 0 <= j < |orders| && orders[i].id == id && orders[j].id == id ==> i == j
  }

  /** Each button calls the handler that moves the order to the status where the next
      button appears; the branch's "Edit" and "Confirm Arrival" are offered exactly for
      the orders the `App.tsx` handlers act on. */
  lemma ButtonsAdvanceLifecycle(orders: seq<ReceiptOrder>, id: string, start: int, end: int,
                                today: string, receivedBy: string, t: ReceiptType, units: int, j: nat)
    requires j < |orders| && orders[j].id == id
    ensures OrderActionFor(orders[j]) == ApproveButton ==>
      OrderActionFor(ApproveOrders(orders, id)[j]) == ShipButton
    ensures OrderActionFor(orders[j]) == ShipButton ==>
      OrderActionFor(ShipOrders(orders, id, start, end)[j]) == MarkArrivedButton
    ensures OrderActionFor(orders[j]) == MarkArrivedButton ==>
      OrderActionFor(DeliverOrders(orders, id, today)[j]) == NoButton &&
      ConfirmArrivalOffered(DeliverOrders(orders, id, today)[j])
    ensures ConfirmArrivalOffered(orders[j]) ==>
      !IsActive(ReceiveOrders(orders, id, receivedBy)[j]) &&
      OrderActionFor(ReceiveOrders(orders, id, receivedBy)[j]) == NoButton
    ensures EditOrders(orders, id, t, units, true)[j] != orders[j] ==> EditOffered(orders[j])
  {
  }

  /** On a well-formed warehouse the pack size looked up at receipt is the fixed rule,
      whether or not the branch has the item. */
  lemma PackSizeAtReceiptIsRule(w: WarehouseStock, o: ReceiptOrder)
    requires WellFormed(w)
    ensures PackSizeAtReceipt(w, o) == ReceiptsPerUnit(o.receiptType)
  {
    if FindItem(w, o.branchId, o.receiptType).Some? {
      PackSizesAgree(w, o);
    }
  }

  /** On a well-formed warehouse both revisions stamp the same series on an order they
      ship from the same start. */
  lemma RevisionsShipSameSeries(orders: seq<ReceiptOrder>, w: WarehouseStock, id: string, start: int, today: string)
    requires WellFormed(w) && UniqueOrderId(orders, id)
    requires ShipCheck(orders, w, id) == ShipAccepted
    ensures var o := FindOrder(orders, id).value;
      var item := FindItem(w, o.branchId, o.receiptType).value;
      forall j :: 0 <= j < |orders| ==>
        ShipOrders(orders, id, start, SeriesEnd(start, o.quantityUnits * item.receiptsPerUnit))[j] ==
        PageShipOrders(orders, id, start, today)[j].(deliveryDate := orders[j].deliveryDate)
  {
    var o := FindOrder(orders, id).value;
    PackSizesAgree(w, o);
    var k :| 0 <= k < |orders| && orders[k] == o;
    SameSeriesAt(orders, id, start, today, k,
                 SeriesEnd(start, o.quantityUnits * FindItem(w, o.branchId, o.receiptType).value.receiptsPerUnit));
  }

  lemma SameSeriesAt(orders: seq<ReceiptOrder>, id: string, start: int, today: string, k: nat, end: int)
    requires k < |orders| && orders[k].id == id
    requires forall j :: 0 <= j < |orders| && orders[j].id == id ==> j == k
    requires end == SeriesEnd(start, orders[k].quantityUnits * ReceiptsPerUnit(orders[k].receiptType))
    ensures forall j :: 0 <= j < |orders| ==>
      ShipOrders(orders, id, start, end)[j] ==
      PageShipOrders(orders, id, start, today)[j].(deliveryDate := orders[j].deliveryDate)
  {
    forall j | 0 <= j < |orders|
      ensures ShipOrders(orders, id, start, end)[j] ==
              PageShipOrders(orders, id, start, today)[j].(deliveryDate := orders[j].deliveryDate)
    {
      if orders[j].id == id {
        assert j == k;
      }
    }
  }

  /** When two orders share an id the revisions part ways: `App.tsx` stamps both with the
      series computed from the first, `app/page.tsx` gives each its own length. */
  lemma RevisionsDifferOnDuplicateIds(a: ReceiptOrder, b: ReceiptOrder, today: string)
    requires a.id == "x" && b.id == "x"
    requires a.receiptType == SalesInvoice && b.receiptType == SalesInvoice
    requires a.quantityUnits == 5 && b.quantityUnits == 3
    ensures var app := ShipOrders([a, b], "x", 1, SeriesEnd(1, a.quantityUnits * 500));
      app[0].seriesEnd == Some(2500) && app[1].seriesEnd == Some(2500)
    ensures var page := PageShipOrders([a, b], "x", 1, today);
      page[0].seriesEnd == Some(2500) && page[1].seriesEnd == Some(1500)
  {
    var page := PageShipOrders([a, b], "x", 1, today);
    assert page[1] == b.(status := InTransit, seriesStart := Some(1), seriesEnd := Some(1500),
                         deliveryDate := Some(today));
  }

  /** The order as `App.tsx` leaves it after shipping from `start` and marking it delivered. */
  function AppDelivered(o: ReceiptOrder, start: int, perUnit: int, today: string): ReceiptOrder {
    o.(status := OrderStatus.Delivered, seriesStart := Some(start),
       seriesEnd := Some(start + o.quantityUnits * perUnit - 1), deliveryDate := Some(today))
  }

  /** In `App.tsx`: an order shipped from the start the admin dashboard proposes, then
      marked delivered and confirmed, finds itself as that delivered order, and every
      ledger entry of its branch and type stays balanced and gains exactly the
      delivered receipts, its series extended by as many. */
  lemma {:induction false} AppLifecycleKeepsBalance(inv: seq<ReceiptInventory>, orders: seq<ReceiptOrder>,
                                                    w: WarehouseStock, id: string, today: string)
    requires WellFormed(w) && UniqueEntries(inv) && UniqueOrderId(orders, id)
    requires ShipCheck(orders, w, id) == ShipAccepted
    requires var o := FindOrder(orders, id).value;
      o.quantityUnits >= 0 && FindEntry(inv, o.branchId, o.receiptType).Some? &&
      Balanced(FindEntry(inv, o.branchId, o.receiptType).value)
    ensures var o := FindOrder(orders, id).value;
      var e := FindEntry(inv, o.branchId, o.receiptType).value;
      var perUnit := FindItem(w, o.branchId, o.receiptType).value.receiptsPerUnit;
      var start := NextSeriesStart(inv, o.branchId, o.receiptType);
      var delivered := DeliverOrders(ShipOrders(orders, id, start, SeriesEnd(start, o.quantityUnits * perUnit)), id, today);
      var o1 := AppDelivered(o, start, perUnit, today);
      var after := CreditReceipt(inv, o1, PackSizeAtReceipt(TakeUnits(w, o.branchId, o.receiptType, o.quantityUnits), o1), today);
      FindOrder(delivered, id) == Some(o1) &&
      |after| == |inv| &&
      forall j :: 0 <= j < |inv| && IsEntryFor(inv[j], o.branchId, o.receiptType) ==>
        Balanced(after[j]) &&
        after[j].remainingStock == e.remainingStock + o.quantityUnits * ReceiptsPerUnit(o.receiptType) &&
        after[j].currentSeriesEnd == e.currentSeriesEnd + o.quantityUnits * ReceiptsPerUnit(o.receiptType)
  {
    var o := FindOrder(orders, id).value;
    PackSizesAgree(w, o);
    var start := NextSeriesStart(inv, o.branchId, o.receiptType);
    AppShippedThenDelivered(orders, id, start, ReceiptsPerUnit(o.receiptType), today);
    AppReceiptPackSize(w, o, start, today);
    AppCreditKeepsBalance(inv, o, today);
  }

  /** After the guarded decrement the warehouse is still well formed, so the pack size
      read at receipt is the fixed rule. */
  lemma AppReceiptPackSize(w: WarehouseStock, o: ReceiptOrder, start: int, today: string)
    requires WellFormed(w)
    requires FindItem(w, o.branchId, o.receiptType).Some?
    requires FindItem(w, o.branchId, o.receiptType).value.totalUnits >= o.quantityUnits
    ensures PackSizeAtReceipt(TakeUnits(w, o.branchId, o.receiptType, o.quantityUnits),
                              AppDelivered(o, start, ReceiptsPerUnit(o.receiptType), today)) ==
            ReceiptsPerUnit(o.receiptType)
  {
    TakeUnitsWellFormed(w, o.branchId, o.receiptType, o.quantityUnits);
    PackSizeAtReceiptIsRule(TakeUnits(w, o.branchId, o.receiptType, o.quantityUnits),
                            AppDelivered(o, start, ReceiptsPerUnit(o.receiptType), today));
  }

  /** Shipping then marking delivered, found again by its id. */
  lemma AppShippedThenDelivered(orders: seq<ReceiptOrder>, id: string, start: int, perUnit: int, today: string)
    requires UniqueOrderId(orders, id) && FindOrder(orders, id).Some?
    ensures var end := SeriesEnd(start, FindOrder(orders, id).value.quantityUnits * perUnit);
      FindOrder(DeliverOrders(ShipOrders(orders, id, start, end), id, today), id) ==
      Some(AppDelivered(FindOrder(orders, id).value, start, perUnit, today))
  {
    var o := FindOrder(orders, id).value;
    var k :| 0 <= k < |orders| && orders[k] == o;
    AppShippedAt(orders, id, start, perUnit, today, k);
  }

  lemma AppShippedAt(orders: seq<ReceiptOrder>, id: string, start: int, perUnit: int, today: string, k: nat)
    requires k < |orders| && orders[k].id == id
    requires forall j :: 0 <= j < |orders| && orders[j].id == id ==> j == k
    ensures var end := SeriesEnd(start, orders[k].quantityUnits * perUnit);
      FindOrder(DeliverOrders(ShipOrders(orders, id, start, end), id, today), id) ==
      Some(AppDelivered(orders[k], start, perUnit, today))
  {
    var shipped := ShipOrders(orders, id, start, SeriesEnd(start, orders[k].quantityUnits * perUnit));
    var delivered := DeliverOrders(shipped, id, today);
    assert delivered[k] == AppDelivered(orders[k], start, perUnit, today);
    OrderFoundAt(delivered, id, k);
  }

  /** Crediting a delivery shipped from the proposed start to the branch's only entry
      for the type. */
  lemma AppCreditKeepsBalance(inv: seq<ReceiptInventory>, o: ReceiptOrder, today: string)
    requires UniqueEntries(inv) && o.quantityUnits >= 0
    requires FindEntry(inv, o.branchId, o.receiptType).Some?
    requires Balanced(FindEntry(inv, o.branchId, o.receiptType).value)
    ensures var e := FindEntry(inv, o.branchId, o.receiptType).value;
      var r := ReceiptsPerUnit(o.receiptType);
      var o1 := AppDelivered(o, NextSeriesStart(inv, o.branchId, o.receiptType), r, today);
      var after := CreditReceipt(inv, o1, r, today);
      |after| == |inv| &&
      forall j :: 0 <= j < |inv| && IsEntryFor(inv[j], o.branchId, o.receiptType) ==>
        Balanced(after[j]) &&
        after[j].remainingStock == e.remainingStock + o.quantityUnits * r &&
        after[j].currentSeriesEnd == e.currentSeriesEnd + o.quantityUnits * r
  {
    var e := FindEntry(inv, o.branchId, o.receiptType).value;
    NonNegativeReceipts(o.quantityUnits, o.receiptType);
    var r := ReceiptsPerUnit(o.receiptType);
    var n := o.quantityUnits * r;
    var m :| 0 <= m < |inv| && inv[m] == e;
    var o1 := AppDelivered(o, NextSeriesStart(inv, o.branchId, o.receiptType), r, today);
    assert o1.branchId == o.branchId && o1.receiptType == o.receiptType && o1.quantityUnits == o.quantityUnits;
    assert o1.seriesEnd == Some(e.currentSeriesEnd + n);
    var after := CreditReceipt(inv, o1, r, today);
    forall j | 0 <= j < |inv| && IsEntryFor(inv[j], o.branchId, o.receiptType)
      ensures Balanced(after[j]) && after[j].remainingStock == e.remainingStock + n &&
              after[j].currentSeriesEnd == e.currentSeriesEnd + n
    {
      assert j == m;
      CreditedEntryBalanced(e, after[j], n);
    }
  }

  /** The id found is the one at the only position that carries it. */
  lemma OrderFoundAt(orders: seq<ReceiptOrder>, id: string, k: nat)
    requires k < |orders| && orders[k].id == id
    requires forall j :: 0 <= j < |orders| && orders[j].id == id ==> j == k
    ensures FindOrder(orders, id) == Some(orders[k])
  {
    var f := FindOrder(orders, id).value;
    var j :| 0 <= j < |orders| && orders[j] == f;
  }

  /** A non-negative number of units holds a non-negative number of receipts. */
  lemma NonNegativeReceipts(q: int, t: ReceiptType)
    requires q >= 0
    ensures q * ReceiptsPerUnit(t) >= 0
  {
  }

  /** The order as `app/page.tsx` leaves it after shipping from `start` and marking it
      delivered. */
  function PageDelivered(o: ReceiptOrder, start: int, today: string): ReceiptOrder {
    PageStamp(o, start, today).(status := OrderStatus.Delivered)
  }

  /** The same in `app/page.tsx`, where nothing checks the warehouse: an order shipped
      from the proposed start, marked delivered and confirmed keeps every ledger entry
      of its branch and type balanced, provided the entry's series does not end below 0
      (a series end of 0 is read as missing by this revision). */
  lemma {:induction false} PageLifecycleKeepsBalance(inv: seq<ReceiptInventory>, orders: seq<ReceiptOrder>,
                                                     id: string, today: string)
    requires UniqueEntries(inv) && UniqueOrderId(orders, id)
    requires FindOrder(orders, id).Some?
    requires var o := FindOrder(orders, id).value;
      o.quantityUnits >= 0 && FindEntry(inv, o.branchId, o.receiptType).Some? &&
      Balanced(FindEntry(inv, o.branchId, o.receiptType).value) &&
      FindEntry(inv, o.branchId, o.receiptType).value.currentSeriesEnd >= 0
    ensures var o := FindOrder(orders, id).value;
      var e := FindEntry(inv, o.branchId, o.receiptType).value;
      var start := NextSeriesStart(inv, o.branchId, o.receiptType);
      var delivered := MarkDelivered(PageShipOrders(orders, id, start, today), id);
      var o1 := PageDelivered(o, start, today);
      var after := PageCreditReceipt(inv, o1, today);
      FindOrder(delivered, id) == Some(o1) &&
      |after| == |inv| &&
      forall j :: 0 <= j < |inv| && IsEntryFor(inv[j], o.branchId, o.receiptType) ==>
        Balanced(after[j]) &&
        after[j].remainingStock == e.remainingStock + o.quantityUnits * ReceiptsPerUnit(o.receiptType)
  {
    var o := FindOrder(orders, id).value;
    var start := NextSeriesStart(inv, o.branchId, o.receiptType);
    PageShippedThenDelivered(orders, id, start, today);
    PageCreditKeepsBalance(inv, o, today);
  }

  /** Shipping then marking delivered in this revision, found again by its id. */
  lemma PageShippedThenDelivered(orders: seq<ReceiptOrder>, id: string, start: int, today: string)
    requires UniqueOrderId(orders, id) && FindOrder(orders, id).Some?
    ensures FindOrder(MarkDelivered(PageShipOrders(orders, id, start, today), id), id) ==
      Some(PageDelivered(FindOrder(orders, id).value, start, today))
  {
    var o := FindOrder(orders, id).value;
    var k :| 0 <= k < |orders| && orders[k] == o;
    PageShippedAt(orders, id, start, today, k);
  }

  lemma PageShippedAt(orders: seq<ReceiptOrder>, id: string, start: int, today: string, k: nat)
    requires k < |orders| && orders[k].id == id
    requires forall j :: 0 <= j < |orders| && orders[j].id == id ==> j == k
    ensures FindOrder(MarkDelivered(PageShipOrders(orders, id, start, today), id), id) ==
      Some(PageDelivered(orders[k], start, today))
  {
    var shipped := PageShipOrders(orders, id, start, today);
    var delivered := MarkDelivered(shipped, id);
    PageDeliveredAt(orders, id, start, today, k);
    assert forall j :: 0 <= j < |delivered| ==> delivered[j].id == shipped[j].id == orders[j].id;
    OrderFoundAt(delivered, id, k);
  }

  /** The order at `k`, shipped from `start` and marked delivered in this revision. */
  lemma PageDeliveredAt(orders: seq<ReceiptOrder>, id: string, start: int, today: string, k: nat)
    requires k < |orders| && orders[k].id == id
    ensures MarkDelivered(PageShipOrders(orders, id, start, today), id)[k] == PageDelivered(orders[k], start, today)
  {
    var shipped := PageShipOrders(orders, id, start, today);
    assert shipped[k] == PageStamp(orders[k], start, today);
  }

  /** Crediting, in this revision, a delivery shipped from the proposed start to the
      branch's only entry for the type. */
  lemma PageCreditKeepsBalance(inv: seq<ReceiptInventory>, o: ReceiptOrder, today: string)
    requires UniqueEntries(inv) && o.quantityUnits >= 0
    requires FindEntry(inv, o.branchId, o.receiptType).Some?
    requires Balanced(FindEntry(inv, o.branchId, o.receiptType).value)
    requires FindEntry(inv, o.branchId, o.receiptType).value.currentSeriesEnd >= 0
    ensures var e := FindEntry(inv, o.branchId, o.receiptType).value;
      var o1 := PageDelivered(o, NextSeriesStart(inv, o.branchId, o.receiptType), today);
      var after := PageCreditReceipt(inv, o1, today);
      |after| == |inv| &&
      forall j :: 0 <= j < |inv| && IsEntryFor(inv[j], o.branchId, o.receiptType) ==>
        Balanced(after[j]) &&
        after[j].remainingStock == e.remainingStock + o.quantityUnits * ReceiptsPerUnit(o.receiptType)
  {
    var e := FindEntry(inv, o.branchId, o.receiptType).value;
    NonNegativeReceipts(o.quantityUnits, o.receiptType);
    var n := o.quantityUnits * ReceiptsPerUnit(o.receiptType);
    var m :| 0 <= m < |inv| && inv[m] == e;
    var o1 := PageDelivered(o, NextSeriesStart(inv, o.branchId, o.receiptType), today);
    assert o1.branchId == o.branchId && o1.receiptType == o.receiptType && o1.quantityUnits == o.quantityUnits;
    assert o1.seriesEnd == Some(e.currentSeriesEnd + n);
    var after := PageCreditReceipt(inv, o1, today);
    forall j | 0 <= j < |inv| && IsEntryFor(inv[j], o.branchId, o.receiptType)
      ensures Balanced(after[j]) && after[j].remainingStock == e.remainingStock + n
    {
      assert j == m;
      CreditedEntryBalanced(e, after[j], n);
    }
  }

  /** An entry whose stock and series end both grow by `n`, nothing else moving,
      stays balanced. */
  lemma CreditedEntryBalanced(e: ReceiptInventory, a: ReceiptInventory, n: int)
    requires Balanced(e) && n >= 0
    requires a.remainingStock == e.remainingStock + n && a.currentSeriesEnd == e.currentSeriesEnd + n
    requires a.currentSeriesStart == e.currentSeriesStart && a.lastUsedNumber == e.lastUsedNumber
    ensures Balanced(a)
  {
  }

  /** `confirmReceipt` adds an entry only when none exists for the order's branch and
      type, so a ledger with one entry per (branch, type) keeps that shape. */
  lemma AppCreditKeepsEntriesUnique(inv: seq<ReceiptInventory>, o: ReceiptOrder, perUnit: int, today: string)
    requires UniqueEntries(inv)
    ensures UniqueEntries(CreditReceipt(inv, o, perUnit, today))
  {
    var r := CreditReceipt(inv, o, perUnit, today);
    if FindEntry(inv, o.branchId, o.receiptType).Some? {
      SameKeysKeepEntriesUnique(inv, r);
    } else {
      AppendedEntryKeepsEntriesUnique(inv, r);
    }
  }

  /** The same for this revision's `confirmReceipt`. */
  lemma PageCreditKeepsEntriesUnique(inv: seq<ReceiptInventory>, o: ReceiptOrder, today: string)
    requires UniqueEntries(inv)
    ensures UniqueEntries(PageCreditReceipt(inv, o, today))
  {
    var r := PageCreditReceipt(inv, o, today);
    if FindEntry(inv, o.branchId, o.receiptType).Some? {
      SameKeysKeepEntriesUnique(inv, r);
    } else {
      AppendedEntryKeepsEntriesUnique(inv, r);
    }
  }

  /** Logging a consumption rewrites entries in place without touching branch or type. */
  lemma UpdateLastUsedKeepsEntriesUnique(inv: seq<ReceiptInventory>, b: string, t: ReceiptType, n: int,
                                         date: string, loggedBy: Option<string>)
    requires UniqueEntries(inv)
    ensures UniqueEntries(Ledger.UpdateLastUsed(inv, b, t, n, date, loggedBy))
  {
    SameKeysKeepEntriesUnique(inv, Ledger.UpdateLastUsed(inv, b, t, n, date, loggedBy));
  }

  /** Renaming a branch's company in the ledger leaves branch and type of every entry alone. */
  lemma SyncCompanyKeepsEntriesUnique(inv: seq<ReceiptInventory>, userId: string, company: Option<string>)
    requires UniqueEntries(inv)
    ensures UniqueEntries(SyncCompany(inv, userId, company))
  {
    SameKeysKeepEntriesUnique(inv, SyncCompany(inv, userId, company));
  }

  /** An entry-by-entry rewrite that keeps every branch and type keeps the ledger unique. */
  lemma SameKeysKeepEntriesUnique(inv: seq<ReceiptInventory>, r: seq<ReceiptInventory>)
    requires UniqueEntries(inv) && |r| == |inv|
    requires forall j :: 0 <= j < |inv| ==> r[j].branchId == inv[j].branchId && r[j].receiptType == inv[j].receiptType
    ensures UniqueEntries(r)
  {
  }

  /** Appending an entry for a (branch, type) the ledger has no entry for keeps it unique. */
  lemma AppendedEntryKeepsEntriesUnique(inv: seq<ReceiptInventory>, r: seq<ReceiptInventory>)
    requires UniqueEntries(inv) && |r| == |inv| + 1 && r[..|inv|] == inv
    requires forall j :: 0 <= j < |inv| ==> !IsEntryFor(inv[j], r[|inv|].branchId, r[|inv|].receiptType)
    ensures UniqueEntries(r)
  {
    forall j, k | 0 <= j < k < |r|
      ensures !(r[j].branchId == r[k].branchId && r[j].receiptType == r[k].receiptType)
    {
      assert r[j] == inv[j];
      if k < |inv| {
        assert r[k] == inv[k];
      }
    }
  }
}
