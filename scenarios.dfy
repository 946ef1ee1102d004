/** What the demonstration data already satisfies, and the demonstration order walked
    through the `App.tsx` handlers. */
module Scenarios {
  import opened Types
  import opened Rules
  import opened Ledger
  import opened Warehouse
  import opened Records
  import opened Seed
  import opened App
  import opened BranchDashboard
  import opened AdminDashboard
  import opened Lifecycle

  /** Every seeded entry is balanced, carries the threshold of its type, is flagged low,
      and no branch holds two entries of one type. */
  lemma SeedLedgerConsistent()
    ensures UniqueEntries(InitialInventory)
    ensures forall j :: 0 <= j < |InitialInventory| ==>
      Balanced(InitialInventory[j]) && IsLow(InitialInventory[j]) &&
      InitialInventory[j].threshold == ThresholdFor(InitialInventory[j].receiptType)
  {
    forall j | 0 <= j < |InitialInventory|
      ensures Balanced(InitialInventory[j]) && IsLow(InitialInventory[j]) &&
              InitialInventory[j].threshold == ThresholdFor(InitialInventory[j].receiptType)
    {
      assert j == 0 || j == 1 || j == 2 || j == 3;
    }
  }

  /** The seeded warehouse is well formed: each item is filed under its own branch,
      follows the pack-size rule and is the only one of its type. */
  lemma SeedWarehouseWellFormed()
    ensures WellFormed(InitialWarehouse)
  {
    forall b | b in InitialWarehouse ensures ItemsWellFormed(b, InitialWarehouse[b]) {
      assert b == "2" || b == "3" || b == "4";
    }
  }

  /** One administrator, three branch accounts, no username twice; every branch
      account names its branch and company. */
  lemma SeedAccounts()
    ensures forall j :: 0 <= j < |InitialUsers| ==> (InitialUsers[j].role == Admin <==> j == 0)
    ensures forall j, k :: 0 <= j < k < |InitialUsers| ==>
      InitialUsers[j].username != InitialUsers[k].username && InitialUsers[j].id != InitialUsers[k].id
    ensures forall j :: 0 <= j < |InitialUsers| && InitialUsers[j].role == Branch ==>
      InitialUsers[j].branchName.Some? && InitialUsers[j].company.Some?
  {
  }

  /** The pending demonstration order: Approve is offered, the stock guard accepts it,
      and the proposed series starts right after branch 2's last Sales Invoice. */
  lemma SeedShipScenario()
    ensures OrderActionFor(InitialOrders[0]) == ApproveButton
    ensures ShipCheck(ApproveOrders(InitialOrders, "ord_1"), InitialWarehouse, "ord_1") == ShipAccepted
    ensures NextSeriesStart(InitialInventory, "2", SalesInvoice) == 5001
  {
    var approved := ApproveOrders(InitialOrders, "ord_1");
    assert approved[0] == InitialOrders[0].(status := Approved);
    assert FindOrder(approved, "ord_1") == Some(approved[0]);
    assert InitialWarehouse["2"][0].receiptType == SalesInvoice;
    assert FindItem(InitialWarehouse, "2", SalesInvoice) == Some(InitialWarehouse["2"][0]);
    assert FindEntry(InitialInventory, "2", SalesInvoice) == Some(InitialInventory[0]);
  }

  /** Shipping the demonstration order takes its 5 boxes: branch 2 keeps 10. */
  lemma SeedShipTakesUnits()
    ensures FindItem(TakeUnits(InitialWarehouse, "2", SalesInvoice, 5), "2", SalesInvoice).Some?
    ensures FindItem(TakeUnits(InitialWarehouse, "2", SalesInvoice, 5), "2", SalesInvoice).value.totalUnits == 10
  {
    assert InitialWarehouse["2"][0].receiptType == SalesInvoice;
    assert FindItem(InitialWarehouse, "2", SalesInvoice) == Some(InitialWarehouse["2"][0]);
    var taken := TakeUnits(InitialWarehouse, "2", SalesInvoice, 5);
    assert taken["2"][0] == InitialWarehouse["2"][0].(totalUnits := 10);
    assert FindItem(taken, "2", SalesInvoice) == Some(taken["2"][0]);
  }

  /** Shipping the approved demonstration order from any start `s` stamps a series
      of 2,500 receipts ending at `s + 2499`. */
  lemma SeedShipSeries(s: int)
    ensures ShipOrders(ApproveOrders(InitialOrders, "ord_1"), "ord_1", s,
                       SeriesEnd(s, InitialOrders[0].quantityUnits * 500))[0].seriesEnd == Some(s + 2499)
  {
    assert ApproveOrders(InitialOrders, "ord_1")[0] == InitialOrders[0].(status := Approved);
  }

  /** Walking the demonstration order through approval, shipping from the proposed
      start, delivery and confirmation leaves branch 2's Sales Invoice entry balanced
      with 2,650 receipts, its series ending at 7500. */
  lemma SeedLifecycle(today: string)
    ensures FindOrder(ApproveOrders(InitialOrders, "ord_1"), "ord_1") == Some(ApproveOrders(InitialOrders, "ord_1")[0])
    ensures var o := ApproveOrders(InitialOrders, "ord_1")[0];
      var o1 := AppDelivered(o, 5001, 500, today);
      var after := CreditReceipt(InitialInventory, o1, PackSizeAtReceipt(TakeUnits(InitialWarehouse, "2", SalesInvoice, 5), o1), today);
      Balanced(after[0]) && after[0].remainingStock == 2650 && after[0].currentSeriesEnd == 7500 &&
      after[1..] == InitialInventory[1..]
  {
    var approved := ApproveOrders(InitialOrders, "ord_1");
    assert approved[0] == InitialOrders[0].(status := Approved);
    assert FindOrder(approved, "ord_1") == Some(approved[0]);
    var o1 := AppDelivered(approved[0], 5001, 500, today);
    var taken := TakeUnits(InitialWarehouse, "2", SalesInvoice, 5);
    assert taken["2"][0] == InitialWarehouse["2"][0].(totalUnits := 10);
    assert FindItem(taken, "2", SalesInvoice) == Some(taken["2"][0]);
    assert PackSizeAtReceipt(taken, o1) == 500;
    SeedCredit(o1, today);
  }

  /** The confirmation step of that walk. */
  lemma SeedCredit(o1: ReceiptOrder, today: string)
    requires o1.branchId == "2" && o1.receiptType == SalesInvoice && o1.quantityUnits == 5
    requires o1.seriesEnd == Some(7500)
    ensures var after := CreditReceipt(InitialInventory, o1, 500, today);
      Balanced(after[0]) && after[0].remainingStock == 2650 && after[0].currentSeriesEnd == 7500 &&
      after[1..] == InitialInventory[1..]
  {
    assert FindEntry(InitialInventory, "2", SalesInvoice) == Some(InitialInventory[0]);
    var after := CreditReceipt(InitialInventory, o1, 500, today);
    assert IsEntryFor(InitialInventory[0], "2", SalesInvoice);
    forall j | 1 <= j < |InitialInventory| ensures after[j] == InitialInventory[j] {
      assert !IsEntryFor(InitialInventory[j], "2", SalesInvoice);
    }
  }
}
