/** The demonstration data both revisions start from: four accounts, four inventory
    entries, one pending order and the warehouse allocations of three branches. */
module Seed {
  import opened Types

  const InitialUsers: seq<User> := [
    User("1", "CW@Admin", Admin, None, None, None),
    User("2", "manila_br", Branch, Some("Megamall"), Some("PMCI"), None),
    User("3", "cebu_br", Branch, Some("Seaside Cebu"), Some("PMCI"), None),
    User("4", "davao_br", Branch, Some("SM Davao"), Some("PEHI"), None)
  ]

  const InitialInventory: seq<ReceiptInventory> := [
    ReceiptInventory("2", "PMCI", SalesInvoice, 1000, 5000, 4850, 150, 5000, None, None),
    ReceiptInventory("2", "PMCI", CollectionReceipt, 100, 500, 300, 200, 250, None, None),
    ReceiptInventory("3", "PMCI", SalesInvoice, 5001, 10000, 6000, 4000, 5000, None, None),
    ReceiptInventory("4", "PEHI", ServiceInvoice, 20000, 25000, 24900, 100, 250, None, None)
  ]

  const InitialOrders: seq<ReceiptOrder> := [
    ReceiptOrder("ord_1", "2", "Megamall", "PMCI", SalesInvoice, 5, Pending, "2023-10-25", None, None, None, None)
  ]

  const InitialWarehouse: WarehouseStock := map[
    "2" := [WarehouseItem(SalesInvoice, "2", 15, 500, Box),
            WarehouseItem(CollectionReceipt, "2", 20, 50, Booklet)],
    "3" := [WarehouseItem(SalesInvoice, "3", 10, 500, Box),
            WarehouseItem(DeliveryReceipt, "3", 30, 50, Booklet)],
    "4" := [WarehouseItem(ServiceInvoice, "4", 25, 50, Booklet)]
  ]
}
