/** The shared vocabulary of the receipt monitor: the closed enumerations and the
    record shapes that every handler and dashboard works on. Optional fields of the
    records are `Option` values; `type` is a Dafny keyword, so the receipt type of a
    record is called `receiptType`. */
module Types {

  datatype Option<T> = None | Some(value: T) {
    /** The value, or `fallback` when there is none. */
    function GetOr(fallback: T): T {
      match this
      case Some(v) => v
      case None => fallback
    }
  }

  /** JavaScript's `text || fallback` on an optional string: an absent value and the
      empty string both count as false. */
  function OrText(o: Option<string>, fallback: string): (r: string)
    ensures o.Some? && o.value != "" ==> r == o.value
    ensures o.None? || o.value == "" ==> r == fallback
  {
    if o.Some? && o.value != "" then o.value else fallback
  }

  /** JavaScript's `n || fallback` on an optional number: an absent value and 0 both
      count as false. */
  function OrNumber(o: Option<int>, fallback: int): (r: int)
    ensures o.Some? && o.value != 0 ==> r == o.value
    ensures o.None? || o.value == 0 ==> r == fallback
  {
    if o.Some? && o.value != 0 then o.value else fallback
  }

  datatype UserRole = Admin | Branch

  datatype ReceiptType = SalesInvoice | CollectionReceipt | DeliveryReceipt | ServiceInvoice

  const AllReceiptTypes: seq<ReceiptType> :=
    [SalesInvoice, CollectionReceipt, DeliveryReceipt, ServiceInvoice]

  /** A branch order moves PENDING -> APPROVED -> IN_TRANSIT -> DELIVERED -> RECEIVED;
      CANCELLED is declared but no handler assigns it. */
  datatype OrderStatus = Pending | Approved | InTransit | Delivered | Received | Cancelled

  const AllOrderStatuses: seq<OrderStatus> :=
    [Pending, Approved, InTransit, OrderStatus.Delivered, Received, Cancelled]

  datatype SupplierOrderStatus = Requested | Processed | Shipped | Delivered

  const AllSupplierOrderStatuses: seq<SupplierOrderStatus> :=
    [Requested, Processed, Shipped, SupplierOrderStatus.Delivered]

  /** A warehouse item's unit label is one of two literals. */
  datatype UnitLabel = Box | Booklet

  datatype User = User(
    id: string,
    username: string,
    role: UserRole,
    branchName: Option<string>,
    company: Option<string>,
    tinNumber: Option<string>)

  /** One entry per branch and receipt type: the current series and how far it is used. */
  datatype ReceiptInventory = ReceiptInventory(
    branchId: string,
    company: string,
    receiptType: ReceiptType,
    currentSeriesStart: int,
    currentSeriesEnd: int,
    lastUsedNumber: int,
    remainingStock: int,
    threshold: int,
    lastUpdateDate: Option<string>,
    lastUpdatedBy: Option<string>)

  /** A branch's request for units; the series and the receiver are filled in later. */
  datatype ReceiptOrder = ReceiptOrder(
    id: string,
    branchId: string,
    branchName: string,
    company: string,
    receiptType: ReceiptType,
    quantityUnits: int,
    status: OrderStatus,
    requestDate: string,
    deliveryDate: Option<string>,
    seriesStart: Option<int>,
    seriesEnd: Option<int>,
    receivedBy: Option<string>)

  /** A replenishment order to the external supplier, with its billing fields. Amounts
      are whole numbers here. */
  datatype SupplierOrder = SupplierOrder(
    id: string,
    branchId: string,
    receiptType: ReceiptType,
    quantityUnits: int,
    status: SupplierOrderStatus,
    requestDate: string,
    billingInvoiceNo: Option<string>,
    amount: Option<int>,
    deliveryReceiptNo: Option<string>,
    deliveryDate: Option<string>,
    prfNumber: Option<string>,
    isPaid: Option<bool>)

  /** Stock held centrally for one branch and type, counted in units. */
  datatype WarehouseItem = WarehouseItem(
    receiptType: ReceiptType,
    branchId: string,
    totalUnits: int,
    receiptsPerUnit: int,
    unitLabel: UnitLabel)

  /** Warehouse stock keyed by branch id. */
  type WarehouseStock = map<string, seq<WarehouseItem>>

  /** The receipt types form a closed set of four distinct values. */
  lemma ReceiptTypesClosed()
    ensures |AllReceiptTypes| == 4
    ensures forall t: ReceiptType :: t in AllReceiptTypes
    ensures forall i, j :: 0 <= i < j < |AllReceiptTypes| ==> AllReceiptTypes[i] != AllReceiptTypes[j]
  {
    forall t: ReceiptType ensures t in AllReceiptTypes {
      match t
      case SalesInvoice => assert AllReceiptTypes[0] == t;
      case CollectionReceipt => assert AllReceiptTypes[1] == t;
      case DeliveryReceipt => assert AllReceiptTypes[2] == t;
      case ServiceInvoice => assert AllReceiptTypes[3] == t;
    }
  }

  /** Six distinct order statuses, CANCELLED among them. */
  lemma OrderStatusesClosed()
    ensures |AllOrderStatuses| == 6 && Cancelled in AllOrderStatuses
    ensures forall s: OrderStatus :: s in AllOrderStatuses
    ensures forall i, j :: 0 <= i < j < |AllOrderStatuses| ==> AllOrderStatuses[i] != AllOrderStatuses[j]
  {
    forall s: OrderStatus ensures s in AllOrderStatuses {
      match s
      case Pending => assert AllOrderStatuses[0] == s;
      case Approved => assert AllOrderStatuses[1] == s;
      case InTransit => assert AllOrderStatuses[2] == s;
      case Delivered => assert AllOrderStatuses[3] == s;
      case Received => assert AllOrderStatuses[4] == s;
      case Cancelled => assert AllOrderStatuses[5] == s;
    }
  }

  /** Four distinct supplier order statuses. */
  lemma SupplierOrderStatusesClosed()
    ensures |AllSupplierOrderStatuses| == 4
    ensures forall s: SupplierOrderStatus :: s in AllSupplierOrderStatuses
    ensures forall i, j :: 0 <= i < j < |AllSupplierOrderStatuses| ==>
      AllSupplierOrderStatuses[i] != AllSupplierOrderStatuses[j]
  {
    forall s: SupplierOrderStatus ensures s in AllSupplierOrderStatuses {
      match s
      case Requested => assert AllSupplierOrderStatuses[0] == s;
      case Processed => assert AllSupplierOrderStatuses[1] == s;
      case Shipped => assert AllSupplierOrderStatuses[2] == s;
      case Delivered => assert AllSupplierOrderStatuses[3] == s;
    }
  }
}
