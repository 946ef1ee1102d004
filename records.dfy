/** Record-level rewrites of users, branch orders and supplier orders that both
    revisions of the handlers share. An update "by id" rewrites every record with that
    id, as the source's `map` does. */
module Records {
  import opened Types
  import opened Seqs
  import opened Ledger

  // ---------------------------------------------------------------- users

  /** A freshly registered branch account. */
  function NewBranchUser(id: string, branchName: string, company: string, username: string,
                         tinNumber: Option<string>): (r: User)
    ensures r.id == id && r.username == username && r.role == Branch
    ensures r.branchName == Some(branchName) && r.company == Some(company) && r.tinNumber == tinNumber
  {
    User(id, username, Branch, Some(branchName), Some(company), tinNumber)
  }

  /** The fields a `Partial<User>` may carry; an absent field keeps the old value. */
  datatype UserPatch = UserPatch(
    username: Option<string>,
    role: Option<UserRole>,
    branchName: Option<string>,
    company: Option<string>,
    tinNumber: Option<string>)

  /** `{ ...u, ...updates }` */
  function PatchUser(u: User, p: UserPatch): (r: User)
    ensures r.id == u.id
    ensures r.username == p.username.GetOr(u.username) && r.role == p.role.GetOr(u.role)
    ensures r.branchName == (if p.branchName.Some? then p.branchName else u.branchName)
    ensures r.company == (if p.company.Some? then p.company else u.company)
    ensures r.tinNumber == (if p.tinNumber.Some? then p.tinNumber else u.tinNumber)
  {
    User(u.id, p.username.GetOr(u.username), p.role.GetOr(u.role),
         if p.branchName.Some? then p.branchName else u.branchName,
         if p.company.Some? then p.company else u.company,
         if p.tinNumber.Some? then p.tinNumber else u.tinNumber)
  }

  /** Every account with id `id` takes the patch; the others are kept. */
  function PatchUsers(users: seq<User>, id: string, p: UserPatch): (r: seq<User>)
    ensures |r| == |users|
    ensures forall j :: 0 <= j < |users| ==> r[j] == if users[j].id == id then PatchUser(users[j], p) else users[j]
  {
    MapWhere(users, (u: User) => u.id == id, u => PatchUser(u, p))
  }

  /** `App.tsx` copies an edited company onto the branch's inventory entries; an absent
      or empty company keeps each entry's own. */
  function SyncCompany(inv: seq<ReceiptInventory>, userId: string, company: Option<string>): (r: seq<ReceiptInventory>)
    ensures |r| == |inv|
    ensures forall j :: 0 <= j < |inv| ==>
      r[j] == if inv[j].branchId == userId then inv[j].(company := OrText(company, inv[j].company)) else inv[j]
  {
    MapWhere(inv, (e: ReceiptInventory) => e.branchId == userId, (e: ReceiptInventory) => e.(company := OrText(company, e.company)))
  }

  /** `users.filter(u => u.id !== id)`: exactly the accounts with that id are gone,
      every other account is kept as often as it was there. */
  function DeleteUser(users: seq<User>, id: string): (r: seq<User>)
    ensures forall u: User :: u in r <==> u in users && u.id != id
    ensures forall u: User :: u.id != id ==> multiset(r)[u] == multiset(users)[u]
    ensures forall j :: 0 <= j < |r| ==> r[j].id != id
  {
    Filter(users, (u: User) => u.id != id)
  }

  // ---------------------------------------------------------------- branch orders

  /** The first order with id `id`, if any. */
  function FindOrder(orders: seq<ReceiptOrder>, id: string): (r: Option<ReceiptOrder>)
    ensures r.None? <==> forall j :: 0 <= j < |orders| ==> orders[j].id != id
    ensures r.Some? ==> r.value in orders && r.value.id == id
  {
    Find(orders, (o: ReceiptOrder) => o.id == id)
  }

  /** A new branch request: PENDING, with no series, delivery date or receiver yet. */
  function NewOrder(id: string, branchId: string, company: string, branchName: string,
                    t: ReceiptType, units: int, today: string): (r: ReceiptOrder)
    ensures r.id == id && r.branchId == branchId && r.receiptType == t && r.quantityUnits == units
    ensures r.company == company && r.branchName == branchName
    ensures r.status == Pending && r.requestDate == today
    ensures r.seriesStart.None? && r.seriesEnd.None? && r.deliveryDate.None? && r.receivedBy.None?
  {
    ReceiptOrder(id, branchId, branchName, company, t, units, Pending, today, None, None, None, None)
  }

  /** `approveOrder`: every order with that id becomes APPROVED, nothing else changes. */
  function ApproveOrders(orders: seq<ReceiptOrder>, id: string): (r: seq<ReceiptOrder>)
    ensures |r| == |orders|
    ensures forall j :: 0 <= j < |orders| ==>
      r[j] == if orders[j].id == id then orders[j].(status := Approved) else orders[j]
    ensures CancelledIds(r) <= CancelledIds(orders)
  {
    var r := MapWhere(orders, (o: ReceiptOrder) => o.id == id, (o: ReceiptOrder) => o.(status := Approved));
    RewriteCreatesNoCancellation(orders, r);
    r
  }

  /** The receiver's confirmation: every order with that id becomes RECEIVED and
      records who received it. */
  function ReceiveOrders(orders: seq<ReceiptOrder>, id: string, receivedBy: string): (r: seq<ReceiptOrder>)
    ensures |r| == |orders|
    ensures forall j :: 0 <= j < |orders| ==>
      r[j] == if orders[j].id == id then orders[j].(status := Received, receivedBy := Some(receivedBy)) else orders[j]
    ensures CancelledIds(r) <= CancelledIds(orders)
  {
    var r := MapWhere(orders, (o: ReceiptOrder) => o.id == id,
             (o: ReceiptOrder) => o.(status := Received, receivedBy := Some(receivedBy)));
    RewriteCreatesNoCancellation(orders, r);
    r
  }

  /** Type and units of an order being edited; `onlyPending` says whether orders past
      PENDING are protected (`App.tsx`) or not (`app/page.tsx`). */
  function EditOrders(orders: seq<ReceiptOrder>, id: string, t: ReceiptType, units: int, onlyPending: bool): (r: seq<ReceiptOrder>)
    ensures |r| == |orders|
    ensures forall j :: 0 <= j < |orders| ==>
      r[j] == if orders[j].id == id && (!onlyPending || orders[j].status == Pending)
              then orders[j].(receiptType := t, quantityUnits := units) else orders[j]
    ensures CancelledIds(r) <= CancelledIds(orders)
  {
    var r := MapWhere(orders, (o: ReceiptOrder) => o.id == id && (!onlyPending || o.status == Pending),
             (o: ReceiptOrder) => o.(receiptType := t, quantityUnits := units));
    RewriteCreatesNoCancellation(orders, r);
    r
  }

  /** The ids of the orders that are CANCELLED. */
  function CancelledIds(orders: seq<ReceiptOrder>): set<string> {
    set o | o in orders && o.status == Cancelled :: o.id
  }

  /** No handler puts an order into CANCELLED: a rewrite that keeps ids and never
      turns a status into CANCELLED creates no new cancelled id. */
  lemma RewriteCreatesNoCancellation(orders: seq<ReceiptOrder>, r: seq<ReceiptOrder>)
    requires |r| == |orders|
    requires forall j :: 0 <= j < |orders| ==>
      r[j].id == orders[j].id && (r[j].status == Cancelled ==> orders[j].status == Cancelled)
    ensures CancelledIds(r) <= CancelledIds(orders)
  {
    forall x | x in CancelledIds(r) ensures x in CancelledIds(orders) {
      var o :| o in r && o.status == Cancelled && o.id == x;
      var j :| 0 <= j < |r| && r[j] == o;
      assert orders[j] in orders;
    }
  }

  /** Putting a new order that is not CANCELLED in front creates no cancelled id. */
  lemma PrependCreatesNoCancellation(o: ReceiptOrder, orders: seq<ReceiptOrder>)
    requires o.status != Cancelled
    ensures CancelledIds([o] + orders) == CancelledIds(orders)
  {
    var r := [o] + orders;
    forall x | x in CancelledIds(r) ensures x in CancelledIds(orders) {
      var c :| c in r && c.status == Cancelled && c.id == x;
      assert c in orders;
    }
    forall x | x in CancelledIds(orders) ensures x in CancelledIds(r) {
      var c :| c in orders && c.status == Cancelled && c.id == x;
      assert c in r;
    }
  }

  // ---------------------------------------------------------------- supplier orders

  /** The first supplier order with id `id`, if any. */
  function FindSupplierOrder(orders: seq<SupplierOrder>, id: string): (r: Option<SupplierOrder>)
    ensures r.None? <==> forall j :: 0 <= j < |orders| ==> orders[j].id != id
    ensures r.Some? ==> r.value in orders && r.value.id == id
  {
    Find(orders, (o: SupplierOrder) => o.id == id)
  }

  /** A new procurement request: REQUESTED, no billing data; `isPaid` is `Some(false)`
      in `App.tsx` and absent in `app/page.tsx`. */
  function NewSupplierOrder(id: string, branchId: string, t: ReceiptType, units: int, today: string,
                            isPaid: Option<bool>): (r: SupplierOrder)
    ensures r.id == id && r.branchId == branchId && r.receiptType == t && r.status == Requested
    ensures r.quantityUnits == units && r.requestDate == today && r.isPaid == isPaid
    ensures r.prfNumber.None? && r.billingInvoiceNo.None? && r.amount.None?
    ensures r.deliveryReceiptNo.None? && r.deliveryDate.None?
  {
    SupplierOrder(id, branchId, t, units, Requested, today, None, None, None, None, None, isPaid)
  }

  /** `updateSupplierOrder`: every supplier order with that id takes the new status. */
  function SetSupplierStatus(orders: seq<SupplierOrder>, id: string, s: SupplierOrderStatus): (r: seq<SupplierOrder>)
    ensures |r| == |orders|
    ensures forall j :: 0 <= j < |orders| ==>
      r[j] == if orders[j].id == id then orders[j].(status := s) else orders[j]
  {
    MapWhere(orders, (o: SupplierOrder) => o.id == id, (o: SupplierOrder) => o.(status := s))
  }

  /** The fields a `Partial<SupplierOrder>` may carry; an absent field keeps the old value. */
  datatype SupplierPatch = SupplierPatch(
    status: Option<SupplierOrderStatus>,
    billingInvoiceNo: Option<string>,
    amount: Option<int>,
    deliveryReceiptNo: Option<string>,
    deliveryDate: Option<string>,
    prfNumber: Option<string>,
    isPaid: Option<bool>)

  /** `{ ...o, ...updates }` */
  function PatchSupplierOrder(o: SupplierOrder, p: SupplierPatch): (r: SupplierOrder)
    ensures r.id == o.id && r.branchId == o.branchId && r.receiptType == o.receiptType
    ensures r.quantityUnits == o.quantityUnits && r.requestDate == o.requestDate
    ensures r.status == p.status.GetOr(o.status)
    ensures p.billingInvoiceNo.Some? ==> r.billingInvoiceNo == p.billingInvoiceNo
    ensures p.billingInvoiceNo.None? ==> r.billingInvoiceNo == o.billingInvoiceNo
    ensures p.amount.Some? ==> r.amount == p.amount
    ensures p.amount.None? ==> r.amount == o.amount
    ensures p.deliveryReceiptNo.Some? ==> r.deliveryReceiptNo == p.deliveryReceiptNo
    ensures p.deliveryReceiptNo.None? ==> r.deliveryReceiptNo == o.deliveryReceiptNo
    ensures p.deliveryDate.Some? ==> r.deliveryDate == p.deliveryDate
    ensures p.deliveryDate.None? ==> r.deliveryDate == o.deliveryDate
    ensures p.prfNumber.Some? ==> r.prfNumber == p.prfNumber
    ensures p.prfNumber.None? ==> r.prfNumber == o.prfNumber
    ensures p.isPaid.Some? ==> r.isPaid == p.isPaid
    ensures p.isPaid.None? ==> r.isPaid == o.isPaid
  {
    o.(status := p.status.GetOr(o.status),
       billingInvoiceNo := if p.billingInvoiceNo.Some? then p.billingInvoiceNo else o.billingInvoiceNo,
       amount := if p.amount.Some? then p.amount else o.amount,
       deliveryReceiptNo := if p.deliveryReceiptNo.Some? then p.deliveryReceiptNo else o.deliveryReceiptNo,
       deliveryDate := if p.deliveryDate.Some? then p.deliveryDate else o.deliveryDate,
       prfNumber := if p.prfNumber.Some? then p.prfNumber else o.prfNumber,
       isPaid := if p.isPaid.Some? then p.isPaid else o.isPaid)
  }

  /** `updateSupplierDetails`: every supplier order with that id takes the patch. */
  function PatchSupplierOrders(orders: seq<SupplierOrder>, id: string, p: SupplierPatch): (r: seq<SupplierOrder>)
    ensures |r| == |orders|
    ensures forall j :: 0 <= j < |orders| ==>
      r[j] == if orders[j].id == id then PatchSupplierOrder(orders[j], p) else orders[j]
  {
    MapWhere(orders, (o: SupplierOrder) => o.id == id, (o: SupplierOrder) => PatchSupplierOrder(o, p))
  }

  /** The billing details entered when supplier stock arrives. */
  datatype DeliveryDetails = DeliveryDetails(
    billingInvoiceNo: string,
    amount: int,
    deliveryReceiptNo: string,
    deliveryDate: string)

  /** `{ ...o, ...details, status: DELIVERED }` */
  function DeliverSupplierOrder(o: SupplierOrder, d: DeliveryDetails): (r: SupplierOrder)
    ensures r.status == SupplierOrderStatus.Delivered
    ensures r.billingInvoiceNo == Some(d.billingInvoiceNo) && r.amount == Some(d.amount)
    ensures r.deliveryReceiptNo == Some(d.deliveryReceiptNo) && r.deliveryDate == Some(d.deliveryDate)
    ensures r.(status := o.status, billingInvoiceNo := o.billingInvoiceNo, amount := o.amount,
               deliveryReceiptNo := o.deliveryReceiptNo, deliveryDate := o.deliveryDate) == o
  {
    o.(billingInvoiceNo := Some(d.billingInvoiceNo), amount := Some(d.amount),
       deliveryReceiptNo := Some(d.deliveryReceiptNo), deliveryDate := Some(d.deliveryDate),
       status := SupplierOrderStatus.Delivered)
  }

  /** Every supplier order with that id takes the details and becomes DELIVERED. */
  function DeliverSupplierOrders(orders: seq<SupplierOrder>, id: string, d: DeliveryDetails): (r: seq<SupplierOrder>)
    ensures |r| == |orders|
    ensures forall j :: 0 <= j < |orders| ==>
      r[j] == if orders[j].id == id then DeliverSupplierOrder(orders[j], d) else orders[j]
  {
    MapWhere(orders, (o: SupplierOrder) => o.id == id, (o: SupplierOrder) => DeliverSupplierOrder(o, d))
  }
}
