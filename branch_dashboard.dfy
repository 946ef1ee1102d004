/** The branch portal: the lookups it shows, the checks it runs before it calls back
    into the store, and the form fields it clears afterwards. The portal sees only its
    branch's inventory entries and its branch's warehouse items (`warehouse[user.id] ||
    []`); a callback into the store is returned as a value saying which handler is
    called with which arguments. */
module BranchDashboard {
  import opened Types
  import opened Rules
  import opened Seqs
  import opened Ledger
  import opened Warehouse
  import opened Text

  // ---------------------------------------------------------------- lookups

  /** The branch's configured item for a type, if any. */
  function ConfigFor(config: seq<WarehouseItem>, t: ReceiptType): (r: Option<WarehouseItem>)
    ensures r.None? <==> forall j :: 0 <= j < |config| ==> config[j].receiptType != t
    ensures r.Some? ==> r.value in config && r.value.receiptType == t
  {
    Find(config, i => IsItemFor(i, t))
  }

  /** `getUnitLabel`: the configured label of that type, else Box for Sales Invoice and
      Booklet for the others. */
  function GetUnitLabel(config: seq<WarehouseItem>, t: ReceiptType): (l: UnitLabel)
    ensures ConfigFor(config, t).Some? ==> l == ConfigFor(config, t).value.unitLabel
    ensures ConfigFor(config, t).None? ==> l == UnitLabelFor(t)
  {
    match ConfigFor(config, t)
    case Some(item) => item.unitLabel
    case None => UnitLabelFor(t)
  }

  /** `getReceiptsPerUnit`: the configured pack size of that type (even when it is 0),
      else 500 for Sales Invoice and 50 for the others. */
  function GetReceiptsPerUnit(config: seq<WarehouseItem>, t: ReceiptType): (n: int)
    ensures ConfigFor(config, t).Some? ==> n == ConfigFor(config, t).value.receiptsPerUnit
    ensures ConfigFor(config, t).None? ==> n == ReceiptsPerUnit(t)
  {
    match ConfigFor(config, t)
    case Some(item) => item.receiptsPerUnit
    case None => ReceiptsPerUnit(t)
  }

  /** On a well-formed configuration the portal shows the fixed rule, configured or
      not, so its labels and pack sizes agree with what the store credits. */
  lemma ConfiguredRuleIsFixedRule(b: string, config: seq<WarehouseItem>, t: ReceiptType)
    requires ItemsWellFormed(b, config)
    ensures GetUnitLabel(config, t) == UnitLabelFor(t)
    ensures GetReceiptsPerUnit(config, t) == ReceiptsPerUnit(t)
  {
  }

  /** "Total Receipts to be added" in the request form. */
  function TotalReceiptsPreview(config: seq<WarehouseItem>, t: ReceiptType, units: int): (n: int)
    ensures ConfigFor(config, t).None? ==> n == units * ReceiptsPerUnit(t)
    ensures ConfigFor(config, t).Some? ==> n == units * ConfigFor(config, t).value.receiptsPerUnit
  {
    units * GetReceiptsPerUnit(config, t)
  }

  /** The inventory entries the portal of branch `b` is given. */
  function BranchView(inv: seq<ReceiptInventory>, b: string): (r: seq<ReceiptInventory>)
    ensures forall e :: e in r <==> e in inv && e.branchId == b
  {
    Filter(inv, (e: ReceiptInventory) => e.branchId == b)
  }

  /** `activeInv`: the first entry of the given view for the selected type. */
  function ActiveEntry(view: seq<ReceiptInventory>, t: ReceiptType): (r: Option<ReceiptInventory>)
    ensures r.None? <==> forall j :: 0 <= j < |view| ==> view[j].receiptType != t
    ensures r.Some? ==> r.value in view && r.value.receiptType == t
  {
    Find(view, (e: ReceiptInventory) => e.receiptType == t)
  }

  /** The entry the portal checks a consumption against is one of the ledger's entries
      for that branch and type, and there is one exactly when the ledger has one. */
  lemma ActiveEntryIsLedgerEntry(inv: seq<ReceiptInventory>, b: string, t: ReceiptType)
    ensures ActiveEntry(BranchView(inv, b), t).Some? ==>
      ActiveEntry(BranchView(inv, b), t).value in inv && IsEntryFor(ActiveEntry(BranchView(inv, b), t).value, b, t)
    ensures ActiveEntry(BranchView(inv, b), t).None? <==> FindEntry(inv, b, t).None?
  {
    var view := BranchView(inv, b);
    if FindEntry(inv, b, t).Some? {
      var e := FindEntry(inv, b, t).value;
      assert e in view;
      var j :| 0 <= j < |view| && view[j] == e;
      assert view[j].receiptType == t;
    }
    if ActiveEntry(view, t).Some? {
      var e := ActiveEntry(view, t).value;
      var j :| 0 <= j < |inv| && inv[j] == e;
      assert IsEntryFor(inv[j], b, t);
    }
  }

  // ---------------------------------------------------------------- status gates

  /** "Edit" is offered for PENDING orders only. */
  predicate EditOffered(o: ReceiptOrder): (r: bool)
    ensures r ==> !ConfirmArrivalOffered(o)
  {
    o.status == Pending
  }

  /** "Confirm Arrival" is offered for DELIVERED orders only. */
  predicate ConfirmArrivalOffered(o: ReceiptOrder): (r: bool)
    ensures r ==> o.status != Received && o.status != Cancelled
  {
    o.status == OrderStatus.Delivered
  }

  // ---------------------------------------------------------------- consumption log

  /** What `handleSeriesUpdate` does: refuse because a field is empty, refuse because
      the number lies outside the entry's open range, or call `onUpdateSeries`. */
  datatype SeriesDecision =
    | MissingFields
    | InvalidRange
    | UpdateSeries(branchId: string, t: ReceiptType, newLastUsed: int, updateDate: string, loggedBy: string)

  /** The checks of `handleSeriesUpdate`. `newLastUsed` is the text typed in, `parsed`
      its `parseInt` value (None when that is NaN, which fails every comparison). */
  function SeriesUpdateDecision(userId: string, view: seq<ReceiptInventory>, selected: Option<ReceiptType>,
                                newLastUsed: string, parsed: Option<int>, updateDate: string,
                                loggedBy: string): (d: SeriesDecision)
    ensures d == MissingFields <==>
      selected.None? || newLastUsed == [] || updateDate == [] || Trim(loggedBy) == []
    ensures d.UpdateSeries? <==>
      selected.Some? && newLastUsed != [] && updateDate != [] && Trim(loggedBy) != [] &&
      parsed.Some? && ActiveEntry(view, selected.value).Some? &&
      ActiveEntry(view, selected.value).value.lastUsedNumber < parsed.value <= ActiveEntry(view, selected.value).value.currentSeriesEnd
    ensures d.UpdateSeries? ==>
      d == UpdateSeries(userId, selected.value, parsed.value, updateDate, Trim(loggedBy))
  {
    if selected.None? || newLastUsed == [] || updateDate == [] || Trim(loggedBy) == [] then MissingFields
    else
      var active := ActiveEntry(view, selected.value);
      if parsed.Some? && active.Some? && active.value.lastUsedNumber < parsed.value <= active.value.currentSeriesEnd
      then UpdateSeries(userId, selected.value, parsed.value, updateDate, Trim(loggedBy))
      else InvalidRange
  }

  /** No two ledger entries share a branch and a type. */
  predicate UniqueEntries(inv: seq<ReceiptInventory>) {
    forall j, k :: 0 <= j < k < |inv| ==>
      !(inv[j].branchId == inv[k].branchId && inv[j].receiptType == inv[k].receiptType)
  }

  /** A consumption the portal lets through, applied to a ledger with one balanced
      entry per branch and type, keeps that branch's entry balanced and takes exactly
      the receipts between the old and the new last number off its stock. */
  lemma AcceptedUpdateKeepsBalance(inv: seq<ReceiptInventory>, userId: string, selected: Option<ReceiptType>,
                                   newLastUsed: string, parsed: Option<int>, updateDate: string, loggedBy: string)
    requires UniqueEntries(inv)
    requires forall j :: 0 <= j < |inv| ==> Balanced(inv[j])
    requires SeriesUpdateDecision(userId, BranchView(inv, userId), selected, newLastUsed, parsed, updateDate, loggedBy).UpdateSeries?
    ensures var d := SeriesUpdateDecision(userId, BranchView(inv, userId), selected, newLastUsed, parsed, updateDate, loggedBy);
      var after := Ledger.UpdateLastUsed(inv, d.branchId, d.t, d.newLastUsed, d.updateDate, Some(d.loggedBy));
      forall j :: 0 <= j < |inv| ==>
        Balanced(after[j]) &&
        (IsEntryFor(inv[j], userId, d.t) ==> after[j].remainingStock == inv[j].remainingStock - (d.newLastUsed - inv[j].lastUsedNumber))
  {
    var d := SeriesUpdateDecision(userId, BranchView(inv, userId), selected, newLastUsed, parsed, updateDate, loggedBy);
    var active := ActiveEntry(BranchView(inv, userId), d.t).value;
    ActiveEntryIsLedgerEntry(inv, userId, d.t);
    var k :| 0 <= k < |inv| && inv[k] == active;
    assert forall j :: 0 <= j < |inv| && IsEntryFor(inv[j], userId, d.t) ==> j == k;
    ValidConsumptionKeepsBalance(active, d.newLastUsed, d.updateDate, Some(d.loggedBy));
  }

  /** The lower bound the refusal message of `handleSeriesUpdate` shows, as written:
      `+` binds tighter than `||`, so `lastUsedNumber || 0 + 1` is the last number used
      itself (1 when there is no entry or it is 0). */
  function ShownLowerBound(active: Option<ReceiptInventory>): (n: int)
    ensures active.Some? && active.value.lastUsedNumber != 0 ==> n == active.value.lastUsedNumber
    ensures active.None? || active.value.lastUsedNumber == 0 ==> n == 1
  {
    OrNumber(if active.Some? then Some(active.value.lastUsedNumber) else None, 0 + 1)
  }

  /** The number the message shows is refused by the very check it explains. */
  lemma ShownLowerBoundIsRefused(userId: string, view: seq<ReceiptInventory>, t: ReceiptType,
                                 newLastUsed: string, updateDate: string, loggedBy: string)
    requires ActiveEntry(view, t).Some? && ActiveEntry(view, t).value.lastUsedNumber != 0
    requires newLastUsed != [] && updateDate != [] && Trim(loggedBy) != []
    ensures SeriesUpdateDecision(userId, view, Some(t), newLastUsed, Some(ShownLowerBound(ActiveEntry(view, t))),
                                 updateDate, loggedBy) == InvalidRange
  {
  }

  /** The bound the message evidently means: one past the last number used. */
  function LeastAcceptedNumber(active: Option<ReceiptInventory>): (n: int)
    ensures active.Some? ==> n == active.value.lastUsedNumber + 1
    ensures active.None? ==> n == 1
  {
    OrNumber(if active.Some? then Some(active.value.lastUsedNumber) else None, 0) + 1
  }

  /** With the fields filled in and an entry for the type, a number is accepted exactly
      when it lies between the corrected lower bound and the series end, so the
      corrected message names the least and the greatest accepted number. */
  lemma LeastAcceptedNumberIsLeast(userId: string, view: seq<ReceiptInventory>, t: ReceiptType,
                                   newLastUsed: string, n: int, updateDate: string, loggedBy: string)
    requires ActiveEntry(view, t).Some?
    requires newLastUsed != [] && updateDate != [] && Trim(loggedBy) != []
    ensures SeriesUpdateDecision(userId, view, Some(t), newLastUsed, Some(n), updateDate, loggedBy).UpdateSeries? <==>
      LeastAcceptedNumber(ActiveEntry(view, t)) <= n <= ActiveEntry(view, t).value.currentSeriesEnd
  {
  }

  // ---------------------------------------------------------------- request form

  /** What `handleRequestSubmit` calls back: an edit of the order being edited, or a
      new request for the user's branch. */
  datatype RequestCall =
    | UpdateRequestCall(orderId: string, t: ReceiptType, units: int)
    | RequestReceiptsCall(branchId: string, company: string, branchName: string, t: ReceiptType, units: int)

  /** Is an order id held by the form truthy in JavaScript? */
  predicate Truthy(id: Option<string>) {
    id.Some? && id.value != []
  }

  /** The callback of `handleRequestSubmit`: exactly one of the two. */
  function RequestSubmitCall(user: User, editOrderId: Option<string>, t: ReceiptType, units: int): (c: RequestCall)
    ensures c.UpdateRequestCall? <==> Truthy(editOrderId)
    ensures c.UpdateRequestCall? ==> c == UpdateRequestCall(editOrderId.value, t, units)
    ensures c.RequestReceiptsCall? ==>
      c == RequestReceiptsCall(user.id, OrText(user.company, ""), OrText(user.branchName, ""), t, units)
  {
    if Truthy(editOrderId) then UpdateRequestCall(editOrderId.value, t, units)
    else RequestReceiptsCall(user.id, OrText(user.company, ""), OrText(user.branchName, ""), t, units)
  }

  // ---------------------------------------------------------------- arrival form

  /** The callback of `handleArrivalConfirm`: `onConfirmReceipt` with the trimmed
      receiver name, when an order is selected and a name is given. */
  function ArrivalCall(confirmArrivalId: Option<string>, receivedBy: string): (c: Option<(string, string)>)
    ensures c.Some? <==> Truthy(confirmArrivalId) && Trim(receivedBy) != []
    ensures c.Some? ==> c.value == (confirmArrivalId.value, Trim(receivedBy))
    ensures c.Some? ==> Trim(c.value.1) == c.value.1
  {
    TrimIdempotent(receivedBy);
    if Truthy(confirmArrivalId) && Trim(receivedBy) != [] then Some((confirmArrivalId.value, Trim(receivedBy)))
    else None
  }

  // ---------------------------------------------------------------- form state

  /** The form fields of the portal that its handlers read and clear. */
  class BranchForm {
    var showRequestModal: bool
    var editOrderId: Option<string>
    var requestType: ReceiptType
    var unitsRequested: int
    var confirmArrivalId: Option<string>
    var receivedByInput: string
    var selectedType: Option<ReceiptType>
    var newLastUsed: string
    var loggedBy: string
    var updateDate: string

    /** The fields as the portal opens: no modal, a request for 5 Sales Invoice units,
        nothing selected, and today's date in the log form. */
    constructor (today: string)
      ensures !showRequestModal && editOrderId.None? && requestType == SalesInvoice && unitsRequested == 5
      ensures confirmArrivalId.None? && receivedByInput == []
      ensures selectedType.None? && newLastUsed == [] && loggedBy == [] && updateDate == today
    {
      showRequestModal := false;
      editOrderId := None;
      requestType := SalesInvoice;
      unitsRequested := 5;
      confirmArrivalId := None;
      receivedByInput := [];
      selectedType := None;
      newLastUsed := [];
      loggedBy := [];
      updateDate := today;
    }

    /** `handleSeriesUpdate`: decide; after a call back, clear the number and the name. */
    method SubmitSeriesUpdate(userId: string, view: seq<ReceiptInventory>, parsed: Option<int>)
      returns (d: SeriesDecision)
      modifies this
      ensures d == SeriesUpdateDecision(userId, view, old(selectedType), old(newLastUsed), parsed,
                                        old(updateDate), old(loggedBy))
      ensures d.UpdateSeries? ==> newLastUsed == [] && loggedBy == []
      ensures !d.UpdateSeries? ==> newLastUsed == old(newLastUsed) && loggedBy == old(loggedBy)
      ensures selectedType == old(selectedType) && updateDate == old(updateDate)
      ensures showRequestModal == old(showRequestModal) && editOrderId == old(editOrderId)
      ensures requestType == old(requestType) && unitsRequested == old(unitsRequested)
      ensures confirmArrivalId == old(confirmArrivalId) && receivedByInput == old(receivedByInput)
    {
      d := SeriesUpdateDecision(userId, view, selectedType, newLastUsed, parsed, updateDate, loggedBy);
      if d.UpdateSeries? {
        newLastUsed := [];
        loggedBy := [];
      }
    }

    /** `openEditModal`: load the order into the request form. */
    method OpenEditModal(o: ReceiptOrder)
      modifies this
      ensures editOrderId == Some(o.id) && requestType == o.receiptType && unitsRequested == o.quantityUnits
      ensures showRequestModal
      ensures confirmArrivalId == old(confirmArrivalId) && receivedByInput == old(receivedByInput)
      ensures selectedType == old(selectedType) && newLastUsed == old(newLastUsed)
      ensures loggedBy == old(loggedBy) && updateDate == old(updateDate)
    {
      editOrderId := Some(o.id);
      requestType := o.receiptType;
      unitsRequested := o.quantityUnits;
      showRequestModal := true;
    }

    /** `handleRequestSubmit` followed by `closeModal`. */
    method SubmitRequest(user: User) returns (c: RequestCall)
      modifies this
      ensures c == RequestSubmitCall(user, old(editOrderId), old(requestType), old(unitsRequested))
      ensures !showRequestModal && editOrderId.None? && requestType == SalesInvoice && unitsRequested == 5
      ensures confirmArrivalId == old(confirmArrivalId) && receivedByInput == old(receivedByInput)
      ensures selectedType == old(selectedType) && newLastUsed == old(newLastUsed)
      ensures loggedBy == old(loggedBy) && updateDate == old(updateDate)
    {
      c := RequestSubmitCall(user, editOrderId, requestType, unitsRequested);
      showRequestModal := false;
      editOrderId := None;
      requestType := SalesInvoice;
      unitsRequested := 5;
    }

    /** `handleArrivalConfirm`: after a call back, clear the selection and the name;
        otherwise nothing changes. */
    method ConfirmArrival() returns (c: Option<(string, string)>)
      modifies this
      ensures c == ArrivalCall(old(confirmArrivalId), old(receivedByInput))
      ensures c.Some? ==> confirmArrivalId.None? && receivedByInput == []
      ensures c.None? ==> confirmArrivalId == old(confirmArrivalId) && receivedByInput == old(receivedByInput)
      ensures showRequestModal == old(showRequestModal) && editOrderId == old(editOrderId)
      ensures requestType == old(requestType) && unitsRequested == old(unitsRequested)
      ensures selectedType == old(selectedType) && newLastUsed == old(newLastUsed)
      ensures loggedBy == old(loggedBy) && updateDate == old(updateDate)
    {
      c := ArrivalCall(confirmArrivalId, receivedByInput);
      if c.Some? {
        confirmArrivalId := None;
        receivedByInput := [];
      }
    }
  }
}
