/** The central warehouse allocation: per branch, a list of items counted in units.
    A branch with no key holds no items (`warehouse[b] || []`). Every write replaces
    the branch's whole list, so writing a branch that had no key gives it one. */
module Warehouse {
  import opened Types
  import opened Rules
  import opened Seqs

  /** `warehouse[b] || []` */
  function BranchItems(w: WarehouseStock, b: string): seq<WarehouseItem> {
    if b in w then w[b] else []
  }

  /** Is `i` an item of receipt type `t`? */
  predicate IsItemFor(i: WarehouseItem, t: ReceiptType) {
    i.receiptType == t
  }

  /** The first item of branch `b` for type `t`, if there is one. */
  function FindItem(w: WarehouseStock, b: string, t: ReceiptType): (r: Option<WarehouseItem>)
    ensures r.None? <==> forall j :: 0 <= j < |BranchItems(w, b)| ==> BranchItems(w, b)[j].receiptType != t
    ensures r.Some? ==> r.value in BranchItems(w, b) && r.value.receiptType == t
  {
    Find(BranchItems(w, b), i => IsItemFor(i, t))
  }

  /** A new item whose pack size and label follow the 500/Box, 50/Booklet rule. */
  function NewItem(b: string, t: ReceiptType, units: int): (r: WarehouseItem)
    ensures r.receiptType == t && r.branchId == b && r.totalUnits == units
    ensures r.receiptsPerUnit == ReceiptsPerUnit(t) && r.unitLabel == UnitLabelFor(t)
  {
    WarehouseItem(t, b, units, ReceiptsPerUnit(t), UnitLabelFor(t))
  }

  /** Every item of branch `b` whose type is `t` is rewritten by `f`; the branch's key
      is written even when it held nothing. */
  function Rewrite(w: WarehouseStock, b: string, t: ReceiptType, f: WarehouseItem -> WarehouseItem): (r: WarehouseStock)
    ensures b in r && r.Keys == w.Keys + {b}
    ensures |r[b]| == |BranchItems(w, b)|
    ensures forall j :: 0 <= j < |r[b]| ==>
      r[b][j] == if BranchItems(w, b)[j].receiptType == t then f(BranchItems(w, b)[j]) else BranchItems(w, b)[j]
    ensures forall c :: c != b ==> BranchItems(r, c) == BranchItems(w, c)
  {
    w[b := MapWhere(BranchItems(w, b), i => IsItemFor(i, t), f)]
  }

  /** The lazy creation of `requestReceipts`/`updateRequest`: a zero-unit item is added
      only when the branch has none of that type; otherwise nothing changes. */
  function EnsureItem(w: WarehouseStock, b: string, t: ReceiptType): (r: WarehouseStock)
    ensures FindItem(w, b, t).Some? ==> r == w
    ensures FindItem(w, b, t).None? ==>
      b in r && r[b] == BranchItems(w, b) + [NewItem(b, t, 0)] && FindItem(r, b, t) == Some(NewItem(b, t, 0))
    ensures FindItem(r, b, t).Some?
    ensures forall c :: c != b ==> BranchItems(r, c) == BranchItems(w, c)
  {
    if FindItem(w, b, t).Some? then w
    else
      var r := w[b := BranchItems(w, b) + [NewItem(b, t, 0)]];
      assert r[b][|BranchItems(w, b)|] == NewItem(b, t, 0);
      r
  }

  /** Shipping as `App.tsx` does it: every item of that type loses `q` units. */
  function TakeUnits(w: WarehouseStock, b: string, t: ReceiptType, q: int): (r: WarehouseStock)
    ensures b in r && |r[b]| == |BranchItems(w, b)|
    ensures forall j :: 0 <= j < |r[b]| ==>
      var i := BranchItems(w, b)[j];
      r[b][j] == if i.receiptType == t then i.(totalUnits := i.totalUnits - q) else i
    ensures forall c :: c != b ==> BranchItems(r, c) == BranchItems(w, c)
  {
    Rewrite(w, b, t, (i: WarehouseItem) => i.(totalUnits := i.totalUnits - q))
  }

  /** Shipping as `app/page.tsx` does it: every item of that type loses `q` units but
      never drops below zero. */
  function TakeUnitsClamped(w: WarehouseStock, b: string, t: ReceiptType, q: int): (r: WarehouseStock)
    ensures b in r && |r[b]| == |BranchItems(w, b)|
    ensures forall j :: 0 <= j < |r[b]| ==>
      var i := BranchItems(w, b)[j];
      r[b][j] == if i.receiptType == t then i.(totalUnits := if i.totalUnits - q < 0 then 0 else i.totalUnits - q) else i
    ensures forall j :: 0 <= j < |r[b]| && r[b][j].receiptType == t ==> r[b][j].totalUnits >= 0
    ensures forall c :: c != b ==> BranchItems(r, c) == BranchItems(w, c)
  {
    Rewrite(w, b, t, (i: WarehouseItem) => i.(totalUnits := if i.totalUnits - q < 0 then 0 else i.totalUnits - q))
  }

  /** Replenishment from the supplier: an existing item of that type gains `units`;
      without one, a new item holding `units` is appended. */
  function Replenish(w: WarehouseStock, b: string, t: ReceiptType, units: int): (r: WarehouseStock)
    ensures FindItem(w, b, t).Some? ==>
      b in r && |r[b]| == |BranchItems(w, b)| &&
      forall j :: 0 <= j < |r[b]| ==>
        var i := BranchItems(w, b)[j];
        r[b][j] == if i.receiptType == t then i.(totalUnits := i.totalUnits + units) else i
    ensures FindItem(w, b, t).None? ==> b in r && r[b] == BranchItems(w, b) + [NewItem(b, t, units)]
    ensures FindItem(r, b, t).Some?
    ensures FindItem(r, b, t).value.totalUnits ==
      if FindItem(w, b, t).Some? then FindItem(w, b, t).value.totalUnits + units else units
    ensures forall c :: c != b ==> BranchItems(r, c) == BranchItems(w, c)
  {
    var items := BranchItems(w, b);
    if FindItem(w, b, t).Some? then
      var r := Rewrite(w, b, t, (i: WarehouseItem) => i.(totalUnits := i.totalUnits + units));
      FirstAfterRewrite(items, t, r[b], units);
      r
    else
      var r := w[b := items + [NewItem(b, t, units)]];
      assert r[b][|items|] == NewItem(b, t, units);
      assert BranchItems(r, b) == r[b];
      r
  }

  /** After adding `units` to every item of type `t`, the first item of type `t` is the
      old first one plus `units`. */
  lemma FirstAfterRewrite(items: seq<WarehouseItem>, t: ReceiptType, after: seq<WarehouseItem>, units: int)
    requires |after| == |items|
    requires forall j :: 0 <= j < |items| ==>
      after[j] == if items[j].receiptType == t then items[j].(totalUnits := items[j].totalUnits + units) else items[j]
    requires Find(items, i => IsItemFor(i, t)).Some?
    ensures Find(after, i => IsItemFor(i, t)).Some?
    ensures Find(after, i => IsItemFor(i, t)).value ==
      Find(items, i => IsItemFor(i, t)).value.(totalUnits := Find(items, i => IsItemFor(i, t)).value.totalUnits + units)
  {
    var p := (i: WarehouseItem) => IsItemFor(i, t);
    var k := FirstIndex(items, p);
    assert forall j :: 0 <= j < |items| ==> (p(after[j]) <==> p(items[j]));
    assert FirstIndex(after, p) == k by {
      FirstIndexAgrees(items, after, p);
    }
  }

  /** Two sequences that match at the same positions have the same first match. */
  lemma {:induction false} FirstIndexAgrees<T>(s: seq<T>, u: seq<T>, p: T -> bool)
    requires |s| == |u|
    requires forall j :: 0 <= j < |s| ==> (p(s[j]) <==> p(u[j]))
    ensures FirstIndex(s, p) == FirstIndex(u, p)
  {
    if s != [] {
      FirstIndexAgrees(s[1..], u[1..], p);
    }
  }

  /** What the reconciliation rules keep true of each branch's list: every item is
      filed under its own branch, holds no negative stock, follows the pack-size and
      label rule, and no type occurs twice. */
  predicate ItemsWellFormed(b: string, items: seq<WarehouseItem>) {
    (forall j :: 0 <= j < |items| ==>
       items[j].branchId == b && items[j].totalUnits >= 0 &&
       items[j].receiptsPerUnit == ReceiptsPerUnit(items[j].receiptType) &&
       items[j].unitLabel == UnitLabelFor(items[j].receiptType)) &&
    (forall j, k :: 0 <= j < k < |items| ==> items[j].receiptType != items[k].receiptType)
  }

  predicate WellFormed(w: WarehouseStock) {
    forall b :: b in w ==> ItemsWellFormed(b, w[b])
  }

  /** Lazy creation keeps the warehouse well formed. */
  lemma EnsureItemWellFormed(w: WarehouseStock, b: string, t: ReceiptType)
    ensures WellFormed(w) ==> WellFormed(EnsureItem(w, b, t))
  {
    var r := EnsureItem(w, b, t);
    if WellFormed(w) && FindItem(w, b, t).None? {
      forall c | c in r ensures ItemsWellFormed(c, r[c]) {
        if c == b {
          AppendNewItemWellFormed(b, BranchItems(w, b), t, 0);
        } else {
          assert BranchItems(r, c) == BranchItems(w, c);
        }
      }
    }
  }

  /** Replenishing by a non-negative number of units keeps the warehouse well formed. */
  lemma ReplenishWellFormed(w: WarehouseStock, b: string, t: ReceiptType, units: int)
    requires units >= 0
    ensures WellFormed(w) ==> WellFormed(Replenish(w, b, t, units))
  {
    var r := Replenish(w, b, t, units);
    if WellFormed(w) {
      forall c | c in r ensures ItemsWellFormed(c, r[c]) {
        if c == b {
          ReplenishedItemsWellFormed(w, b, t, units);
        } else {
          assert BranchItems(r, c) == BranchItems(w, c);
        }
      }
    }
  }

  /** The replenished branch's own list stays well formed. */
  lemma ReplenishedItemsWellFormed(w: WarehouseStock, b: string, t: ReceiptType, units: int)
    requires units >= 0 && WellFormed(w)
    ensures ItemsWellFormed(b, Replenish(w, b, t, units)[b])
  {
    var items := BranchItems(w, b);
    var after := Replenish(w, b, t, units)[b];
    assert ItemsWellFormed(b, items);
    if FindItem(w, b, t).Some? {
      SameTypesWellFormed(b, items, after);
    } else {
      AppendNewItemWellFormed(b, items, t, units);
    }
  }

  /** Changing the stock of items, upwards, keeps a well-formed list well formed. */
  lemma SameTypesWellFormed(b: string, items: seq<WarehouseItem>, after: seq<WarehouseItem>)
    requires ItemsWellFormed(b, items) && |after| == |items|
    requires forall j :: 0 <= j < |items| ==>
      after[j] == items[j] || after[j] == items[j].(totalUnits := after[j].totalUnits)
    requires forall j :: 0 <= j < |items| ==> after[j].totalUnits >= 0
    ensures ItemsWellFormed(b, after)
  {
    assert forall j :: 0 <= j < |items| ==> after[j].receiptType == items[j].receiptType;
  }

  /** Appending a new item of a type the list lacks keeps it well formed. */
  lemma AppendNewItemWellFormed(b: string, items: seq<WarehouseItem>, t: ReceiptType, units: int)
    requires ItemsWellFormed(b, items) && units >= 0
    requires forall j :: 0 <= j < |items| ==> items[j].receiptType != t
    ensures ItemsWellFormed(b, items + [NewItem(b, t, units)])
  {
    var after := items + [NewItem(b, t, units)];
    assert forall j :: 0 <= j < |items| ==> after[j] == items[j];
    assert after[|items|] == NewItem(b, t, units);
  }

  /** The clamped decrement keeps the warehouse well formed whatever the quantity. */
  lemma TakeUnitsClampedWellFormed(w: WarehouseStock, b: string, t: ReceiptType, q: int)
    ensures WellFormed(w) ==> WellFormed(TakeUnitsClamped(w, b, t, q))
  {
    var r := TakeUnitsClamped(w, b, t, q);
    if WellFormed(w) {
      forall c | c in r ensures ItemsWellFormed(c, r[c]) {
        if c != b {
          assert BranchItems(r, c) == BranchItems(w, c);
        }
      }
    }
  }

  /** The unclamped decrement keeps the warehouse well formed once the stock guard
      of `App.tsx` holds: the item exists and holds at least `q` units. */
  lemma TakeUnitsWellFormed(w: WarehouseStock, b: string, t: ReceiptType, q: int)
    requires FindItem(w, b, t).Some? && FindItem(w, b, t).value.totalUnits >= q
    ensures WellFormed(w) ==> WellFormed(TakeUnits(w, b, t, q))
  {
    if WellFormed(w) {
      GuardedTakeWellFormed(w, b, t, q);
    }
  }

  lemma GuardedTakeWellFormed(w: WarehouseStock, b: string, t: ReceiptType, q: int)
    requires WellFormed(w)
    requires FindItem(w, b, t).Some? && FindItem(w, b, t).value.totalUnits >= q
    ensures WellFormed(TakeUnits(w, b, t, q))
  {
    var r := TakeUnits(w, b, t, q);
    forall c | c in r ensures ItemsWellFormed(c, r[c]) {
      if c == b {
        TakenItemsWellFormed(w, b, t, q);
      } else {
        assert BranchItems(r, c) == BranchItems(w, c);
      }
    }
  }

  /** The branch shipped from stays well formed once the guard has passed. */
  lemma TakenItemsWellFormed(w: WarehouseStock, b: string, t: ReceiptType, q: int)
    requires WellFormed(w)
    requires FindItem(w, b, t).Some? && FindItem(w, b, t).value.totalUnits >= q
    ensures ItemsWellFormed(b, TakeUnits(w, b, t, q)[b])
  {
    var items := BranchItems(w, b);
    var found := FindItem(w, b, t).value;
    var after := TakeUnits(w, b, t, q)[b];
    assert b in w;
    OnlyItemOfType(b, items, t, found);
    forall j | 0 <= j < |items| ensures after[j].totalUnits >= 0 {
      if items[j].receiptType == t {
        assert items[j] == found;
      }
    }
    SameTypesWellFormed(b, items, after);
  }

  /** In a well-formed list an item of type `t` is the only one of that type. */
  lemma OnlyItemOfType(b: string, items: seq<WarehouseItem>, t: ReceiptType, found: WarehouseItem)
    requires ItemsWellFormed(b, items)
    requires found in items && found.receiptType == t
    ensures forall j :: 0 <= j < |items| && items[j].receiptType == t ==> items[j] == found
  {
    forall j | 0 <= j < |items| && items[j].receiptType == t ensures items[j] == found {
      var k :| 0 <= k < |items| && items[k] == found;
      assert items[j].receiptType == items[k].receiptType;
    }
  }
}
