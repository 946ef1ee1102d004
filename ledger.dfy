/** The inventory ledger: one entry per branch and receipt type holding the current
    series, the last number used and the receipts that remain. Lookups take the first
    entry for a (branch, type) pair, updates rewrite every such entry, exactly as the
    source's `find` and `map` do. */
module Ledger {
  import opened Types
  import opened Seqs

  /** Does `e` belong to branch `b` and receipt type `t`? */
  predicate IsEntryFor(e: ReceiptInventory, b: string, t: ReceiptType) {
    e.branchId == b && e.receiptType == t
  }

  /** The first entry for (b, t), if there is one. */
  function FindEntry(inv: seq<ReceiptInventory>, b: string, t: ReceiptType): (r: Option<ReceiptInventory>)
    ensures r.None? <==> forall j :: 0 <= j < |inv| ==> !IsEntryFor(inv[j], b, t)
    ensures r.Some? ==> r.value in inv && IsEntryFor(r.value, b, t)
  {
    Find(inv, e => IsEntryFor(e, b, t))
  }

  /** An entry is flagged low when its remaining receipts are at or below its threshold. */
  predicate IsLow(e: ReceiptInventory): (low: bool)
    ensures Balanced(e) ==> (low <==> e.currentSeriesEnd - e.lastUsedNumber <= e.threshold)
  {
    e.remainingStock <= e.threshold
  }

  /** An entry whose counters agree with its series: the last number used lies in
      [start - 1, end] and the remaining stock is exactly the unused part of the series. */
  predicate Balanced(e: ReceiptInventory) {
    e.currentSeriesStart - 1 <= e.lastUsedNumber <= e.currentSeriesEnd &&
    e.remainingStock == e.currentSeriesEnd - e.lastUsedNumber
  }

  /** Logging that the branch has used its receipts up to `n`: the receipts consumed
      since the last log are taken off the remaining stock, which stops at zero. */
  function Consume(e: ReceiptInventory, n: int, date: string, loggedBy: Option<string>): (r: ReceiptInventory)
    ensures r.lastUsedNumber == n && r.lastUpdateDate == Some(date) && r.lastUpdatedBy == loggedBy
    ensures r.remainingStock >= 0
    ensures e.remainingStock >= n - e.lastUsedNumber ==>
      r.remainingStock == e.remainingStock - (n - e.lastUsedNumber)
    ensures e.remainingStock < n - e.lastUsedNumber ==> r.remainingStock == 0
    ensures r.(lastUsedNumber := e.lastUsedNumber, remainingStock := e.remainingStock,
               lastUpdateDate := e.lastUpdateDate, lastUpdatedBy := e.lastUpdatedBy) == e
  {
    var consumed := n - e.lastUsedNumber;
    var left := e.remainingStock - consumed;
    e.(lastUsedNumber := n,
       remainingStock := if left < 0 then 0 else left,
       lastUpdateDate := Some(date),
       lastUpdatedBy := loggedBy)
  }

  /** `updateLastUsed`: every entry for (b, t) records the consumption, the others stay. */
  function UpdateLastUsed(inv: seq<ReceiptInventory>, b: string, t: ReceiptType, n: int,
                          date: string, loggedBy: Option<string>): (r: seq<ReceiptInventory>)
    ensures |r| == |inv|
    ensures forall j :: 0 <= j < |inv| ==>
      r[j] == if IsEntryFor(inv[j], b, t) then Consume(inv[j], n, date, loggedBy) else inv[j]
    ensures forall j :: 0 <= j < |inv| && IsEntryFor(inv[j], b, t) ==>
      r[j].lastUsedNumber == n && r[j].remainingStock >= 0
  {
    MapWhere(inv, e => IsEntryFor(e, b, t), e => Consume(e, n, date, loggedBy))
  }

  /** The upsert performed when a delivery is confirmed: if some entry for (b, t)
      exists, every such entry is rewritten by `raise`; otherwise `created` is added at
      the end. */
  function Upsert(inv: seq<ReceiptInventory>, b: string, t: ReceiptType,
                  raise: ReceiptInventory -> ReceiptInventory, created: ReceiptInventory): (r: seq<ReceiptInventory>)
    ensures FindEntry(inv, b, t).Some? ==>
      |r| == |inv| &&
      forall j :: 0 <= j < |inv| ==> r[j] == if IsEntryFor(inv[j], b, t) then raise(inv[j]) else inv[j]
    ensures FindEntry(inv, b, t).None? ==> |r| == |inv| + 1 && r[..|inv|] == inv && r[|inv|] == created
  {
    if FindEntry(inv, b, t).Some? then MapWhere(inv, e => IsEntryFor(e, b, t), raise)
    else inv + [created]
  }

  /** A logged consumption inside the series keeps the entry balanced, and uses up
      exactly the receipts between the old and the new last number. */
  lemma ValidConsumptionKeepsBalance(e: ReceiptInventory, n: int, date: string, loggedBy: Option<string>)
    requires Balanced(e)
    requires e.lastUsedNumber < n <= e.currentSeriesEnd
    ensures Balanced(Consume(e, n, date, loggedBy))
    ensures Consume(e, n, date, loggedBy).remainingStock == e.remainingStock - (n - e.lastUsedNumber) < e.remainingStock
  {
  }

  /** The entry after logging each number of `ns` in turn. */
  function ConsumeAll(e: ReceiptInventory, ns: seq<int>, date: string, loggedBy: Option<string>): ReceiptInventory
  {
    if ns == [] then e
    else Consume(ConsumeAll(e, ns[..|ns| - 1], date, loggedBy), ns[|ns| - 1], date, loggedBy)
  }

  /** Along any run of strictly increasing consumption logs the remaining stock never
      grows and never drops below zero. */
  lemma {:induction false} ConsumptionNeverIncreasesStock(e: ReceiptInventory, ns: seq<int>, date: string,
                                                          loggedBy: Option<string>, i: nat, k: nat)
    requires e.remainingStock >= 0
    requires |ns| > 0 ==> e.lastUsedNumber < ns[0]
    requires forall j :: 0 < j < |ns| ==> ns[j - 1] < ns[j]
    requires i <= k <= |ns|
    ensures ConsumeAll(e, ns[..k], date, loggedBy).lastUsedNumber == if k == 0 then e.lastUsedNumber else ns[k - 1]
    ensures 0 <= ConsumeAll(e, ns[..k], date, loggedBy).remainingStock
              <= ConsumeAll(e, ns[..i], date, loggedBy).remainingStock
  {
    if k == i {
      if k > 0 {
        ConsumptionNeverIncreasesStock(e, ns, date, loggedBy, k - 1, k - 1);
        assert ns[..k][..k - 1] == ns[..k - 1];
        var before := ConsumeAll(e, ns[..k - 1], date, loggedBy);
        assert ConsumeAll(e, ns[..k], date, loggedBy) == Consume(before, ns[k - 1], date, loggedBy);
      } else {
        assert ns[..0] == [];
      }
    } else {
      ConsumptionNeverIncreasesStock(e, ns, date, loggedBy, i, k - 1);
      assert ns[..k][..k - 1] == ns[..k - 1];
      var before := ConsumeAll(e, ns[..k - 1], date, loggedBy);
      assert ConsumeAll(e, ns[..k], date, loggedBy) == Consume(before, ns[k - 1], date, loggedBy);
      assert before.lastUsedNumber < ns[k - 1];
    }
  }
}
