/** The fixed rules behind the reconciliation: how many receipts a unit holds, what a
    unit is called, when an entry counts as low, and where a shipped series ends. The
    source repeats these constants inline at every site; here each is defined once and
    every handler calls it. */
module Rules {
  import opened Types

  /** 500 receipts per box of Sales Invoices, 50 per booklet of any other type. */
  function ReceiptsPerUnit(t: ReceiptType): (n: int)
    ensures n > 0
    ensures n == 500 <==> t == SalesInvoice
    ensures n == 50 <==> t != SalesInvoice
  {
    if t == SalesInvoice then 500 else 50
  }

  /** Sales Invoices come in boxes, the other types in booklets. */
  function UnitLabelFor(t: ReceiptType): (l: UnitLabel)
    ensures l == Box <==> t == SalesInvoice
  {
    if t == SalesInvoice then Box else Booklet
  }

  /** The low-stock alarm level: 5000 receipts for Sales Invoices, 250 otherwise. */
  function ThresholdFor(t: ReceiptType): (n: int)
    ensures n == 5000 <==> t == SalesInvoice
    ensures n == 250 <==> t != SalesInvoice
  {
    if t == SalesInvoice then 5000 else 250
  }

  /** The last number of a series of `receipts` receipts that begins at `start`. */
  function SeriesEnd(start: int, receipts: int): (e: int)
    ensures e - start + 1 == receipts
  {
    start + receipts - 1
  }

  /** The alarm level is ten boxes of Sales Invoices and five booklets of the others. */
  lemma ThresholdInUnits(t: ReceiptType)
    ensures ThresholdFor(t) == (if t == SalesInvoice then 10 else 5) * ReceiptsPerUnit(t)
  {
  }

  /** The label and the pack size agree: a Box holds 500, a Booklet 50. */
  lemma LabelMatchesPackSize(t: ReceiptType)
    ensures UnitLabelFor(t) == Box <==> ReceiptsPerUnit(t) == 500
    ensures UnitLabelFor(t) == Booklet <==> ReceiptsPerUnit(t) == 50
  {
  }
}
