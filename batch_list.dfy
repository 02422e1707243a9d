/** The batch table component: the status badge of a batch and one table
    row per batch. */
module BatchList {
  import opened Optional
  import opened Stock

  /** The `{ text, color }` record that `getBatchStatus` returns. */
  datatype StatusBadge = StatusBadge(text: string, color: string)

  const ExpiredBadge := StatusBadge("Expired", "text-red-600 bg-red-50")
  const ExpiringSoonBadge := StatusBadge("Expiring Soon", "text-orange-600 bg-orange-50")
  const LowStockBadge := StatusBadge("Low Stock", "text-yellow-600 bg-yellow-50")
  const GoodBadge := StatusBadge("Good", "text-green-600 bg-green-50")

  /** `getBatchStatus`: the first test that holds decides, in the order
      expired, expiring soon, below the low-stock threshold. Every batch gets
      exactly one of the four badges; an expired batch is "Expired" whatever
      its quantity, and an expiring batch outranks a low-stock one. */
  function GetBatchStatus(b: Batch, rules: ExpiryRules): (s: StatusBadge)
    ensures s in {ExpiredBadge, ExpiringSoonBadge, LowStockBadge, GoodBadge}
    ensures s == ExpiredBadge <==> rules.isExpired(b.expiryDate)
    ensures s == ExpiringSoonBadge <==> !rules.isExpired(b.expiryDate) && rules.isExpiringSoon(b.expiryDate)
    ensures s == LowStockBadge <==>
      !rules.isExpired(b.expiryDate) && !rules.isExpiringSoon(b.expiryDate) && b.quantity < Threshold(b)
    ensures s == GoodBadge <==>
      !rules.isExpired(b.expiryDate) && !rules.isExpiringSoon(b.expiryDate) && b.quantity >= Threshold(b)
  {
    if rules.isExpired(b.expiryDate) then ExpiredBadge
    else if rules.isExpiringSoon(b.expiryDate) then ExpiringSoonBadge
    else if b.quantity < Threshold(b) then LowStockBadge
    else GoodBadge
  }

  /** The four badges differ in their text and in their colour. */
  lemma BadgesDistinct()
    ensures |{ExpiredBadge.text, ExpiringSoonBadge.text, LowStockBadge.text, GoodBadge.text}| == 4
    ensures |{ExpiredBadge.color, ExpiringSoonBadge.color, LowStockBadge.color, GoodBadge.color}| == 4
  {
  }

  /** A table row: `batch.medicine?.name || 'N/A'`, the batch number, the
      quantity, the expiry date and the status badge. */
  datatype BatchRow = BatchRow(medicineName: string, batchNumber: string, quantity: int, expiryDate: Date, status: StatusBadge)

  datatype BatchListView = NoBatchesFound | BatchTable(rows: seq<BatchRow>)

  function RowOf(b: Batch, rules: ExpiryRules): BatchRow {
    var name := if b.medicine.Some? && b.medicine.value.name != "" then b.medicine.value.name else "N/A";
    BatchRow(name, b.batchNumber, b.quantity, b.expiryDate, GetBatchStatus(b, rules))
  }

  /** The component: the empty-state message for no batches, otherwise one
      row per batch, in the order given. */
  function Render(batches: seq<Batch>, rules: ExpiryRules): (v: BatchListView)
    ensures v.NoBatchesFound? <==> |batches| == 0
    ensures v.BatchTable? ==> |v.rows| == |batches|
    ensures v.BatchTable? ==> forall i :: 0 <= i < |batches| ==>
      v.rows[i].medicineName ==
        (if batches[i].medicine.Some? && batches[i].medicine.value.name != "" then batches[i].medicine.value.name else "N/A") &&
      v.rows[i].batchNumber == batches[i].batchNumber && v.rows[i].quantity == batches[i].quantity &&
      v.rows[i].status == GetBatchStatus(batches[i], rules)
  {
    if |batches| == 0 then NoBatchesFound
    else BatchTable(seq(|batches|, i requires 0 <= i < |batches| => RowOf(batches[i], rules)))
  }
}
