/** The inventory page: its own copy of the batch status badge, the batch
    search box, the role gating of the Stock In / Stock Out buttons and the
    batch table. */
module Inventory {
  import opened Optional
  import opened Lists
  import opened Text
  import opened Accounts
  import opened Stock
  import BatchList

  /** The page's own `getBatchStatus`, written out again in the page. */
  function GetBatchStatus(b: Batch, rules: ExpiryRules): (s: BatchList.StatusBadge)
    ensures s.text == "Expired" <==> rules.isExpired(b.expiryDate)
    ensures s.text == "Expiring Soon" <==> !rules.isExpired(b.expiryDate) && rules.isExpiringSoon(b.expiryDate)
    ensures s.text == "Low Stock" <==>
      !rules.isExpired(b.expiryDate) && !rules.isExpiringSoon(b.expiryDate) && b.quantity < Threshold(b)
    ensures s.text == "Good" <==>
      !rules.isExpired(b.expiryDate) && !rules.isExpiringSoon(b.expiryDate) && b.quantity >= Threshold(b)
  {
    if rules.isExpired(b.expiryDate) then BatchList.StatusBadge("Expired", "text-red-600 bg-red-50")
    else if rules.isExpiringSoon(b.expiryDate) then BatchList.StatusBadge("Expiring Soon", "text-orange-600 bg-orange-50")
    else if b.quantity < Threshold(b) then BatchList.StatusBadge("Low Stock", "text-yellow-600 bg-yellow-50")
    else BatchList.StatusBadge("Good", "text-green-600 bg-green-50")
  }

  /** The page's copy labels every batch exactly as the batch table does. */
  lemma StatusAgreesWithBatchList(b: Batch, rules: ExpiryRules)
    ensures GetBatchStatus(b, rules) == BatchList.GetBatchStatus(b, rules)
  {
  }

  /** `batch.medicine?.name.toLowerCase().includes(term) ||
      batch.batchNumber.toLowerCase().includes(term)`, both sides lower-cased;
      a batch without a medicine can only match on its batch number. */
  predicate BatchMatches(b: Batch, term: string) {
    (b.medicine.Some? && MatchesIgnoringCase(b.medicine.value.name, term)) ||
    MatchesIgnoringCase(b.batchNumber, term)
  }

  function BatchMatchTest(term: string): Batch -> bool {
    (b: Batch) => BatchMatches(b, term)
  }

  /** The search effect: the matching batches, in their original order;
      an empty term keeps every batch. */
  function SearchBatches(batches: seq<Batch>, term: string): (r: seq<Batch>)
    ensures IsSubsequence(r, batches)
    ensures forall b :: b in r ==> b in batches && BatchMatches(b, term)
    ensures forall b :: b in batches && BatchMatches(b, term) ==> b in r
    ensures term == "" ==> r == batches
  {
    assert term == "" ==> forall b :: b in batches ==> BatchMatches(b, term) by {
      forall b | term == "" && b in batches ensures BatchMatches(b, term) {
        EmptyTermMatches(b.batchNumber);
      }
    }
    Filter(batches, BatchMatchTest(term))
  }

  /** `user?.role === 'PHARMACIST'`: the Stock In button. */
  predicate CanStockIn(user: Option<User>) {
    user.Some? && user.value.role == PHARMACIST
  }

  /** `user?.role === 'PHARMACIST' || user?.role === 'STAFF'`: the Stock Out button. */
  predicate CanStockOut(user: Option<User>) {
    user.Some? && (user.value.role == PHARMACIST || user.value.role == STAFF)
  }

  /** Whoever may take stock in may also issue it; an administrator may do
      neither, and staff may only issue. */
  lemma StockActionGating(user: Option<User>)
    ensures CanStockIn(user) ==> CanStockOut(user)
    ensures user.Some? && user.value.role == ADMIN ==> !CanStockIn(user) && !CanStockOut(user)
    ensures user.Some? && user.value.role == STAFF ==> !CanStockIn(user) && CanStockOut(user)
    ensures user.None? ==> !CanStockIn(user) && !CanStockOut(user)
  {
  }

  /** A row of the page's table: `batch.medicine?.name` (left empty when
      there is no medicine), batch number, quantity, expiry and badge. */
  datatype InventoryRow = InventoryRow(medicineName: Option<string>, batchNumber: string, quantity: int, expiryDate: Date, status: BatchList.StatusBadge)

  datatype InventoryTable = NoBatchesRow | BatchRows(rows: seq<InventoryRow>)

  function RowOf(b: Batch, rules: ExpiryRules): InventoryRow {
    var name := if b.medicine.Some? then Some(b.medicine.value.name) else None;
    InventoryRow(name, b.batchNumber, b.quantity, b.expiryDate, GetBatchStatus(b, rules))
  }

  /** The table body: the "No batches found" row when the search keeps
      nothing, otherwise one row per kept batch, in order. */
  function RenderTable(batches: seq<Batch>, term: string, rules: ExpiryRules): (t: InventoryTable)
    ensures t.NoBatchesRow? <==> |SearchBatches(batches, term)| == 0
    ensures t.BatchRows? ==> |t.rows| == |SearchBatches(batches, term)| <= |batches|
    ensures t.BatchRows? ==> forall i :: 0 <= i < |t.rows| ==>
      t.rows[i].medicineName == (var m := SearchBatches(batches, term)[i].medicine;
                                 if m.Some? then Some(m.value.name) else None) &&
      t.rows[i].batchNumber == SearchBatches(batches, term)[i].batchNumber &&
      t.rows[i].quantity == SearchBatches(batches, term)[i].quantity &&
      t.rows[i].expiryDate == SearchBatches(batches, term)[i].expiryDate &&
      t.rows[i].status == BatchList.GetBatchStatus(SearchBatches(batches, term)[i], rules)
  {
    var shown := SearchBatches(batches, term);
    if |shown| == 0 then NoBatchesRow
    else BatchRows(seq(|shown|, i requires 0 <= i < |shown| => RowOf(shown[i], rules)))
  }
}
