/** The landing page after sign-in: four stock figures, the five batches
    expiring soonest, the first five low-stock batches and the quick-action
    tiles of the user's role. */
module HomeDashboard {
  import opened Optional
  import opened Lists
  import opened Accounts
  import opened Stock
  import ReportsDashboard

  datatype HomeStats = HomeStats(totalMedicines: int, lowStock: int, expiringSoon: int, totalValue: int)

  const InitialStats := HomeStats(0, 0, 0, 0)

  /** The four figures, computed exactly as on the analytics dashboard. */
  function ComputeStats(bs: seq<Batch>, rules: ExpiryRules): (s: HomeStats)
    ensures 0 <= s.totalMedicines <= |bs| && (s.totalMedicines == 0 <==> |bs| == 0)
    ensures s.totalMedicines == DistinctMedicines(bs)
    ensures 0 <= s.lowStock <= |bs| && 0 <= s.expiringSoon <= |bs|
    ensures s.lowStock == |LowStockBatches(bs)| && s.expiringSoon == |ExpiringSoonBatches(bs, rules)|
    ensures s.totalValue == Sum(bs, LineValue)
  {
    HomeStats(DistinctMedicines(bs), |LowStockBatches(bs)|, |ExpiringSoonBatches(bs, rules)|, TotalValue(bs))
  }

  /** The landing page and the analytics dashboard never disagree on the
      figures they both show. */
  lemma StatsAgreeWithReports(bs: seq<Batch>, rules: ExpiryRules)
    ensures var h, r := ComputeStats(bs, rules), ReportsDashboard.ComputeStats(bs, rules);
      h.totalMedicines == r.totalMedicines && h.lowStock == r.lowStock &&
      h.expiringSoon == r.expiringSoon && h.totalValue == r.totalValue
  {
  }

  const PreviewLength: nat := 5

  /** `lowStockBatches.slice(0, 5)`: the first five low-stock batches in
      batch order (not the most urgent ones); all of them when there are
      fewer than five. */
  function LowStockPreview(bs: seq<Batch>): (r: seq<Batch>)
    ensures |r| <= PreviewLength
    ensures |r| == PreviewLength || |r| == |LowStockBatches(bs)|
    ensures r <= LowStockBatches(bs)
    ensures forall b :: b in r ==> b in bs && IsLowStock(b)
  {
    var low := LowStockBatches(bs);
    var r := FirstN(low, PreviewLength);
    assert forall b :: b in r ==> b in low;
    r
  }

  /** A low-stock card: the medicine's name, the batch number, the quantity
      ("N left") and `Min: {batch.medicine?.minStockLevel || 10}`. */
  datatype LowStockRow = LowStockRow(medicineName: Option<string>, batchNumber: string, quantity: int, min: int)

  function LowStockRows(bs: seq<Batch>): seq<LowStockRow> {
    var preview := LowStockPreview(bs);
    seq(|preview|, i requires 0 <= i < |preview| =>
      LowStockRow(if preview[i].medicine.Some? then Some(preview[i].medicine.value.name) else None,
                  preview[i].batchNumber, preview[i].quantity, Threshold(preview[i])))
  }

  /** Every low-stock card shows a quantity below the minimum it shows. */
  lemma LowStockRowsBelowMin(bs: seq<Batch>)
    ensures |LowStockRows(bs)| <= PreviewLength
    ensures forall i :: 0 <= i < |LowStockRows(bs)| ==> LowStockRows(bs)[i].quantity < LowStockRows(bs)[i].min
  {
    var preview := LowStockPreview(bs);
    forall i | 0 <= i < |preview| ensures preview[i].quantity < Threshold(preview[i]) {
      assert preview[i] in preview;
    }
  }

  /** The titles of the quick-action tiles: reports and users for an
      administrator; stock and medicine entry for an administrator or a
      pharmacist; issuing stock for everyone. */
  function QuickActions(user: Option<User>): (tiles: seq<string>)
    ensures |tiles| > 0 && tiles[|tiles| - 1] == "Issue Stock"
    ensures "View Reports" in tiles <==> user.Some? && user.value.role == ADMIN
    ensures "Add Stock" in tiles <==> user.Some? && (user.value.role == ADMIN || user.value.role == PHARMACIST)
    ensures user.Some? && user.value.role == STAFF ==> tiles == ["Issue Stock"]
    ensures user.Some? && user.value.role == ADMIN ==>
      tiles == ["View Reports", "Manage Users", "Add Stock", "Add Medicine", "Issue Stock"]
    ensures user.Some? && user.value.role == PHARMACIST ==> tiles == ["Add Stock", "Add Medicine", "Issue Stock"]
    ensures user.None? || !(user.value.role == ADMIN || user.value.role == PHARMACIST) ==> tiles == ["Issue Stock"]
  {
    var isAdmin := user.Some? && user.value.role == ADMIN;
    var isPharmacistOrAdmin := user.Some? && (user.value.role == ADMIN || user.value.role == PHARMACIST);
    (if isAdmin then ["View Reports", "Manage Users"] else []) +
    (if isPharmacistOrAdmin then ["Add Stock", "Add Medicine"] else []) +
    ["Issue Stock"]
  }

  class HomePage {
    var stats: HomeStats
    var expiringBatches: seq<Batch>
    var lowStockBatches: seq<Batch>
    var loading: bool

    constructor()
      ensures stats == InitialStats && expiringBatches == [] && lowStockBatches == [] && loading
    {
      stats := InitialStats;
      expiringBatches := [];
      lowStockBatches := [];
      loading := true;
    }

    /** `fetchData`: on an answer the figures and both previews are
        recomputed from the batches (`|| []` when the field is missing); on
        a failure only the spinner goes. */
    method FetchData(response: ReportsDashboard.BatchesResponse, rules: ExpiryRules)
      modifies this
      ensures !loading
      ensures response.RequestFailed? ==>
        stats == old(stats) && expiringBatches == old(expiringBatches) && lowStockBatches == old(lowStockBatches)
      ensures response.Received? ==>
        var bs := response.batches.GetOr([]);
        stats == ComputeStats(bs, rules) && expiringBatches == TopExpiring(bs, rules) &&
        lowStockBatches == LowStockPreview(bs)
    {
      if response.Received? {
        var batches := response.batches.GetOr([]);
        stats := ComputeStats(batches, rules);
        expiringBatches := TopExpiring(batches, rules);
        lowStockBatches := LowStockPreview(batches);
      }
      loading := false;
    }
  }
}
