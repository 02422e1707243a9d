/** The expired-wastage report component: the empty-state card, or the two
    headline totals over a table of the wasted batches. */
module ExpiryReport {
  import opened Optional
  import opened Lists
  import opened ReportRows

  datatype ExpiryReportView =
    | NoExpiredMedicines
    | WastageReport(totalQuantity: int, totalValueLost: int, rows: seq<WastageRow>)

  /** The component for `data`, which may be missing (`!data`): the
      empty-state card for missing or empty data; otherwise the total
      quantity wasted and the total value lost over one row per line. */
  function Render(data: Option<seq<WastageItem>>): (v: ExpiryReportView)
    ensures v.NoExpiredMedicines? <==> data.None? || |data.value| == 0
    ensures v.WastageReport? ==> v.rows == WastageRows(data.value)
    ensures v.WastageReport? ==>
      v.totalQuantity == TotalWastedQuantity(data.value) && v.totalValueLost == TotalWastage(data.value)
  {
    match data
    case None => NoExpiredMedicines
    case Some(items) =>
      if |items| == 0 then NoExpiredMedicines
      else WastageReport(TotalWastedQuantity(items), TotalWastage(items), WastageRows(items))
  }

  /** The two headline figures are the sums of the table's columns below them. */
  lemma HeadlinesSumTheTable(data: Option<seq<WastageItem>>)
    requires Render(data).WastageReport?
    ensures Render(data).totalQuantity == Sum(Render(data).rows, RowQuantity)
    ensures Render(data).totalValueLost == Sum(Render(data).rows, RowValueLost)
  {
  }
}
