/** The monthly usage report component: the empty-state card, or a bar per
    line and a table whose last row holds the totals. */
module MonthlyUsage {
  import opened Optional
  import opened Lists
  import opened ReportRows

  /** A bar of the chart: the medicine and its quantity used. */
  datatype UsageBar = UsageBar(medicine: string, quantity: int)

  function BarOf(item: UsageItem): UsageBar {
    UsageBar(item.medicine, item.quantity)
  }

  datatype MonthlyUsageView =
    | NoUsageData
    | UsageReport(bars: seq<UsageBar>, rows: seq<UsageRow>)

  /** The table body: one row per line, then the "Total" row. */
  function TableBody(v: MonthlyUsageView): (body: seq<UsageRow>)
    requires v.UsageReport?
    ensures |body| == |v.rows| + 1 && body[..|v.rows|] == v.rows
    ensures body[|v.rows|].medicine == "Total"
  {
    v.rows + [UsageRow("Total", Sum(v.rows, RowUsedQuantity), Sum(v.rows, RowUsageValue))]
  }

  /** The component for `data`, which may be missing: the empty-state card
      for missing or empty data; otherwise a bar and a row per line, in order. */
  function Render(data: Option<seq<UsageItem>>): (v: MonthlyUsageView)
    ensures v.NoUsageData? <==> data.None? || |data.value| == 0
    ensures v.UsageReport? ==> |v.bars| == |v.rows| == |data.value|
    ensures v.UsageReport? ==> v.rows == UsageRows(data.value)
    ensures v.UsageReport? ==> forall i :: 0 <= i < |v.bars| ==>
      v.bars[i].medicine == v.rows[i].medicine && v.bars[i].quantity == v.rows[i].quantity
  {
    match data
    case None => NoUsageData
    case Some(items) =>
      if |items| == 0 then NoUsageData
      else UsageReport(Map(items, BarOf), UsageRows(items))
  }

  /** The table ends with exactly one "Total" row, after every line, and
      that row holds the total quantity used and the total value of the
      month's usage. */
  lemma TotalRowHoldsTotals(data: Option<seq<UsageItem>>)
    requires Render(data).UsageReport?
    ensures var body := TableBody(Render(data));
      |body| == |data.value| + 1 &&
      body[..|data.value|] == Render(data).rows &&
      body[|data.value|] == UsageRow("Total", TotalUsedQuantity(data.value), TotalUsageValue(data.value))
  {
  }
}
