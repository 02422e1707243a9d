/** The report rows the report API returns (usage of the month, most used
    medicines, expired wastage), the totals the report views compute from
    them and the table rows they display. */
module ReportRows {
  import opened Optional
  import opened Lists
  import opened Stock

  /** One line of the wastage report; `valueLost` may be missing. */
  datatype WastageItem = WastageItem(medicine: string, batchNumber: string, quantity: int, valueLost: Option<int>, expiryDate: Date)

  /** One line of the monthly usage report; `value` may be missing. */
  datatype UsageItem = UsageItem(medicine: string, quantity: int, value: Option<int>)

  /** One line of the most-used list. */
  datatype TopItem = TopItem(name: string, totalUsed: int, category: string)

  /** `item.valueLost || 0`. */
  function ValueLost(item: WastageItem): int {
    item.valueLost.GetOr(0)
  }

  function WastedQuantity(item: WastageItem): int {
    item.quantity
  }

  /** `item.value || 0`. */
  function UsageValue(item: UsageItem): int {
    item.value.GetOr(0)
  }

  function UsedQuantity(item: UsageItem): int {
    item.quantity
  }

  /** `data.reduce((sum, item) => sum + (item.valueLost || 0), 0)`. */
  function TotalWastage(items: seq<WastageItem>): int {
    Sum(items, ValueLost)
  }

  /** `data.reduce((sum, item) => sum + item.quantity, 0)` over wastage lines. */
  function TotalWastedQuantity(items: seq<WastageItem>): int {
    Sum(items, WastedQuantity)
  }

  /** `data.reduce((sum, item) => sum + item.quantity, 0)` over usage lines. */
  function TotalUsedQuantity(items: seq<UsageItem>): int {
    Sum(items, UsedQuantity)
  }

  /** `data.reduce((sum, item) => sum + (item.value || 0), 0)`. */
  function TotalUsageValue(items: seq<UsageItem>): int {
    Sum(items, UsageValue)
  }

  /** The wastage totals of two lists together are the sums of their totals,
      and lines without a value add nothing to the value lost. */
  lemma WastageTotalsAdd(a: seq<WastageItem>, b: seq<WastageItem>)
    ensures TotalWastage(a + b) == TotalWastage(a) + TotalWastage(b)
    ensures TotalWastedQuantity(a + b) == TotalWastedQuantity(a) + TotalWastedQuantity(b)
  {
    SumAppend(a, b, ValueLost);
    SumAppend(a, b, WastedQuantity);
  }

  /** With no negative value lost, the total is at least every line's loss. */
  lemma TotalWastageBoundsLines(items: seq<WastageItem>)
    requires forall i :: 0 <= i < |items| ==> ValueLost(items[i]) >= 0
    ensures TotalWastage(items) >= 0
    ensures forall i :: 0 <= i < |items| ==> ValueLost(items[i]) <= TotalWastage(items)
  {
    SumBoundsTerms(items, ValueLost);
  }

  /** With no negative quantity or value, the usage totals bound every line. */
  lemma UsageTotalsBoundLines(items: seq<UsageItem>)
    requires forall i :: 0 <= i < |items| ==> items[i].quantity >= 0 && UsageValue(items[i]) >= 0
    ensures TotalUsedQuantity(items) >= 0 && TotalUsageValue(items) >= 0
    ensures forall i :: 0 <= i < |items| ==>
      items[i].quantity <= TotalUsedQuantity(items) && UsageValue(items[i]) <= TotalUsageValue(items)
  {
    SumBoundsTerms(items, UsedQuantity);
    SumBoundsTerms(items, UsageValue);
  }

  /** A wastage table row: medicine, batch number, quantity wasted,
      `item.valueLost?.toLocaleString() || 0` and the expiry date. */
  datatype WastageRow = WastageRow(medicine: string, batchNumber: string, quantity: int, valueLost: int, expiryDate: Date)

  function WastageRowOf(item: WastageItem): WastageRow {
    WastageRow(item.medicine, item.batchNumber, item.quantity, ValueLost(item), item.expiryDate)
  }

  function RowValueLost(r: WastageRow): int { r.valueLost }

  function RowQuantity(r: WastageRow): int { r.quantity }

  /** The wastage rows, one per line and in order; their value and quantity
      columns add up to the report's totals. */
  function WastageRows(items: seq<WastageItem>): (rows: seq<WastageRow>)
    ensures |rows| == |items|
    ensures Sum(rows, RowValueLost) == TotalWastage(items)
    ensures Sum(rows, RowQuantity) == TotalWastedQuantity(items)
    ensures forall i :: 0 <= i < |items| ==>
      rows[i].medicine == items[i].medicine && rows[i].batchNumber == items[i].batchNumber &&
      rows[i].quantity == items[i].quantity && rows[i].valueLost == ValueLost(items[i])
  {
    SumMap(items, WastageRowOf, RowValueLost, ValueLost);
    SumMap(items, WastageRowOf, RowQuantity, WastedQuantity);
    Map(items, WastageRowOf)
  }

  /** A usage table row: medicine, quantity used, `item.value?.toLocaleString() || 0`. */
  datatype UsageRow = UsageRow(medicine: string, quantity: int, value: int)

  function UsageRowOf(item: UsageItem): UsageRow {
    UsageRow(item.medicine, item.quantity, UsageValue(item))
  }

  function RowUsedQuantity(r: UsageRow): int { r.quantity }

  function RowUsageValue(r: UsageRow): int { r.value }

  /** The usage rows, one per line and in order; their columns add up to
      the usage totals. */
  function UsageRows(items: seq<UsageItem>): (rows: seq<UsageRow>)
    ensures |rows| == |items|
    ensures Sum(rows, RowUsedQuantity) == TotalUsedQuantity(items)
    ensures Sum(rows, RowUsageValue) == TotalUsageValue(items)
    ensures forall i :: 0 <= i < |items| ==>
      rows[i].medicine == items[i].medicine && rows[i].quantity == items[i].quantity &&
      rows[i].value == UsageValue(items[i])
  {
    SumMap(items, UsageRowOf, RowUsedQuantity, UsedQuantity);
    SumMap(items, UsageRowOf, RowUsageValue, UsageValue);
    Map(items, UsageRowOf)
  }
}
