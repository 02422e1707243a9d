/** The stock-movement log as the log API returns it, and the audit table
    component: the colour and label of a movement type, one row per entry. */
module AuditLogs {
  import opened Optional
  import opened Text
  import opened Accounts
  import opened Stock

  /** One stock movement. `kind` is the `type` string the server records;
      `createdAt` is the time of the movement in milliseconds since the epoch. */
  datatype StockLog = StockLog(
    id: string,
    kind: string,
    medicine: Option<Medicine>,
    batch: Option<Batch>,
    quantity: int,
    performedBy: Option<User>,
    createdAt: int)

  const StockIn := "STOCK_IN"
  const StockOut := "STOCK_OUT"
  const Expired := "EXPIRED"

  const StockInColor := "text-green-600 bg-green-50"
  const StockOutColor := "text-blue-600 bg-blue-50"
  const ExpiredColor := "text-red-600 bg-red-50"
  const OtherColor := "text-gray-600 bg-gray-50"

  /** `getTypeColor`: each of the three known movement types has its own
      colour; every other type string gets the neutral grey. */
  function TypeColor(kind: string): (c: string)
    ensures c == StockInColor <==> kind == StockIn
    ensures c == StockOutColor <==> kind == StockOut
    ensures c == ExpiredColor <==> kind == Expired
    ensures c == OtherColor <==> kind !in {StockIn, StockOut, Expired}
  {
    if kind == StockIn then StockInColor
    else if kind == StockOut then StockOutColor
    else if kind == Expired then ExpiredColor
    else OtherColor
  }

  /** `log.type.replace('_', ' ')`: the type with its first underscore
      turned into a space. */
  function TypeLabel(kind: string): string {
    ReplaceFirst(kind, '_', ' ')
  }

  /** "STOCK_IN" is shown as "STOCK IN". */
  lemma StockInLabel()
    ensures TypeLabel(StockIn) == "STOCK IN"
  {
    assert StockIn == "STOCK" + ['_'] + "IN";
    ReplaceFirstAfter("STOCK", '_', ' ', "IN");
    assert "STOCK" + [' '] + "IN" == "STOCK IN";
  }

  /** "STOCK_OUT" is shown as "STOCK OUT". */
  lemma StockOutLabel()
    ensures TypeLabel(StockOut) == "STOCK OUT"
  {
    assert StockOut == "STOCK" + ['_'] + "OUT";
    ReplaceFirstAfter("STOCK", '_', ' ', "OUT");
    assert "STOCK" + [' '] + "OUT" == "STOCK OUT";
  }

  /** A type without an underscore, such as "EXPIRED", is shown as it is. */
  lemma ExpiredLabel()
    ensures TypeLabel(Expired) == Expired
  {
    assert '_' !in Expired;
    ReplaceFirstSpec(Expired, '_', ' ');
  }

  /** Of several underscores only the first becomes a space. */
  lemma OnlyFirstUnderscoreReplaced()
    ensures TypeLabel("A_B_C") == "A B_C"
  {
    assert "A_B_C" == "A" + ['_'] + "B_C";
    ReplaceFirstAfter("A", '_', ' ', "B_C");
    assert "A" + [' '] + "B_C" == "A B_C";
  }

  /** A table row: the time, the type's label and colour, the medicine's
      name, the batch number, the quantity and who performed it (name and
      role); a missing reference leaves its cell empty. */
  datatype LogRow = LogRow(
    createdAt: int,
    typeLabel: string,
    color: string,
    medicineName: Option<string>,
    batchNumber: Option<string>,
    quantity: int,
    performerName: Option<string>,
    performerRole: Option<Role>)

  function RowOf(log: StockLog, color: string): LogRow {
    LogRow(
      log.createdAt,
      TypeLabel(log.kind),
      color,
      if log.medicine.Some? then Some(log.medicine.value.name) else None,
      if log.batch.Some? then Some(log.batch.value.batchNumber) else None,
      log.quantity,
      if log.performedBy.Some? then Some(log.performedBy.value.name) else None,
      if log.performedBy.Some? then Some(log.performedBy.value.role) else None)
  }

  /** The cells a row shows for a log, apart from its colour: the time, the
      type with its first underscore turned into a space, the quantity, and
      the medicine's name, the batch number and the performer's name and
      role, each empty when its reference is missing. */
  predicate ShowsLog(row: LogRow, log: StockLog) {
    row.createdAt == log.createdAt && row.typeLabel == TypeLabel(log.kind) && row.quantity == log.quantity &&
    row.medicineName == (if log.medicine.Some? then Some(log.medicine.value.name) else None) &&
    row.batchNumber == (if log.batch.Some? then Some(log.batch.value.batchNumber) else None) &&
    row.performerName == (if log.performedBy.Some? then Some(log.performedBy.value.name) else None) &&
    row.performerRole == (if log.performedBy.Some? then Some(log.performedBy.value.role) else None)
  }

  datatype AuditLogsView = NoAuditLogs | LogTable(rows: seq<LogRow>)

  /** The component: "No audit logs found" for no entries, otherwise one
      row per entry, in the order given, coloured by its type. */
  function Render(logs: seq<StockLog>): (v: AuditLogsView)
    ensures v.NoAuditLogs? <==> |logs| == 0
    ensures v.LogTable? ==> |v.rows| == |logs|
    ensures v.LogTable? ==> forall i :: 0 <= i < |logs| ==>
      ShowsLog(v.rows[i], logs[i]) && v.rows[i].color == TypeColor(logs[i].kind)
  {
    if |logs| == 0 then NoAuditLogs
    else LogTable(seq(|logs|, i requires 0 <= i < |logs| => RowOf(logs[i], TypeColor(logs[i].kind))))
  }
}
