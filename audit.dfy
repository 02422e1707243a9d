/** The audit page: the four log filters (text search, movement type, start
    and end date), the page's own type colours, the results table and the
    page state that re-applies the filters whenever the logs or the filters
    change. */
module Audit {
  import opened Optional
  import opened Lists
  import opened Text
  import opened Stock
  import opened AuditLogs

  /** The filter inputs. An empty search or type and a cleared date
      (`None`) switch that filter off; a date is the day the date input
      holds. */
  datatype AuditFilters = AuditFilters(search: string, kind: string, startDate: Option<Date>, endDate: Option<Date>)

  const NoFilters := AuditFilters("", "", None, None)

  /** `new Date("YYYY-MM-DD")`: midnight at the start of the day, in milliseconds. */
  function DayStart(d: Date): int {
    d * MsPerDay
  }

  /** The search matches the medicine's name, the batch number or the name
      of the user who performed the movement, ignoring case; a missing
      reference matches nothing. */
  predicate LogMatches(log: StockLog, term: string) {
    (log.medicine.Some? && MatchesIgnoringCase(log.medicine.value.name, term)) ||
    (log.batch.Some? && MatchesIgnoringCase(log.batch.value.batchNumber, term)) ||
    (log.performedBy.Some? && MatchesIgnoringCase(log.performedBy.value.name, term))
  }

  // The four tests, each holding trivially when its input is empty.

  predicate SearchOk(f: AuditFilters, log: StockLog) {
    f.search == "" || LogMatches(log, f.search)
  }

  predicate KindOk(f: AuditFilters, log: StockLog) {
    f.kind == "" || log.kind == f.kind
  }

  predicate FromOk(f: AuditFilters, log: StockLog) {
    f.startDate.None? || log.createdAt >= DayStart(f.startDate.value)
  }

  /** As written: `new Date(log.createdAt) <= new Date(filters.endDate)`. */
  predicate ToOk(f: AuditFilters, log: StockLog) {
    f.endDate.None? || log.createdAt <= DayStart(f.endDate.value)
  }

  function SearchStage(f: AuditFilters): StockLog -> bool { (l: StockLog) => SearchOk(f, l) }
  function KindStage(f: AuditFilters): StockLog -> bool { (l: StockLog) => KindOk(f, l) }
  function FromStage(f: AuditFilters): StockLog -> bool { (l: StockLog) => FromOk(f, l) }
  function ToStage(f: AuditFilters): StockLog -> bool { (l: StockLog) => ToOk(f, l) }

  /** `applyFilters` as written: a copy of the logs narrowed by each filter
      whose input is set, in the order search, type, start date, end date. */
  function ApplyFilters(logs: seq<StockLog>, f: AuditFilters): (r: seq<StockLog>)
    ensures |r| <= |logs|
    ensures forall l :: l in r ==> l in logs && Keep(f, l)
    ensures forall l :: l in logs && Keep(f, l) ==> l in r
    ensures f == NoFilters ==> r == logs
  {
    var bySearch := if f.search != "" then Filter(logs, SearchStage(f)) else logs;
    var byKind := if f.kind != "" then Filter(bySearch, KindStage(f)) else bySearch;
    var byStart := if f.startDate.Some? then Filter(byKind, FromStage(f)) else byKind;
    if f.endDate.Some? then Filter(byStart, ToStage(f)) else byStart
  }

  predicate Keep(f: AuditFilters, log: StockLog) {
    SearchOk(f, log) && KindOk(f, log) && FromOk(f, log) && ToOk(f, log)
  }

  function KeepTest(f: AuditFilters): StockLog -> bool { (l: StockLog) => Keep(f, l) }

  function SearchKindTest(f: AuditFilters): StockLog -> bool {
    (l: StockLog) => SearchOk(f, l) && KindOk(f, l)
  }

  function SearchKindFromTest(f: AuditFilters): StockLog -> bool {
    (l: StockLog) => SearchOk(f, l) && KindOk(f, l) && FromOk(f, l)
  }

  /** A filter step that is skipped is the same as filtering by its test,
      which then holds everywhere. */
  lemma SkippedStage(logs: seq<StockLog>, p: StockLog -> bool)
    requires forall l :: p(l)
    ensures Filter(logs, p) == logs
  {
  }

  /** The four steps in a row keep exactly the logs that pass all four tests. */
  lemma ApplyFiltersIsOneFilter(logs: seq<StockLog>, f: AuditFilters)
    ensures ApplyFilters(logs, f) == Filter(logs, KeepTest(f))
  {
    var s1 := if f.search != "" then Filter(logs, SearchStage(f)) else logs;
    if f.search == "" { SkippedStage(logs, SearchStage(f)); }
    assert s1 == Filter(logs, SearchStage(f));
    var s2 := if f.kind != "" then Filter(s1, KindStage(f)) else s1;
    if f.kind == "" { SkippedStage(s1, KindStage(f)); }
    FilterCompose(logs, SearchStage(f), KindStage(f), SearchKindTest(f));
    assert s2 == Filter(logs, SearchKindTest(f));
    var s3 := if f.startDate.Some? then Filter(s2, FromStage(f)) else s2;
    if f.startDate.None? { SkippedStage(s2, FromStage(f)); }
    FilterCompose(logs, SearchKindTest(f), FromStage(f), SearchKindFromTest(f));
    assert s3 == Filter(logs, SearchKindFromTest(f));
    if f.endDate.None? { SkippedStage(s3, ToStage(f)); }
    FilterCompose(logs, SearchKindFromTest(f), ToStage(f), KeepTest(f));
  }

  /** What the filtered table holds: the logs passing every filter that is
      set, in their original order, and all logs when no filter is set. */
  lemma ApplyFiltersSpec(logs: seq<StockLog>, f: AuditFilters)
    ensures IsSubsequence(ApplyFilters(logs, f), logs)
    ensures forall l :: l in ApplyFilters(logs, f) ==> l in logs && Keep(f, l)
    ensures forall l :: l in logs && Keep(f, l) ==> l in ApplyFilters(logs, f)
    ensures f == NoFilters ==> ApplyFilters(logs, f) == logs
  {
    ApplyFiltersIsOneFilter(logs, f);
  }

  /** Filtering the filtered logs again changes nothing, and two filter
      settings applied one after the other give the same logs in either order. */
  lemma ApplyFiltersIdempotentAndCommutes(logs: seq<StockLog>, f: AuditFilters, g: AuditFilters)
    ensures ApplyFilters(ApplyFilters(logs, f), f) == ApplyFilters(logs, f)
    ensures ApplyFilters(ApplyFilters(logs, f), g) == ApplyFilters(ApplyFilters(logs, g), f)
  {
    ApplyFiltersIsOneFilter(logs, f);
    ApplyFiltersIsOneFilter(logs, g);
    ApplyFiltersIsOneFilter(ApplyFilters(logs, f), f);
    ApplyFiltersIsOneFilter(ApplyFilters(logs, f), g);
    ApplyFiltersIsOneFilter(ApplyFilters(logs, g), f);
    FilterIdempotent(logs, KeepTest(f));
    FilterCommutes(logs, KeepTest(f), KeepTest(g));
  }

  // ---------------------------------------------------------------------
  // The end date

  /** A stock-in entry made at 10:00 on day 20000. */
  const MorningLog := StockLog("l1", StockIn, None, None, 5, None, 20000 * MsPerDay + 36000000)

  /** As written, choosing day 20000 as both start and end date hides a
      movement made at 10:00 that very day: the end date compares with the
      day's first millisecond. */
  lemma EndDateHidesSameDayLogs()
    ensures ApplyFilters([MorningLog], AuditFilters("", "", Some(20000), Some(20000))) == []
  {
    var f := AuditFilters("", "", Some(20000), Some(20000));
    assert [MorningLog][1..] == [];
    assert Filter([MorningLog], FromStage(f)) == [MorningLog];
  }

  /** The end date taken to include its whole day: before the next midnight. */
  predicate ToOkWholeDay(f: AuditFilters, log: StockLog) {
    f.endDate.None? || log.createdAt < DayStart(f.endDate.value + 1)
  }

  function ToWholeDayStage(f: AuditFilters): StockLog -> bool { (l: StockLog) => ToOkWholeDay(f, l) }

  /** `applyFilters` with the end date covering its whole day. */
  function ApplyFiltersWholeDays(logs: seq<StockLog>, f: AuditFilters): (r: seq<StockLog>)
    ensures |r| <= |logs|
    ensures forall l :: l in r ==> l in logs && SearchOk(f, l) && KindOk(f, l) && FromOk(f, l) && ToOkWholeDay(f, l)
    ensures forall l :: l in logs && SearchOk(f, l) && KindOk(f, l) && FromOk(f, l) && ToOkWholeDay(f, l) ==> l in r
    ensures f == NoFilters ==> r == logs
  {
    var bySearch := if f.search != "" then Filter(logs, SearchStage(f)) else logs;
    var byKind := if f.kind != "" then Filter(bySearch, KindStage(f)) else bySearch;
    var byStart := if f.startDate.Some? then Filter(byKind, FromStage(f)) else byKind;
    if f.endDate.Some? then Filter(byStart, ToWholeDayStage(f)) else byStart
  }

  /** The day a moment falls on. */
  function DayOf(t: int): Date {
    t / MsPerDay
  }

  /** A moment is at or after a day's start exactly when its day is that day
      or later, and before the next day's start exactly when its day is that
      day or earlier. */
  lemma DayOfBounds(t: int, d: Date)
    ensures t >= DayStart(d) <==> DayOf(t) >= d
    ensures t < DayStart(d + 1) <==> DayOf(t) <= d
  {
  }

  predicate KeepWholeDays(f: AuditFilters, log: StockLog) {
    SearchOk(f, log) && KindOk(f, log) &&
    (f.startDate.None? || DayOf(log.createdAt) >= f.startDate.value) &&
    (f.endDate.None? || DayOf(log.createdAt) <= f.endDate.value)
  }

  function KeepWholeDaysTest(f: AuditFilters): StockLog -> bool { (l: StockLog) => KeepWholeDays(f, l) }

  function BeforeNextMidnightTest(f: AuditFilters): StockLog -> bool {
    (l: StockLog) => SearchOk(f, l) && KindOk(f, l) && FromOk(f, l) && ToOkWholeDay(f, l)
  }

  /** The corrected steps in a row are one filter by the four tests. */
  lemma ApplyFiltersWholeDaysIsOneFilter(logs: seq<StockLog>, f: AuditFilters)
    ensures ApplyFiltersWholeDays(logs, f) == Filter(logs, BeforeNextMidnightTest(f))
  {
    var s1 := if f.search != "" then Filter(logs, SearchStage(f)) else logs;
    if f.search == "" { SkippedStage(logs, SearchStage(f)); }
    var s2 := if f.kind != "" then Filter(s1, KindStage(f)) else s1;
    if f.kind == "" { SkippedStage(s1, KindStage(f)); }
    FilterCompose(logs, SearchStage(f), KindStage(f), SearchKindTest(f));
    var s3 := if f.startDate.Some? then Filter(s2, FromStage(f)) else s2;
    if f.startDate.None? { SkippedStage(s2, FromStage(f)); }
    FilterCompose(logs, SearchKindTest(f), FromStage(f), SearchKindFromTest(f));
    assert s3 == Filter(logs, SearchKindFromTest(f));
    if f.endDate.None? { SkippedStage(s3, ToWholeDayStage(f)); }
    FilterCompose(logs, SearchKindFromTest(f), ToWholeDayStage(f), BeforeNextMidnightTest(f));
  }

  /** The corrected filter keeps, in order, exactly the logs that match the
      search and the type and whose day lies between the start and end
      dates, both included. */
  lemma ApplyFiltersWholeDaysSpec(logs: seq<StockLog>, f: AuditFilters)
    ensures IsSubsequence(ApplyFiltersWholeDays(logs, f), logs)
    ensures forall l :: l in ApplyFiltersWholeDays(logs, f) ==> l in logs && KeepWholeDays(f, l)
    ensures forall l :: l in logs && KeepWholeDays(f, l) ==> l in ApplyFiltersWholeDays(logs, f)
    ensures f == NoFilters ==> ApplyFiltersWholeDays(logs, f) == logs
  {
    ApplyFiltersWholeDaysIsOneFilter(logs, f);
    forall l | l in logs ensures BeforeNextMidnightTest(f)(l) == KeepWholeDaysTest(f)(l) {
      if f.startDate.Some? { DayOfBounds(l.createdAt, f.startDate.value); }
      if f.endDate.Some? { DayOfBounds(l.createdAt, f.endDate.value); }
    }
    FilterCongruent(logs, BeforeNextMidnightTest(f), KeepWholeDaysTest(f));
  }

  /** The corrected filters too are idempotent and can be applied in either order. */
  lemma ApplyFiltersWholeDaysIdempotentAndCommutes(logs: seq<StockLog>, f: AuditFilters, g: AuditFilters)
    ensures ApplyFiltersWholeDays(ApplyFiltersWholeDays(logs, f), f) == ApplyFiltersWholeDays(logs, f)
    ensures ApplyFiltersWholeDays(ApplyFiltersWholeDays(logs, f), g) == ApplyFiltersWholeDays(ApplyFiltersWholeDays(logs, g), f)
  {
    ApplyFiltersWholeDaysIsOneFilter(logs, f);
    ApplyFiltersWholeDaysIsOneFilter(logs, g);
    ApplyFiltersWholeDaysIsOneFilter(ApplyFiltersWholeDays(logs, f), f);
    ApplyFiltersWholeDaysIsOneFilter(ApplyFiltersWholeDays(logs, f), g);
    ApplyFiltersWholeDaysIsOneFilter(ApplyFiltersWholeDays(logs, g), f);
    FilterIdempotent(logs, BeforeNextMidnightTest(f));
    FilterCommutes(logs, BeforeNextMidnightTest(f), BeforeNextMidnightTest(g));
  }

  /** The morning entry of the counterexample is shown by the corrected filter. */
  lemma WholeDaysKeepsSameDayLogs()
    ensures ApplyFiltersWholeDays([MorningLog], AuditFilters("", "", Some(20000), Some(20000))) == [MorningLog]
  {
    var f := AuditFilters("", "", Some(20000), Some(20000));
    ApplyFiltersWholeDaysSpec([MorningLog], f);
    assert KeepWholeDays(f, MorningLog);
  }

  // ---------------------------------------------------------------------
  // The page

  /** The page's own `getTypeColor`, written out again in the page. */
  function PageTypeColor(kind: string): string {
    match kind
    case "STOCK_IN" => "text-green-600 bg-green-50"
    case "STOCK_OUT" => "text-blue-600 bg-blue-50"
    case "EXPIRED" => "text-red-600 bg-red-50"
    case _ => "text-gray-600 bg-gray-50"
  }

  /** The page colours every type as the audit table component does. */
  lemma PageTypeColorAgrees(kind: string)
    ensures PageTypeColor(kind) == TypeColor(kind)
  {
  }

  /** The options of the type drop-down: "All Types" (the empty value) and
      the three known movement types. */
  const TypeOptions: seq<string> := ["", StockIn, StockOut, Expired]

  /** Choosing one of the known types keeps exactly the movements of that
      type; "All Types" keeps every type. */
  lemma TypeOptionFilters(logs: seq<StockLog>, f: AuditFilters, l: StockLog)
    requires f.kind in TypeOptions
    requires l in logs && SearchOk(f, l) && FromOk(f, l) && ToOk(f, l)
    ensures l in ApplyFilters(logs, f) <==> (f.kind == "" || l.kind == f.kind)
  {
    ApplyFiltersSpec(logs, f);
  }

  /** The same holds for the corrected filter. */
  lemma TypeOptionFiltersWholeDays(logs: seq<StockLog>, f: AuditFilters, l: StockLog)
    requires f.kind in TypeOptions
    requires l in logs && SearchOk(f, l) && FromOk(f, l) && ToOkWholeDay(f, l)
    ensures l in ApplyFiltersWholeDays(logs, f) <==> (f.kind == "" || l.kind == f.kind)
  {
    ApplyFiltersWholeDaysSpec(logs, f);
    if f.startDate.Some? { DayOfBounds(l.createdAt, f.startDate.value); }
    if f.endDate.Some? { DayOfBounds(l.createdAt, f.endDate.value); }
  }

  /** The page's table body: the "No audit logs found" row, or one row per
      filtered log in order; the footer counts the filtered logs. */
  datatype AuditTable = AuditTable(rows: seq<LogRow>, emptyMessage: bool, totalLogs: nat)

  function RenderTable(filteredLogs: seq<StockLog>): (t: AuditTable)
    ensures t.emptyMessage <==> |filteredLogs| == 0
    ensures t.totalLogs == |t.rows| == |filteredLogs|
    ensures forall i :: 0 <= i < |t.rows| ==>
      ShowsLog(t.rows[i], filteredLogs[i]) && t.rows[i].color == TypeColor(filteredLogs[i].kind)
  {
    AuditTable(
      seq(|filteredLogs|, i requires 0 <= i < |filteredLogs| => RowOf(filteredLogs[i], PageTypeColor(filteredLogs[i].kind))),
      |filteredLogs| == 0,
      |filteredLogs|)
  }

  /** The log request: it fails, or answers with a body whose `logs` field
      may be missing (`|| []`). */
  datatype LogsResponse = RequestFailed | Received(logs: Option<seq<StockLog>>)

  class AuditPage {
    var logs: seq<StockLog>
    var filteredLogs: seq<StockLog>
    var filters: AuditFilters
    var loading: bool

    /** The effect on `[filters, logs]` has run: the table shows the logs
        the current filters keep, the end date compared as written. */
    predicate Valid()
      reads this
    {
      filteredLogs == ApplyFilters(logs, filters)
    }

    constructor()
      ensures Valid() && logs == [] && filteredLogs == [] && filters == NoFilters && loading
    {
      logs := [];
      filteredLogs := [];
      filters := NoFilters;
      loading := true;
    }

    /** `fetchLogs`: on an answer the logs are replaced and the filters
        re-applied; on a failure the logs stay. Either way the spinner goes. */
    method FetchLogs(response: LogsResponse)
      requires Valid()
      modifies this
      ensures Valid() && !loading && filters == old(filters)
      ensures logs == if response.Received? then response.logs.GetOr([]) else old(logs)
    {
      if response.Received? {
        logs := response.logs.GetOr([]);
        filteredLogs := ApplyFilters(logs, filters);
      }
      loading := false;
    }

    /** `setFilters({ ...filters, search })`, then the effect. */
    method SetSearch(search: string)
      requires Valid()
      modifies this
      ensures Valid() && filters == old(filters).(search := search)
      ensures logs == old(logs) && loading == old(loading)
    {
      filters := filters.(search := search);
      filteredLogs := ApplyFilters(logs, filters);
    }

    /** `setFilters({ ...filters, type })`, then the effect. */
    method SetKind(kind: string)
      requires Valid()
      modifies this
      ensures Valid() && filters == old(filters).(kind := kind)
      ensures logs == old(logs) && loading == old(loading)
    {
      filters := filters.(kind := kind);
      filteredLogs := ApplyFilters(logs, filters);
    }

    /** `setFilters({ ...filters, startDate })`, then the effect. */
    method SetStartDate(startDate: Option<Date>)
      requires Valid()
      modifies this
      ensures Valid() && filters == old(filters).(startDate := startDate)
      ensures logs == old(logs) && loading == old(loading)
    {
      filters := filters.(startDate := startDate);
      filteredLogs := ApplyFilters(logs, filters);
    }

    /** `setFilters({ ...filters, endDate })`, then the effect. */
    method SetEndDate(endDate: Option<Date>)
      requires Valid()
      modifies this
      ensures Valid() && filters == old(filters).(endDate := endDate)
      ensures logs == old(logs) && loading == old(loading)
    {
      filters := filters.(endDate := endDate);
      filteredLogs := ApplyFilters(logs, filters);
    }
  }
}
