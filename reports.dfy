/** The reports page: the three report requests made from the current
    date, the three tabs and the panel each one shows. */
module Reports {
  import opened Optional
  import opened Lists
  import opened ReportRows

  /** A JavaScript month index, as `getMonth()` returns it (January is 0). */
  type MonthIndex = m: int | 0 <= m < 12

  /** A day of the month. */
  type DayOfMonth = d: int | 1 <= d <= 31 witness 1

  /** Milliseconds since local midnight. */
  type TimeOfDay = t: int | 0 <= t < 86400000

  /** A local date and time, as `new Date()` reads the clock. */
  datatype LocalDateTime = LocalDateTime(year: int, month: MonthIndex, day: DayOfMonth, time: TimeOfDay)

  /** Chronological order of local date-times. */
  predicate NotAfter(a: LocalDateTime, b: LocalDateTime) {
    a.year < b.year ||
    (a.year == b.year && (a.month < b.month ||
      (a.month == b.month && (a.day < b.day ||
        (a.day == b.day && a.time <= b.time)))))
  }

  /** `{ month: currentDate.getMonth() + 1, year: currentDate.getFullYear() }`:
      the month is counted from 1, as the server expects. */
  datatype MonthQuery = MonthQuery(month: int, year: int)

  function MonthlyUsageQuery(now: LocalDateTime): (q: MonthQuery)
    ensures 1 <= q.month <= 12 && q.year == now.year
    ensures q.month - 1 == now.month
  {
    MonthQuery(now.month + 1, now.year)
  }

  /** `{ limit: 10 }`. */
  const TopConsumedLimit := 10

  /** The wastage window: from `new Date(currentDate.getFullYear(), 0, 1)`
      (local midnight of January 1) to the current moment. */
  datatype Window = Window(start: LocalDateTime, end: LocalDateTime)

  function WastageWindow(now: LocalDateTime): (w: Window)
    ensures w.end == now
    ensures w.start.year == now.year && w.start.month == 0 && w.start.day == 1 && w.start.time == 0
  {
    Window(LocalDateTime(now.year, 0, 1, 0), now)
  }

  /** The window is never empty or reversed: it starts no later than it
      ends, and every moment of the current year up to now lies inside it. */
  lemma WastageWindowCoversYearToDate(now: LocalDateTime, t: LocalDateTime)
    ensures NotAfter(WastageWindow(now).start, WastageWindow(now).end)
    ensures t.year == now.year && NotAfter(t, now) ==>
      NotAfter(WastageWindow(now).start, t) && NotAfter(t, WastageWindow(now).end)
  {
  }

  // ---------------------------------------------------------------------
  // Tabs and panels

  const Monthly := "monthly"
  const Top := "top"
  const Expired := "expired"

  datatype Panel = MonthlyPanel | TopPanel | ExpiredPanel

  /** The three `activeTab === ... &&` blocks, each tested on its own. */
  function VisiblePanels(activeTab: string): (ps: seq<Panel>)
    ensures MonthlyPanel in ps <==> activeTab == Monthly
    ensures TopPanel in ps <==> activeTab == Top
    ensures ExpiredPanel in ps <==> activeTab == Expired
    ensures |ps| <= 1
  {
    (if activeTab == Monthly then [MonthlyPanel] else []) +
    (if activeTab == Top then [TopPanel] else []) +
    (if activeTab == Expired then [ExpiredPanel] else [])
  }

  /** A button variant: the active tab's button is `default`, the others `ghost`. */
  predicate ButtonIsDefault(activeTab: string, tab: string) {
    activeTab == tab
  }

  /** On any of the three tabs exactly one panel shows, and its button is
      the only highlighted one. */
  lemma OnePanelPerTab(activeTab: string)
    requires activeTab in {Monthly, Top, Expired}
    ensures |VisiblePanels(activeTab)| == 1
    ensures |set tab | tab in {Monthly, Top, Expired} && ButtonIsDefault(activeTab, tab)| == 1
  {
    assert (set tab | tab in {Monthly, Top, Expired} && ButtonIsDefault(activeTab, tab)) == {activeTab};
  }

  /** The monthly panel: a bar and a row per line, with no total row. */
  datatype MonthlyPanelView = NoUsageData | UsageTable(rows: seq<UsageRow>)

  function MonthlyPanelOf(monthlyData: seq<UsageItem>): (v: MonthlyPanelView)
    ensures v.NoUsageData? <==> |monthlyData| == 0
    ensures v.UsageTable? ==> v.rows == UsageRows(monthlyData)
  {
    if |monthlyData| == 0 then NoUsageData else UsageTable(UsageRows(monthlyData))
  }

  /** A row of the most-used table: the rank `index + 1`, name, total used, category. */
  datatype RankRow = RankRow(rank: int, name: string, totalUsed: int, category: string)

  datatype TopPanelView = NoConsumptionData | RankTable(rows: seq<RankRow>)

  /** The most-used panel: the lines in the order the server ranked them,
      numbered from 1. */
  function TopPanelOf(topConsumed: seq<TopItem>): (v: TopPanelView)
    ensures v.NoConsumptionData? <==> |topConsumed| == 0
    ensures v.RankTable? ==> |v.rows| == |topConsumed|
    ensures v.RankTable? ==> forall i :: 0 <= i < |v.rows| ==>
      v.rows[i].rank == i + 1 && v.rows[i].name == topConsumed[i].name &&
      v.rows[i].totalUsed == topConsumed[i].totalUsed && v.rows[i].category == topConsumed[i].category
  {
    if |topConsumed| == 0 then NoConsumptionData
    else RankTable(seq(|topConsumed|, i requires 0 <= i < |topConsumed| =>
      RankRow(i + 1, topConsumed[i].name, topConsumed[i].totalUsed, topConsumed[i].category)))
  }

  /** The ranks run 1, 2, ... without gaps or repeats, the last being the
      number of lines. */
  lemma RanksAreConsecutive(topConsumed: seq<TopItem>)
    requires |topConsumed| > 0
    ensures TopPanelOf(topConsumed).rows[0].rank == 1
    ensures TopPanelOf(topConsumed).rows[|topConsumed| - 1].rank == |topConsumed|
    ensures forall i, j :: 0 <= i < j < |topConsumed| ==>
      TopPanelOf(topConsumed).rows[i].rank < TopPanelOf(topConsumed).rows[j].rank
  {
  }

  /** The wastage panel: a row per line, then "Total Wastage" with the value lost. */
  datatype ExpiredPanelView = NoExpiredMedicines | WastageTable(rows: seq<WastageRow>, totalWastage: int)

  function ExpiredPanelOf(expiredWastage: seq<WastageItem>): (v: ExpiredPanelView)
    ensures v.NoExpiredMedicines? <==> |expiredWastage| == 0
    ensures v.WastageTable? ==> v.rows == WastageRows(expiredWastage) && v.totalWastage == TotalWastage(expiredWastage)
  {
    if |expiredWastage| == 0 then NoExpiredMedicines
    else WastageTable(WastageRows(expiredWastage), TotalWastage(expiredWastage))
  }

  /** The "Total Wastage" row is the sum of the value-lost column above it. */
  lemma TotalWastageRowSumsColumn(expiredWastage: seq<WastageItem>)
    requires |expiredWastage| > 0
    ensures ExpiredPanelOf(expiredWastage).totalWastage == Sum(ExpiredPanelOf(expiredWastage).rows, RowValueLost)
  {
  }

  // ---------------------------------------------------------------------
  // The page

  /** The three requests, awaited together: if any fails, none of the three
      lists is set; otherwise each body's list may be missing (`|| []`). */
  datatype ReportsResponse =
    | RequestFailed
    | Received(usage: Option<seq<UsageItem>>, medicines: Option<seq<TopItem>>, wastage: Option<seq<WastageItem>>)

  class ReportsPage {
    var monthlyData: seq<UsageItem>
    var topConsumed: seq<TopItem>
    var expiredWastage: seq<WastageItem>
    var loading: bool
    var activeTab: string

    /** The active tab is always one of the three. */
    predicate Valid()
      reads this
    {
      activeTab in {Monthly, Top, Expired}
    }

    constructor()
      ensures Valid() && activeTab == Monthly && loading
      ensures monthlyData == [] && topConsumed == [] && expiredWastage == []
    {
      monthlyData := [];
      topConsumed := [];
      expiredWastage := [];
      loading := true;
      activeTab := Monthly;
    }

    /** `fetchReports`: all three lists from one answer, or none of them. */
    method FetchReports(response: ReportsResponse)
      requires Valid()
      modifies this
      ensures Valid() && !loading && activeTab == old(activeTab)
      ensures response.RequestFailed? ==>
        monthlyData == old(monthlyData) && topConsumed == old(topConsumed) && expiredWastage == old(expiredWastage)
      ensures response.Received? ==>
        monthlyData == response.usage.GetOr([]) && topConsumed == response.medicines.GetOr([]) &&
        expiredWastage == response.wastage.GetOr([])
    {
      if response.Received? {
        monthlyData := response.usage.GetOr([]);
        topConsumed := response.medicines.GetOr([]);
        expiredWastage := response.wastage.GetOr([]);
      }
      loading := false;
    }

    /** A tab button: `setActiveTab(tab)`. */
    method SetActiveTab(tab: string)
      requires Valid() && tab in {Monthly, Top, Expired}
      modifies this
      ensures Valid() && activeTab == tab
      ensures monthlyData == old(monthlyData) && topConsumed == old(topConsumed)
      ensures expiredWastage == old(expiredWastage) && loading == old(loading)
    {
      activeTab := tab;
    }
  }
}
