/** The analytics dashboard of the reports area: the six stock figures, the
    five batches expiring soonest, the value of the stock per category and
    the stock-status chart, all computed in the browser from the batch list. */
module ReportsDashboard {
  import opened Optional
  import opened Lists
  import opened Stock
  import BatchList

  datatype DashboardStats = DashboardStats(
    totalMedicines: int,
    lowStock: int,
    expiringSoon: int,
    totalValue: int,
    totalBatches: int,
    expiredBatches: int)

  /** The figures shown before the batches arrive, and kept when the request fails. */
  const InitialStats := DashboardStats(0, 0, 0, 0, 0, 0)

  /** The six figures of the stats cards. Each alert figure is the length of
      its filter, so it counts every batch (repeats included) that passes the
      test; every count is bounded by the number of batches, and there are
      medicines exactly when there are batches. */
  function ComputeStats(bs: seq<Batch>, rules: ExpiryRules): (s: DashboardStats)
    ensures s.totalBatches == |bs|
    ensures 0 <= s.lowStock <= |bs| && 0 <= s.expiringSoon <= |bs| && 0 <= s.expiredBatches <= |bs|
    ensures s.lowStock == |LowStockBatches(bs)| && s.expiringSoon == |ExpiringSoonBatches(bs, rules)|
    ensures s.expiredBatches == |ExpiredBatches(bs, rules)|
    ensures 0 <= s.totalMedicines <= |bs| && (s.totalMedicines == 0 <==> |bs| == 0)
    ensures s.totalMedicines == DistinctMedicines(bs)
    ensures s.totalValue == Sum(bs, LineValue)
  {
    DashboardStats(
      DistinctMedicines(bs),
      |LowStockBatches(bs)|,
      |ExpiringSoonBatches(bs, rules)|,
      TotalValue(bs),
      |bs|,
      |ExpiredBatches(bs, rules)|)
  }

  // ---------------------------------------------------------------------
  // Value per category

  /** One slice of the category chart: `{ name, value, count }`. */
  datatype CategoryEntry = CategoryEntry(name: string, value: int, count: int)

  function EntryValue(e: CategoryEntry): int { e.value }

  function EntryCount(e: CategoryEntry): int { e.count }

  function CategoryIs(c: string): Batch -> bool {
    (b: Batch) => CategoryOf(b) == c
  }

  /** The batches whose category is `c`. */
  function InCategory(bs: seq<Batch>, c: string): seq<Batch> {
    Filter(bs, CategoryIs(c))
  }

  /** What the chart should show for category `c`: the total value and the
      number of its batches. */
  function Entry(c: string, bs: seq<Batch>): CategoryEntry {
    CategoryEntry(c, Sum(InCategory(bs, c), LineValue), |InCategory(bs, c)|)
  }

  /** The category of each batch, in batch order. */
  function Categories(bs: seq<Batch>): seq<string> {
    seq(|bs|, k requires 0 <= k < |bs| => CategoryOf(bs[k]))
  }

  predicate NoDuplicates(s: seq<string>) {
    forall i, j :: 0 <= i < j < |s| ==> s[i] != s[j]
  }

  /** The values of `s` without repetitions, in order of first occurrence. */
  function Distinct(s: seq<string>): (d: seq<string>)
    ensures forall x :: x in d <==> x in s
    ensures NoDuplicates(d)
    ensures |d| <= |s| && (|d| == 0 <==> |s| == 0)
  {
    if |s| == 0 then []
    else
      var d := Distinct(s[..|s| - 1]);
      assert s == s[..|s| - 1] + [s[|s| - 1]];
      if s[|s| - 1] in d then d else d + [s[|s| - 1]]
  }

  function Entries(names: seq<string>, bs: seq<Batch>): seq<CategoryEntry> {
    seq(|names|, k requires 0 <= k < |names| => Entry(names[k], bs))
  }

  /** The chart data as it should be: one entry per category, in order of
      the category's first batch. */
  function CategorySpec(bs: seq<Batch>): seq<CategoryEntry> {
    Entries(Distinct(Categories(bs)), bs)
  }

  lemma CategoriesSnoc(p: seq<Batch>, b: Batch)
    ensures Categories(p + [b]) == Categories(p) + [CategoryOf(b)]
  {
  }

  lemma DistinctSnoc(s: seq<string>, x: string)
    ensures Distinct(s + [x]) == if x in Distinct(s) then Distinct(s) else Distinct(s) + [x]
  {
    assert (s + [x])[..|s|] == s;
  }

  /** Appending a batch changes the entry of its own category only, by its
      line value and by one batch. */
  lemma EntryExtend(c: string, p: seq<Batch>, b: Batch)
    ensures Entry(c, p + [b]) ==
      if CategoryOf(b) == c then CategoryEntry(c, Entry(c, p).value + LineValue(b), Entry(c, p).count + 1)
      else Entry(c, p)
  {
    FilterAppend(p, [b], CategoryIs(c));
    SumAppend(InCategory(p, c), Filter([b], CategoryIs(c)), LineValue);
    assert Filter([b], CategoryIs(c)) == if CategoryOf(b) == c then [b] else [] by {
      assert [b][1..] == [];
    }
  }

  /** A category no batch has gets an empty entry. */
  lemma EntryAbsent(c: string, p: seq<Batch>)
    requires c !in Categories(p)
    ensures Entry(c, p) == CategoryEntry(c, 0, 0)
  {
    forall x | x in p ensures !CategoryIs(c)(x) {
      var i :| 0 <= i < |p| && p[i] == x;
      assert Categories(p)[i] == CategoryOf(x);
    }
    FilterNone(p, CategoryIs(c));
  }

  /** `categoryMap` and the order of its keys hold the entries of exactly
      the categories met in `prefix`, each with its value and count so far. */
  ghost predicate Tally(categoryMap: map<string, CategoryEntry>, order: seq<string>, prefix: seq<Batch>) {
    order == Distinct(Categories(prefix)) &&
    (forall c :: c in categoryMap <==> c in order) &&
    EntriesHold(categoryMap, prefix)
  }

  /** `categoryMap[category].value += ...; categoryMap[category].count += 1`. */
  function AddBatch(e: CategoryEntry, batch: Batch): CategoryEntry {
    e.(value := e.value + LineValue(batch), count := e.count + 1)
  }

  /** Every entry of `categoryMap` is the entry of its category over `prefix`. */
  ghost predicate EntriesHold(categoryMap: map<string, CategoryEntry>, prefix: seq<Batch>) {
    forall c :: c in categoryMap ==> categoryMap[c] == Entry(c, prefix)
  }

  /** Adding a batch to the entry of its category keeps the entries right. */
  lemma AddBatchHolds(categoryMap: map<string, CategoryEntry>, prefix: seq<Batch>, batch: Batch)
    requires EntriesHold(categoryMap, prefix) && CategoryOf(batch) in categoryMap
    ensures EntriesHold(categoryMap[CategoryOf(batch) := AddBatch(categoryMap[CategoryOf(batch)], batch)], prefix + [batch])
  {
    var m' := categoryMap[CategoryOf(batch) := AddBatch(categoryMap[CategoryOf(batch)], batch)];
    forall c | c in m' ensures m'[c] == Entry(c, prefix + [batch]) {
      EntryExtend(c, prefix, batch);
    }
  }

  /** The body of the `forEach` callback: create the entry of the batch's
      category the first time it is met, then add the batch's line value
      and one batch to it. */
  method CountBatch(categoryMap: map<string, CategoryEntry>, order: seq<string>, ghost prefix: seq<Batch>, batch: Batch)
    returns (categoryMap': map<string, CategoryEntry>, order': seq<string>)
    requires Tally(categoryMap, order, prefix)
    ensures Tally(categoryMap', order', prefix + [batch])
  {
    var category := CategoryOf(batch);
    categoryMap', order' := categoryMap, order;
    if category !in categoryMap' {
      categoryMap' := categoryMap'[category := CategoryEntry(category, 0, 0)];
      order' := order' + [category];
      CountNewCategory(categoryMap, order, prefix, batch);
    } else {
      CountKnownCategory(categoryMap, order, prefix, batch);
    }
    categoryMap' := categoryMap'[category := AddBatch(categoryMap'[category], batch)];
  }

  /** A batch of a category already in the map updates that entry only. */
  lemma CountKnownCategory(categoryMap: map<string, CategoryEntry>, order: seq<string>, prefix: seq<Batch>, batch: Batch)
    requires Tally(categoryMap, order, prefix) && CategoryOf(batch) in categoryMap
    ensures Tally(categoryMap[CategoryOf(batch) := AddBatch(categoryMap[CategoryOf(batch)], batch)], order, prefix + [batch])
  {
    CategoriesSnoc(prefix, batch);
    DistinctSnoc(Categories(prefix), CategoryOf(batch));
    AddBatchHolds(categoryMap, prefix, batch);
  }

  /** A batch of a category not met before creates its entry, appended to
      the key order, and counts in it. */
  lemma CountNewCategory(categoryMap: map<string, CategoryEntry>, order: seq<string>, prefix: seq<Batch>, batch: Batch)
    requires Tally(categoryMap, order, prefix) && CategoryOf(batch) !in categoryMap
    ensures var c := CategoryOf(batch);
      var created := categoryMap[c := CategoryEntry(c, 0, 0)];
      Tally(created[c := AddBatch(created[c], batch)], order + [c], prefix + [batch])
  {
    var c := CategoryOf(batch);
    var created := categoryMap[c := CategoryEntry(c, 0, 0)];
    CategoriesSnoc(prefix, batch);
    DistinctSnoc(Categories(prefix), c);
    EntryAbsent(c, prefix);
    assert EntriesHold(created, prefix);
    AddBatchHolds(created, prefix, batch);
  }

  /** The `categoryMap` loop: one pass over the batches, tallying each
      batch under its category; `Object.values` then lists the entries in
      the order they were created. */
  method CategoryDistribution(batches: seq<Batch>) returns (data: seq<CategoryEntry>)
    ensures data == CategorySpec(batches)
  {
    var categoryMap: map<string, CategoryEntry> := map[];
    var order: seq<string> := [];
    var i := 0;
    while i < |batches|
      invariant 0 <= i <= |batches|
      invariant Tally(categoryMap, order, batches[..i])
    {
      assert batches[..i + 1] == batches[..i] + [batches[i]];
      categoryMap, order := CountBatch(categoryMap, order, batches[..i], batches[i]);
      i := i + 1;
    }
    assert batches[..i] == batches;
    data := seq(|order|, k requires 0 <= k < |order| => categoryMap[order[k]]);
  }

  /** Adding a batch to the stock adds one to the total count over any list
      of distinct category names that holds its category, and nothing
      otherwise. */
  lemma {:induction false} EntriesCountExtend(names: seq<string>, p: seq<Batch>, b: Batch)
    requires NoDuplicates(names)
    ensures Sum(Entries(names, p + [b]), EntryCount) ==
      Sum(Entries(names, p), EntryCount) + (if CategoryOf(b) in names then 1 else 0)
  {
    if |names| > 0 {
      NoDuplicatesTail(names);
      EntriesCountExtend(names[1..], p, b);
      EntryExtend(names[0], p, b);
      EntriesCons(names, p + [b]);
      EntriesCons(names, p);
      InHeadOrTail(names, CategoryOf(b));
    }
  }

  /** Likewise the total value grows by the batch's line value exactly when
      its category is listed. */
  lemma {:induction false} EntriesValueExtend(names: seq<string>, p: seq<Batch>, b: Batch)
    requires NoDuplicates(names)
    ensures Sum(Entries(names, p + [b]), EntryValue) ==
      Sum(Entries(names, p), EntryValue) + (if CategoryOf(b) in names then LineValue(b) else 0)
  {
    if |names| > 0 {
      NoDuplicatesTail(names);
      EntriesValueExtend(names[1..], p, b);
      EntryExtend(names[0], p, b);
      EntriesCons(names, p + [b]);
      EntriesCons(names, p);
      InHeadOrTail(names, CategoryOf(b));
    }
  }

  lemma InHeadOrTail(names: seq<string>, c: string)
    requires |names| > 0
    ensures c in names <==> c == names[0] || c in names[1..]
  {
    assert names == [names[0]] + names[1..];
  }

  /** Without repetitions, the head is not in the tail, which has no
      repetitions either. */
  lemma NoDuplicatesTail(names: seq<string>)
    requires NoDuplicates(names) && |names| > 0
    ensures NoDuplicates(names[1..]) && names[0] !in names[1..]
  {
    assert forall i :: 0 <= i < |names[1..]| ==> names[1..][i] == names[i + 1];
  }

  /** The sums over the entries of a list of names, split at its head. */
  lemma EntriesCons(names: seq<string>, bs: seq<Batch>)
    requires |names| > 0
    ensures Sum(Entries(names, bs), EntryCount) == Entry(names[0], bs).count + Sum(Entries(names[1..], bs), EntryCount)
    ensures Sum(Entries(names, bs), EntryValue) == Entry(names[0], bs).value + Sum(Entries(names[1..], bs), EntryValue)
  {
    assert Entries(names, bs)[1..] == Entries(names[1..], bs);
  }

  /** The category chart accounts for every batch exactly once and for the
      whole inventory value: its counts add up to the number of batches and
      its values to the inventory value. */
  lemma {:induction false} CategoryTotals(bs: seq<Batch>)
    ensures Sum(CategorySpec(bs), EntryCount) == |bs|
    ensures Sum(CategorySpec(bs), EntryValue) == TotalValue(bs)
  {
    if |bs| > 0 {
      var p, b := bs[..|bs| - 1], bs[|bs| - 1];
      assert bs == p + [b];
      CategoryTotals(p);
      SumAppend(p, [b], LineValue);
      CategoriesSnoc(p, b);
      var names := Distinct(Categories(p));
      var c := CategoryOf(b);
      DistinctSnoc(Categories(p), c);
      EntriesCountExtend(names, p, b);
      EntriesValueExtend(names, p, b);
      if c !in names {
        NewCategoryEntry(names, p, b);
      }
    }
  }

  /** A batch of a category not met before adds an entry holding just that
      batch: one more batch and its line value. */
  lemma NewCategoryEntry(names: seq<string>, p: seq<Batch>, b: Batch)
    requires CategoryOf(b) !in Categories(p)
    ensures Sum(Entries(names + [CategoryOf(b)], p + [b]), EntryCount) == Sum(Entries(names, p + [b]), EntryCount) + 1
    ensures Sum(Entries(names + [CategoryOf(b)], p + [b]), EntryValue) == Sum(Entries(names, p + [b]), EntryValue) + LineValue(b)
  {
    var c, bs := CategoryOf(b), p + [b];
    assert Entries(names + [c], bs) == Entries(names, bs) + [Entry(c, bs)];
    SumAppend(Entries(names, bs), [Entry(c, bs)], EntryCount);
    SumAppend(Entries(names, bs), [Entry(c, bs)], EntryValue);
    EntryAbsent(c, p);
    EntryExtend(c, p, b);
  }

  /** Every chart entry names a category some batch has, no category is
      listed twice, and every batch's category is listed; so the chart is
      empty ("No category data available") exactly when there are no
      batches. */
  lemma CategoryNames(bs: seq<Batch>)
    ensures NoDuplicates(Distinct(Categories(bs)))
    ensures forall k :: 0 <= k < |CategorySpec(bs)| ==> CategorySpec(bs)[k].name in Categories(bs)
    ensures forall i :: 0 <= i < |bs| ==> exists k :: 0 <= k < |CategorySpec(bs)| && CategorySpec(bs)[k].name == CategoryOf(bs[i])
    ensures |CategorySpec(bs)| <= |bs|
    ensures |CategorySpec(bs)| == 0 <==> |bs| == 0
  {
    var names := Distinct(Categories(bs));
    forall i | 0 <= i < |bs|
      ensures exists k :: 0 <= k < |CategorySpec(bs)| && CategorySpec(bs)[k].name == CategoryOf(bs[i])
    {
      assert Categories(bs)[i] == CategoryOf(bs[i]);
      assert CategoryOf(bs[i]) in names;
      var k :| 0 <= k < |names| && names[k] == CategoryOf(bs[i]);
      assert CategorySpec(bs)[k].name == CategoryOf(bs[i]);
    }
  }

  // ---------------------------------------------------------------------
  // The stock-status chart

  /** The "Good Stock" bar as written: the batch count less the three alert
      counts. A batch that is in two alert groups is subtracted twice. */
  function GoodStockAsWritten(s: DashboardStats): int {
    s.totalBatches - s.lowStock - s.expiringSoon - s.expiredBatches
  }

  /** The four bars the chart draws, as written: "Good Stock" from the
      subtraction, the other three straight from the figures. They always
      add up to the batch count, but a batch in two alert groups is counted
      in both and "Good Stock" then falls below zero. */
  function StatusBars(s: DashboardStats): (r: StatusBreakdown)
    ensures r.good + r.lowStock + r.expiringSoon + r.expired == s.totalBatches
    ensures r.lowStock == s.lowStock && r.expiringSoon == s.expiringSoon && r.expired == s.expiredBatches
    ensures r.good < 0 <==> s.lowStock + s.expiringSoon + s.expiredBatches > s.totalBatches
  {
    StatusBreakdown(GoodStockAsWritten(s), s.lowStock, s.expiringSoon, s.expiredBatches)
  }

  const AlwaysExpiringSoon := ExpiryRules((d: Date) => false, (d: Date) => true)

  /** A batch without a medicine (threshold 10) holding 0 units. */
  const EmptyUnlinkedBatch := Batch("b1", None, "B-1", 0, 0)

  /** One batch that is both low on stock and expiring soon drives the
      "Good Stock" bar to -1. */
  lemma GoodStockCanBeNegative()
    ensures GoodStockAsWritten(ComputeStats([EmptyUnlinkedBatch], AlwaysExpiringSoon)) == -1
  {
    var bs := [EmptyUnlinkedBatch];
    assert bs[1..] == [];
    assert LowStockBatches(bs) == bs;
    assert ExpiringSoonBatches(bs, AlwaysExpiringSoon) == bs;
    assert ExpiredBatches(bs, AlwaysExpiringSoon) == [];
  }

  /** The four stacked bars, each batch counted once, under the label the
      batch table gives it. */
  datatype StatusBreakdown = StatusBreakdown(good: int, lowStock: int, expiringSoon: int, expired: int)

  function LabelIs(rules: ExpiryRules, badge: BatchList.StatusBadge): Batch -> bool {
    (b: Batch) => BatchList.GetBatchStatus(b, rules) == badge
  }

  /** The stock-status chart with every batch in exactly one bar. */
  function StatusChart(bs: seq<Batch>, rules: ExpiryRules): StatusBreakdown {
    StatusBreakdown(
      |Filter(bs, LabelIs(rules, BatchList.GoodBadge))|,
      |Filter(bs, LabelIs(rules, BatchList.LowStockBadge))|,
      |Filter(bs, LabelIs(rules, BatchList.ExpiringSoonBadge))|,
      |Filter(bs, LabelIs(rules, BatchList.ExpiredBadge))|)
  }

  /** The four bars are never negative and add up to the number of batches. */
  lemma {:induction false} StatusChartPartitions(bs: seq<Batch>, rules: ExpiryRules)
    ensures var c := StatusChart(bs, rules);
      c.good >= 0 && c.lowStock >= 0 && c.expiringSoon >= 0 && c.expired >= 0 &&
      c.good + c.lowStock + c.expiringSoon + c.expired == |bs|
  {
    if |bs| > 0 {
      StatusChartPartitions(bs[1..], rules);
    }
  }

  /** The expired bar is the "Expired" figure; the other two alert bars are
      at most their figures. When no batch is in two alert groups the chart
      agrees with the figures, "Good Stock" included. */
  lemma StatusChartMatchesStats(bs: seq<Batch>, rules: ExpiryRules)
    ensures StatusChart(bs, rules).expired == ComputeStats(bs, rules).expiredBatches
    ensures StatusChart(bs, rules).expiringSoon <= ComputeStats(bs, rules).expiringSoon
    ensures StatusChart(bs, rules).lowStock <= ComputeStats(bs, rules).lowStock
    ensures (forall b :: b in bs ==>
               (rules.isExpired(b.expiryDate) ==> !rules.isExpiringSoon(b.expiryDate) && !IsLowStock(b)) &&
               (rules.isExpiringSoon(b.expiryDate) ==> !IsLowStock(b))) ==>
            StatusChart(bs, rules).good == GoodStockAsWritten(ComputeStats(bs, rules)) &&
            StatusChart(bs, rules).lowStock == ComputeStats(bs, rules).lowStock &&
            StatusChart(bs, rules).expiringSoon == ComputeStats(bs, rules).expiringSoon
  {
    FilterCongruent(bs, LabelIs(rules, BatchList.ExpiredBadge), ExpiredTest(rules));
    FilterMonotone(bs, LabelIs(rules, BatchList.ExpiringSoonBadge), ExpiringSoonTest(rules));
    FilterMonotone(bs, LabelIs(rules, BatchList.LowStockBadge), IsLowStock);
    StatusChartPartitions(bs, rules);
    if forall b :: b in bs ==>
         (rules.isExpired(b.expiryDate) ==> !rules.isExpiringSoon(b.expiryDate) && !IsLowStock(b)) &&
         (rules.isExpiringSoon(b.expiryDate) ==> !IsLowStock(b))
    {
      FilterCongruent(bs, LabelIs(rules, BatchList.ExpiringSoonBadge), ExpiringSoonTest(rules));
      FilterCongruent(bs, LabelIs(rules, BatchList.LowStockBadge), IsLowStock);
    }
  }

  /** When no batch is in two alert groups, the bars drawn from the figures
      are the corrected chart, bar for bar. */
  lemma RenderedBarsMatchChart(bs: seq<Batch>, rules: ExpiryRules)
    requires forall b :: b in bs ==>
      (rules.isExpired(b.expiryDate) ==> !rules.isExpiringSoon(b.expiryDate) && !IsLowStock(b)) &&
      (rules.isExpiringSoon(b.expiryDate) ==> !IsLowStock(b))
    ensures StatusBars(ComputeStats(bs, rules)) == StatusChart(bs, rules)
  {
    StatusChartMatchesStats(bs, rules);
  }

  // ---------------------------------------------------------------------
  // The page

  /** The batch request: it fails (the page keeps its figures), or it
      answers with a body whose `batches` field may be missing (`|| []`). */
  datatype BatchesResponse = RequestFailed | Received(batches: Option<seq<Batch>>)

  class DashboardPage {
    var stats: DashboardStats
    var expiringBatches: seq<Batch>
    var categoryData: seq<CategoryEntry>
    var loading: bool

    /** The page as first rendered: zero figures, empty lists, the spinner. */
    constructor()
      ensures stats == InitialStats && expiringBatches == [] && categoryData == [] && loading
    {
      stats := InitialStats;
      expiringBatches := [];
      categoryData := [];
      loading := true;
    }

    /** `fetchDashboardData`: on an answer, the figures and both lists are
        recomputed from the batches; on a failure nothing but the spinner
        changes. Either way the spinner goes. The status chart is not state:
        it is drawn from `stats` (`StatusBars`). */
    method FetchDashboardData(response: BatchesResponse, rules: ExpiryRules)
      modifies this
      ensures !loading
      ensures response.RequestFailed? ==>
        stats == old(stats) && expiringBatches == old(expiringBatches) &&
        categoryData == old(categoryData)
      ensures response.Received? ==> stats == ComputeStats(response.batches.GetOr([]), rules)
      ensures response.Received? ==> expiringBatches == TopExpiring(response.batches.GetOr([]), rules)
      ensures response.Received? ==> categoryData == CategorySpec(response.batches.GetOr([]))
    {
      if response.Received? {
        var batches := response.batches.GetOr([]);
        SetStats(ComputeStats(batches, rules));
        SetExpiringBatches(TopExpiring(batches, rules));
        var data := CategoryDistribution(batches);
        SetCategoryData(data);
      }
      loading := false;
    }

    /** The state setters `setStats`, `setExpiringBatches` and
        `setCategoryData`: each replaces one piece of state. */
    method SetStats(s: DashboardStats)
      modifies this
      ensures stats == s && expiringBatches == old(expiringBatches) && categoryData == old(categoryData)
      ensures loading == old(loading)
    {
      stats := s;
    }

    method SetExpiringBatches(bs: seq<Batch>)
      modifies this
      ensures expiringBatches == bs && stats == old(stats) && categoryData == old(categoryData)
      ensures loading == old(loading)
    {
      expiringBatches := bs;
    }

    method SetCategoryData(data: seq<CategoryEntry>)
      modifies this
      ensures categoryData == data && stats == old(stats) && expiringBatches == old(expiringBatches)
      ensures loading == old(loading)
    {
      categoryData := data;
    }
  }
}
