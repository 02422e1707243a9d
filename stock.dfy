/** Medicines and stock batches as the batch API returns them (each batch
    with its medicine populated), and the per-batch figures that both
    dashboards, the batch list and the inventory page compute from them:
    the low-stock threshold, the line value, the category and the medicine
    key, the three status filters and the "expiring soonest" list. */
module Stock {
  import opened Optional
  import opened Lists

  /** A calendar date, as a day number. */
  type Date = int

  /** A catalogue entry. Missing optional fields are `None`; a missing
      category is the empty string, which the two dashboards' `|| 'Unknown'`
      treats alike. */
  datatype Medicine = Medicine(
    id: string,
    name: string,
    genericName: string,
    category: string,
    manufacturer: string,
    description: Option<string>,
    price: Option<int>,
    minStockLevel: Option<int>)

  /** A stock batch. `medicine` is `None` when the batch's medicine was not
      populated (deleted or missing). */
  datatype Batch = Batch(
    id: string,
    medicine: Option<Medicine>,
    batchNumber: string,
    quantity: int,
    expiryDate: Date)

  /** The two date tests of the console's utility module, whose definitions
      lie outside this model; nothing is assumed about them. */
  datatype ExpiryRules = ExpiryRules(isExpired: Date -> bool, isExpiringSoon: Date -> bool)

  const DefaultMinStockLevel := 10

  /** `batch.medicine?.minStockLevel || 10`: the medicine's level, with 10
      for a missing medicine, a missing level and a level of 0 (which is
      falsy). A threshold of 0 therefore can never take effect. */
  function Threshold(b: Batch): (t: int)
    ensures t != 0
    ensures t == DefaultMinStockLevel <==>
      (b.medicine.None? || b.medicine.value.minStockLevel.None? ||
       b.medicine.value.minStockLevel.value in {0, DefaultMinStockLevel})
    ensures t != DefaultMinStockLevel ==> b.medicine.Some? && b.medicine.value.minStockLevel == Some(t)
  {
    match b.medicine
    case None => DefaultMinStockLevel
    case Some(m) =>
      match m.minStockLevel
      case None => DefaultMinStockLevel
      case Some(level) => if level == 0 then DefaultMinStockLevel else level
  }

  /** `b.quantity < (b.medicine?.minStockLevel || 10)`. */
  predicate IsLowStock(b: Batch) {
    b.quantity < Threshold(b)
  }

  /** `b.medicine?.price || 0`. */
  function EffectivePrice(b: Batch): int {
    if b.medicine.Some? then b.medicine.value.price.GetOr(0) else 0
  }

  /** `b.quantity * (b.medicine?.price || 0)`: the stock value of one batch. */
  function LineValue(b: Batch): int {
    b.quantity * EffectivePrice(b)
  }

  /** The inventory value: the line values of ALL batches, expired ones included. */
  function TotalValue(bs: seq<Batch>): int {
    Sum(bs, LineValue)
  }

  /** With no negative quantity or price, the inventory value is at least
      the value of any one batch. */
  lemma TotalValueBoundsLines(bs: seq<Batch>)
    requires forall i :: 0 <= i < |bs| ==> bs[i].quantity >= 0 && EffectivePrice(bs[i]) >= 0
    ensures TotalValue(bs) >= 0
    ensures forall i :: 0 <= i < |bs| ==> LineValue(bs[i]) <= TotalValue(bs)
  {
    forall i | 0 <= i < |bs| ensures LineValue(bs[i]) >= 0 {
      NonNegativeProduct(bs[i].quantity, EffectivePrice(bs[i]));
    }
    SumBoundsTerms(bs, LineValue);
  }

  lemma NonNegativeProduct(a: int, b: int)
    requires a >= 0 && b >= 0
    ensures a * b >= 0
  {
  }

  /** `batch.medicine?.category || 'Unknown'`. */
  function CategoryOf(b: Batch): string {
    if b.medicine.Some? && b.medicine.value.category != "" then b.medicine.value.category else "Unknown"
  }

  /** `b.medicine?._id`: `None` plays the part of `undefined`. */
  function MedicineKey(b: Batch): Option<string> {
    if b.medicine.Some? then Some(b.medicine.value.id) else None
  }

  ghost function MedicineKeys(bs: seq<Batch>): set<Option<string>> {
    set b | b in bs :: MedicineKey(b)
  }

  lemma {:induction false} MedicineKeysBound(bs: seq<Batch>)
    ensures |MedicineKeys(bs)| <= |bs|
    ensures |bs| > 0 ==> |MedicineKeys(bs)| > 0
  {
    if |bs| > 0 {
      MedicineKeysBound(bs[1..]);
      assert bs == [bs[0]] + bs[1..];
      assert MedicineKeys(bs) == {MedicineKey(bs[0])} + MedicineKeys(bs[1..]);
    }
  }

  /** `new Set(batches.map(b => b.medicine?._id)).size`: the number of
      distinct medicine ids, where every batch without a medicine counts
      under one shared `undefined` id. */
  function DistinctMedicines(bs: seq<Batch>): (n: nat)
    ensures n == |MedicineKeys(bs)|
    ensures n <= |bs|
    ensures n == 0 <==> |bs| == 0
  {
    MedicineKeysBound(bs);
    |set b | b in bs :: MedicineKey(b)|
  }

  /** Counting batch by batch: a further batch adds one medicine exactly
      when no earlier batch has its id (the undefined id included). */
  lemma DistinctMedicinesSnoc(bs: seq<Batch>, b: Batch)
    ensures DistinctMedicines(bs + [b]) ==
      DistinctMedicines(bs) + (if exists c :: c in bs && MedicineKey(c) == MedicineKey(b) then 0 else 1)
  {
    assert MedicineKeys(bs + [b]) == MedicineKeys(bs) + {MedicineKey(b)};
    if exists c :: c in bs && MedicineKey(c) == MedicineKey(b) {
      var c :| c in bs && MedicineKey(c) == MedicineKey(b);
      assert MedicineKey(b) in MedicineKeys(bs);
    } else {
      assert MedicineKey(b) !in MedicineKeys(bs);
    }
  }

  /** Batches that have no medicine are counted as ONE medicine together. */
  lemma UnpopulatedBatchesCountOnce(bs: seq<Batch>)
    requires |bs| > 0
    requires forall i :: 0 <= i < |bs| ==> bs[i].medicine.None?
    ensures DistinctMedicines(bs) == 1
  {
    assert (set b | b in bs :: MedicineKey(b)) == {None} by {
      assert MedicineKey(bs[0]) == None;
    }
  }

  function ExpiringSoonTest(rules: ExpiryRules): Batch -> bool {
    (b: Batch) => rules.isExpiringSoon(b.expiryDate)
  }

  function ExpiredTest(rules: ExpiryRules): Batch -> bool {
    (b: Batch) => rules.isExpired(b.expiryDate)
  }

  /** `batches.filter(b => b.quantity < (b.medicine?.minStockLevel || 10))`. */
  function LowStockBatches(bs: seq<Batch>): seq<Batch> {
    Filter(bs, IsLowStock)
  }

  /** `batches.filter(b => isExpiringSoon(b.expiryDate))`. */
  function ExpiringSoonBatches(bs: seq<Batch>, rules: ExpiryRules): seq<Batch> {
    Filter(bs, ExpiringSoonTest(rules))
  }

  /** `batches.filter(b => isExpired(b.expiryDate))`. */
  function ExpiredBatches(bs: seq<Batch>, rules: ExpiryRules): seq<Batch> {
    Filter(bs, ExpiredTest(rules))
  }

  function ExpiryKey(b: Batch): int {
    b.expiryDate
  }

  const ExpiringListLength: nat := 5

  /** `[...expiringSoonBatches].sort(by expiry).slice(0, 5)`: at most five
      expiring-soon batches, soonest first; there are fewer than five only
      when fewer batches are expiring soon. */
  function TopExpiring(bs: seq<Batch>, rules: ExpiryRules): (r: seq<Batch>)
    ensures |r| <= ExpiringListLength
    ensures |r| == ExpiringListLength || |r| == |ExpiringSoonBatches(bs, rules)|
    ensures SortedBy(r, ExpiryKey)
    ensures forall b :: b in r ==> b in bs && rules.isExpiringSoon(b.expiryDate)
    ensures multiset(r) <= multiset(ExpiringSoonBatches(bs, rules))
    ensures |ExpiringSoonBatches(bs, rules)| <= ExpiringListLength ==>
              multiset(r) == multiset(ExpiringSoonBatches(bs, rules))
  {
    var soon := ExpiringSoonBatches(bs, rules);
    FirstNOfSorted(soon, ExpiringListLength, ExpiryKey);
    FirstN(SortBy(soon, ExpiryKey), ExpiringListLength)
  }

  /** The list really holds the SOONEST expiring batches: an expiring-soon
      batch that expires strictly before a listed one is listed too. */
  lemma TopExpiringAreSoonest(bs: seq<Batch>, rules: ExpiryRules, x: Batch, y: Batch)
    requires x in TopExpiring(bs, rules)
    requires y in bs && rules.isExpiringSoon(y.expiryDate)
    requires y.expiryDate < x.expiryDate
    ensures y in TopExpiring(bs, rules)
  {
    var soon := ExpiringSoonBatches(bs, rules);
    var sorted := SortBy(soon, ExpiryKey);
    var r := TopExpiring(bs, rules);
    assert r == FirstN(sorted, ExpiringListLength);
    assert y in multiset(sorted);
    var j :| 0 <= j < |sorted| && sorted[j] == y;
    var i :| 0 <= i < |r| && r[i] == x;
    assert sorted[i] == x;
    assert r[j] == y;
  }

  /** Milliseconds in a day: `1000 * 60 * 60 * 24`. */
  const MsPerDay := 86400000

  /** `Math.ceil(n / d)` for a positive divisor. */
  function CeilDiv(n: int, d: int): (q: int)
    requires d > 0
    ensures (q - 1) * d < n <= q * d
  {
    -((-n) / d)
  }

  /** `Math.ceil((new Date(expiryDate) - new Date()) / (1000 * 60 * 60 * 24))`:
      whole days left until the expiry date's midnight, counting a part of a
      day as a day; `now` is the clock reading in milliseconds. */
  function DaysLeft(expiry: Date, now: int): int {
    CeilDiv(expiry * MsPerDay - now, MsPerDay)
  }

  /** At the clock reading `now`, the expiry lies within `DaysLeft` days and
      more than one day less: exactly the rounding up of the remaining time. */
  lemma DaysLeftBounds(expiry: Date, now: int)
    ensures (DaysLeft(expiry, now) - 1) * MsPerDay < expiry * MsPerDay - now <= DaysLeft(expiry, now) * MsPerDay
    ensures now == expiry * MsPerDay ==> DaysLeft(expiry, now) == 0
    ensures now < expiry * MsPerDay ==> DaysLeft(expiry, now) >= 1
  {
  }

  /** `day{daysLeft !== 1 ? 's' : ''}`. */
  function DayWord(daysLeft: int): (w: string)
    ensures w == "day" <==> daysLeft == 1
  {
    if daysLeft != 1 then "days" else "day"
  }
}
