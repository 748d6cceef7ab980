/**
 * The post-query arithmetic of the engagement scorers and the ranker of
 * src/shared/recommendations/scoring.ts. The SQL aggregation is not modelled: each
 * scorer receives the per-category metric rows and the preferred category ids the
 * queries would return. Scores are `real`; floating-point rounding is not modelled.
 */
module Scoring {

  // ---------------------------------------------------------------------------
  // Inputs
  // ---------------------------------------------------------------------------

  /** One row of a metrics query: a category id with its click count and dwell time. */
  datatype MetricRow = MetricRow(typeId: int, clicks: real, dwellTime: real)

  /** An item to score: its id and the id of its category (venue, event or promotion type). */
  datatype ScoreItem = ScoreItem(id: int, typeId: int)

  /** Which of the two engagement signals of a row is meant. */
  datatype Signal = Clicks | Dwell

  function Value(row: MetricRow, signal: Signal): real
  {
    match signal
    case Clicks => row.clicks
    case Dwell => row.dwellTime
  }

  /** Metric rows whose click counts and dwell times are not negative. */
  predicate NonNegative(rows: seq<MetricRow>)
  {
    forall i :: 0 <= i < |rows| ==> rows[i].clicks >= 0.0 && rows[i].dwellTime >= 0.0
  }

  // ---------------------------------------------------------------------------
  // Specification functions
  // ---------------------------------------------------------------------------

  /** `rows.reduce((acc, cur) => acc + Number(cur.<signal>), 0)`, summed left to right. */
  function Total(rows: seq<MetricRow>, signal: Signal): real
  {
    if rows == [] then 0.0 else Total(rows[..|rows| - 1], signal) + Value(rows[|rows| - 1], signal)
  }

  /** `total > 0 ? part / total : 0`. */
  function Share(part: real, total: real): real
  {
    if total > 0.0 then part / total else 0.0
  }

  /** `(weights[id] || 0)`: an id without an entry weighs 0. */
  function Lookup(weights: map<int, real>, id: int): real
  {
    if id in weights then weights[id] else 0.0
  }

  /**
   * The weights filled by `rows.forEach((row) => weights[row.id] = share)`: each row's
   * share of `total`, a later row with the same id overwriting an earlier one.
   */
  function RowShares(rows: seq<MetricRow>, signal: Signal, total: real): map<int, real>
  {
    if rows == [] then map[]
    else
      var last := rows[|rows| - 1];
      RowShares(rows[..|rows| - 1], signal, total)[last.typeId := Share(Value(last, signal), total)]
  }

  /** `sums[type] = (sums[type] || 0) + value` for each row in turn, starting from `sums`. */
  function MergeInto(sums: map<int, real>, rows: seq<MetricRow>, signal: Signal): map<int, real>
  {
    if rows == [] then sums
    else
      var before := MergeInto(sums, rows[..|rows| - 1], signal);
      var last := rows[|rows| - 1];
      before[last.typeId := Lookup(before, last.typeId) + Value(last, signal)]
  }

  /** `Object.entries(sums).forEach(([id, count]) => weights[id] = share)`. */
  function KeyShares(sums: map<int, real>, total: real): map<int, real>
  {
    map t | t in sums :: Share(sums[t], total)
  }

  /** `new Set(preferences.map((row) => row.typeId))`. */
  function PreferenceSet(preferences: seq<int>): set<int>
  {
    set k | 0 <= k < |preferences| :: preferences[k]
  }

  /** `totalClicks < 200 || totalDwellTime < 1000 * 60 * 2`. */
  predicate IsNewAccount(totalClicks: real, totalDwellTime: real)
  {
    totalClicks < 200.0 || totalDwellTime < 120000.0
  }

  /**
   * The weighted sum: 30% click share, 45% dwell share, 25% for a preferred category.
   * The weights add up to 1, so shares in [0, 1] give a score in [0, 1].
   */
  function RawScore(clickWeight: real, dwellWeight: real, preferred: bool): (r: real)
    ensures 0.0 <= clickWeight <= 1.0 && 0.0 <= dwellWeight <= 1.0 ==> 0.0 <= r <= 1.0
    ensures 0.0 <= clickWeight && 0.0 <= dwellWeight && preferred ==> r >= 0.25
    ensures clickWeight == 0.0 && dwellWeight == 0.0 ==> (r == 0.0 <==> !preferred)
  {
    clickWeight * 0.3 + dwellWeight * 0.45 + (if preferred then 0.25 else 0.0)
  }

  /**
   * The cold-start blend: a new account's score is pulled towards 1 by `0.6·raw + 0.4`;
   * it stays in [0, 1], never decreases and is at least 0.4.
   */
  function FinalScore(raw: real, newAccount: bool): (f: real)
    ensures !newAccount ==> f == raw
    ensures 0.0 <= raw <= 1.0 ==> raw <= f <= 1.0
    ensures newAccount && raw >= 0.0 ==> f >= 0.4
    ensures newAccount && raw < 1.0 ==> f > raw
  {
    if newAccount then raw * 0.6 + 0.4 else raw
  }

  /** The score of one item from the two weight maps, the preferences and the account age. */
  function ItemScore(item: ScoreItem, clickWeights: map<int, real>, dwellWeights: map<int, real>,
                     preferred: set<int>, newAccount: bool): real
  {
    FinalScore(RawScore(Lookup(clickWeights, item.typeId), Lookup(dwellWeights, item.typeId),
                        item.typeId in preferred), newAccount)
  }

  /** `items.forEach((item) => results[item.id] = score)`: a later item with the same id wins. */
  function ItemScores(items: seq<ScoreItem>, clickWeights: map<int, real>, dwellWeights: map<int, real>,
                      preferred: set<int>, newAccount: bool): map<int, real>
  {
    if items == [] then map[]
    else
      var last := items[|items| - 1];
      ItemScores(items[..|items| - 1], clickWeights, dwellWeights, preferred, newAccount)
        [last.id := ItemScore(last, clickWeights, dwellWeights, preferred, newAccount)]
  }

  /** What `scoreVenueItems` and `scorePromotionItem` return for these rows, preferences and items. */
  function CategoryScores(rows: seq<MetricRow>, preferences: seq<int>, items: seq<ScoreItem>): map<int, real>
  {
    var totalClicks := Total(rows, Clicks);
    var totalDwell := Total(rows, Dwell);
    ItemScores(items, RowShares(rows, Clicks, totalClicks), RowShares(rows, Dwell, totalDwell),
               PreferenceSet(preferences), IsNewAccount(totalClicks, totalDwell))
  }

  /**
   * What `scoreEventItems` returns: event rows and performer rows both count towards
   * the totals and are merged per event type before the shares are taken.
   */
  function EventScores(eventRows: seq<MetricRow>, performerRows: seq<MetricRow>, preferences: seq<int>,
                       items: seq<ScoreItem>): map<int, real>
  {
    var rows := eventRows + performerRows;
    var totalClicks := Total(rows, Clicks);
    var totalDwell := Total(rows, Dwell);
    ItemScores(items, KeyShares(MergeInto(map[], rows, Clicks), totalClicks),
               KeyShares(MergeInto(map[], rows, Dwell), totalDwell),
               PreferenceSet(preferences), IsNewAccount(totalClicks, totalDwell))
  }

  // ---------------------------------------------------------------------------
  // The scorers
  // ---------------------------------------------------------------------------

  /** One `reduce` over the rows: the sum of the chosen signal. */
  method SumSignal(rows: seq<MetricRow>, signal: Signal) returns (total: real)
    ensures total == Total(rows, signal)
  {
    total := 0.0;
    for i := 0 to |rows|
      invariant total == Total(rows[..i], signal)
    {
      assert rows[..i + 1][..i] == rows[..i];
      total := total + Value(rows[i], signal);
    }
    assert rows[..|rows|] == rows;
  }

  /** The `preferences.forEach((row) => preferenceWeights.add(row.typeId))` loop. */
  method CollectPreferences(preferences: seq<int>) returns (preferred: set<int>)
    ensures preferred == PreferenceSet(preferences)
    ensures forall t :: t in preferred <==> t in preferences
  {
    preferred := {};
    for i := 0 to |preferences|
      invariant preferred == PreferenceSet(preferences[..i])
    {
      assert preferences[..i + 1][..i] == preferences[..i];
      assert PreferenceSet(preferences[..i + 1]) == PreferenceSet(preferences[..i]) + {preferences[i]};
      preferred := preferred + {preferences[i]};
    }
    assert preferences[..|preferences|] == preferences;
  }

  /** The `rows.forEach` that fills `clickWeights` and `dwellTimeWeights` row by row. */
  method FillRowWeights(rows: seq<MetricRow>, totalClicks: real, totalDwell: real)
    returns (clickWeights: map<int, real>, dwellWeights: map<int, real>)
    ensures clickWeights == RowShares(rows, Clicks, totalClicks)
    ensures dwellWeights == RowShares(rows, Dwell, totalDwell)
  {
    clickWeights, dwellWeights := map[], map[];
    for i := 0 to |rows|
      invariant clickWeights == RowShares(rows[..i], Clicks, totalClicks)
      invariant dwellWeights == RowShares(rows[..i], Dwell, totalDwell)
    {
      assert rows[..i + 1][..i] == rows[..i];
      var id := rows[i].typeId;
      clickWeights := clickWeights[id := Share(rows[i].clicks, totalClicks)];
      dwellWeights := dwellWeights[id := Share(rows[i].dwellTime, totalDwell)];
    }
    assert rows[..|rows|] == rows;
  }

  /** The `Object.entries(sums).forEach` that turns per-type sums into shares. */
  method FillKeyWeights(sums: map<int, real>, total: real) returns (weights: map<int, real>)
    ensures weights == KeyShares(sums, total)
  {
    weights := map[];
    var remaining := sums.Keys;
    while remaining != {}
      invariant remaining <= sums.Keys
      invariant weights.Keys == sums.Keys - remaining
      invariant forall t :: t in weights ==> weights[t] == Share(sums[t], total)
      decreases remaining
    {
      HasElement(remaining);
      var t :| t in remaining;
      weights := weights[t := Share(sums[t], total)];
      remaining := remaining - {t};
    }
    assert weights.Keys == sums.Keys;
    assert weights.Keys == KeyShares(sums, total).Keys;
    assert forall t :: t in weights ==> weights[t] == KeyShares(sums, total)[t];
  }

  /** A non-empty set has an element. */
  lemma {:induction false} HasElement(s: set<int>)
    requires s != {}
    ensures exists t :: t in s
  {
    if forall t :: t !in s {
      assert false;
    }
  }

  /** The `items.forEach` that writes one final score per item id. */
  method FillScores(items: seq<ScoreItem>, clickWeights: map<int, real>, dwellWeights: map<int, real>,
                    preferred: set<int>, newAccount: bool) returns (results: map<int, real>)
    ensures results == ItemScores(items, clickWeights, dwellWeights, preferred, newAccount)
  {
    results := map[];
    for i := 0 to |items|
      invariant results == ItemScores(items[..i], clickWeights, dwellWeights, preferred, newAccount)
    {
      assert items[..i + 1][..i] == items[..i];
      var item := items[i];
      var score := 0.0;
      score := score + (Lookup(clickWeights, item.typeId) * 0.3 + Lookup(dwellWeights, item.typeId) * 0.45
        + (if item.typeId in preferred then 0.25 else 0.0));
      results := results[item.id := if newAccount then score * 0.6 + 0.4 else score];
    }
    assert items[..|items|] == items;
  }

  /** `scoreVenueItems` after its two queries. */
  method ScoreVenueItems(venueMetrics: seq<MetricRow>, venuePreferences: seq<int>, items: seq<ScoreItem>)
    returns (results: map<int, real>)
    ensures results == CategoryScores(venueMetrics, venuePreferences, items)
  {
    var totalClicks := SumSignal(venueMetrics, Clicks);
    var totalDwellTime := SumSignal(venueMetrics, Dwell);
    var preferenceWeights := CollectPreferences(venuePreferences);
    var clickWeights, dwellTimeWeights := FillRowWeights(venueMetrics, totalClicks, totalDwellTime);
    var newAccount := IsNewAccount(totalClicks, totalDwellTime);
    results := FillScores(items, clickWeights, dwellTimeWeights, preferenceWeights, newAccount);
  }

  /**
   * `scorePromotionItem` after its two queries. It recomputes `newAccount` for every
   * item; as the totals do not change inside that loop, it is computed once here.
   */
  method ScorePromotionItems(promotionMetrics: seq<MetricRow>, promotionPreferences: seq<int>,
                             items: seq<ScoreItem>) returns (results: map<int, real>)
    ensures results == CategoryScores(promotionMetrics, promotionPreferences, items)
  {
    var totalClicks := SumSignal(promotionMetrics, Clicks);
    var totalDwellTime := SumSignal(promotionMetrics, Dwell);
    var preferenceWeights := CollectPreferences(promotionPreferences);
    var clickWeights, dwellTimeWeights := FillRowWeights(promotionMetrics, totalClicks, totalDwellTime);
    results := FillScores(items, clickWeights, dwellTimeWeights, preferenceWeights,
                          IsNewAccount(totalClicks, totalDwellTime));
  }

  /**
   * One of the two `forEach` loops of `scoreEventItems`: adds every row to the running
   * totals and to the per-type sums.
   */
  method AccumulateByType(rows: seq<MetricRow>, clicks0: real, dwell0: real,
                          clickSums0: map<int, real>, dwellSums0: map<int, real>)
    returns (totalClicks: real, totalDwell: real, clickSums: map<int, real>, dwellSums: map<int, real>)
    ensures totalClicks == clicks0 + Total(rows, Clicks)
    ensures totalDwell == dwell0 + Total(rows, Dwell)
    ensures clickSums == MergeInto(clickSums0, rows, Clicks)
    ensures dwellSums == MergeInto(dwellSums0, rows, Dwell)
  {
    totalClicks, totalDwell, clickSums, dwellSums := clicks0, dwell0, clickSums0, dwellSums0;
    for i := 0 to |rows|
      invariant totalClicks == clicks0 + Total(rows[..i], Clicks)
      invariant totalDwell == dwell0 + Total(rows[..i], Dwell)
      invariant clickSums == MergeInto(clickSums0, rows[..i], Clicks)
      invariant dwellSums == MergeInto(dwellSums0, rows[..i], Dwell)
    {
      assert rows[..i + 1][..i] == rows[..i];
      var t := rows[i].typeId;
      totalClicks := totalClicks + rows[i].clicks;
      totalDwell := totalDwell + rows[i].dwellTime;
      clickSums := clickSums[t := Lookup(clickSums, t) + rows[i].clicks];
      dwellSums := dwellSums[t := Lookup(dwellSums, t) + rows[i].dwellTime];
    }
    assert rows[..|rows|] == rows;
  }

  /** `scoreEventItems` after its three queries. */
  method ScoreEventItems(eventMetrics: seq<MetricRow>, performerMetrics: seq<MetricRow>,
                         preferences: seq<int>, items: seq<ScoreItem>) returns (results: map<int, real>)
    ensures results == EventScores(eventMetrics, performerMetrics, preferences, items)
  {
    var totalClicks, totalDwellTime, eventClicks, eventDwellTime :=
      AccumulateByType(eventMetrics, 0.0, 0.0, map[], map[]);
    totalClicks, totalDwellTime, eventClicks, eventDwellTime :=
      AccumulateByType(performerMetrics, totalClicks, totalDwellTime, eventClicks, eventDwellTime);
    TotalAppend(eventMetrics, performerMetrics, Clicks);
    TotalAppend(eventMetrics, performerMetrics, Dwell);
    MergeIntoAppend(map[], eventMetrics, performerMetrics, Clicks);
    MergeIntoAppend(map[], eventMetrics, performerMetrics, Dwell);
    var preferenceWeights := CollectPreferences(preferences);
    var clickWeights := FillKeyWeights(eventClicks, totalClicks);
    var dwellTimeWeights := FillKeyWeights(eventDwellTime, totalDwellTime);
    var newAccount := IsNewAccount(totalClicks, totalDwellTime);
    results := FillScores(items, clickWeights, dwellTimeWeights, preferenceWeights, newAccount);
  }

  // ---------------------------------------------------------------------------
  // Properties of the sums and weights
  // ---------------------------------------------------------------------------

  /** A total over two runs of rows is the sum of their totals. */
  lemma {:induction false} TotalAppend(a: seq<MetricRow>, b: seq<MetricRow>, signal: Signal)
    ensures Total(a + b, signal) == Total(a, signal) + Total(b, signal)
    decreases |b|
  {
    if b == [] {
      assert a + b == a;
    } else {
      assert (a + b)[..|a + b| - 1] == a + b[..|b| - 1];
      TotalAppend(a, b[..|b| - 1], signal);
    }
  }

  /** Merging two runs of rows one after the other is merging their concatenation. */
  lemma {:induction false} MergeIntoAppend(sums: map<int, real>, a: seq<MetricRow>, b: seq<MetricRow>,
                                           signal: Signal)
    ensures MergeInto(MergeInto(sums, a, signal), b, signal) == MergeInto(sums, a + b, signal)
    decreases |b|
  {
    if b == [] {
      assert a + b == a;
    } else {
      assert (a + b)[..|a + b| - 1] == a + b[..|b| - 1];
      MergeIntoAppend(sums, a, b[..|b| - 1], signal);
    }
  }

  /** The rows of one category, in order. */
  function OfType(rows: seq<MetricRow>, t: int): (r: seq<MetricRow>)
    ensures |r| <= |rows|
    ensures forall i :: 0 <= i < |r| ==> r[i].typeId == t && r[i] in rows
  {
    if rows == [] then []
    else
      var last := rows[|rows| - 1];
      OfType(rows[..|rows| - 1], t) + (if last.typeId == t then [last] else [])
  }

  /**
   * The merged sums are the per-category totals: a category has an entry iff some row
   * belongs to it, and the entry is the total of that category's rows.
   */
  lemma {:induction false} MergedIsPerTypeTotal(rows: seq<MetricRow>, signal: Signal, t: int)
    ensures t in MergeInto(map[], rows, signal) <==> exists i :: 0 <= i < |rows| && rows[i].typeId == t
    ensures Lookup(MergeInto(map[], rows, signal), t) == Total(OfType(rows, t), signal)
  {
    if rows != [] {
      var init := rows[..|rows| - 1];
      MergedIsPerTypeTotal(init, signal, t);
      OccursSplit(rows, init, t);
      OfTypeTotalStep(rows, signal, t);
    }
  }

  /** A category occurs among the rows iff it occurs before the last row or is the last row's. */
  lemma {:induction false} OccursSplit(rows: seq<MetricRow>, init: seq<MetricRow>, t: int)
    requires rows != [] && init == rows[..|rows| - 1]
    ensures (exists i :: 0 <= i < |rows| && rows[i].typeId == t)
      <==> (exists i :: 0 <= i < |init| && init[i].typeId == t) || rows[|rows| - 1].typeId == t
  {
    if exists i :: 0 <= i < |rows| && rows[i].typeId == t {
      var i :| 0 <= i < |rows| && rows[i].typeId == t;
      if i < |rows| - 1 { assert init[i] == rows[i]; }
    }
    if exists i :: 0 <= i < |rows| - 1 && init[i].typeId == t {
      var i :| 0 <= i < |rows| - 1 && init[i].typeId == t;
      assert rows[i] == init[i];
    }
  }

  /** The total of one category grows by the last row's value exactly when that row belongs to it. */
  lemma {:induction false} OfTypeTotalStep(rows: seq<MetricRow>, signal: Signal, t: int)
    requires rows != []
    ensures Total(OfType(rows, t), signal) == Total(OfType(rows[..|rows| - 1], t), signal)
      + (if rows[|rows| - 1].typeId == t then Value(rows[|rows| - 1], signal) else 0.0)
  {
    var init := rows[..|rows| - 1];
    var last := rows[|rows| - 1];
    if last.typeId == t {
      TotalAppend(OfType(init, t), [last], signal);
      assert [last][..0] == [];
    } else {
      assert OfType(rows, t) == OfType(init, t) + [];
      assert OfType(init, t) + [] == OfType(init, t);
    }
  }

  /** With non-negative rows, no row exceeds the total. */
  lemma {:induction false} RowBelowTotal(rows: seq<MetricRow>, signal: Signal, i: int)
    requires NonNegative(rows) && 0 <= i < |rows|
    ensures 0.0 <= Value(rows[i], signal) <= Total(rows, signal)
  {
    var init := rows[..|rows| - 1];
    assert NonNegative(init) by { forall k | 0 <= k < |init| ensures init[k] == rows[k] { } }
    TotalNonNegative(init, signal);
    if i < |rows| - 1 {
      assert init[i] == rows[i];
      RowBelowTotal(init, signal, i);
    }
  }

  /** With non-negative rows, the total is not negative. */
  lemma {:induction false} TotalNonNegative(rows: seq<MetricRow>, signal: Signal)
    requires NonNegative(rows)
    ensures Total(rows, signal) >= 0.0
  {
    if rows != [] {
      var init := rows[..|rows| - 1];
      assert NonNegative(init) by { forall k | 0 <= k < |init| ensures init[k] == rows[k] { } }
      TotalNonNegative(init, signal);
    }
  }

  /** With non-negative rows, one category's total is at most the overall total. */
  lemma {:induction false} TypeBelowTotal(rows: seq<MetricRow>, signal: Signal, t: int)
    requires NonNegative(rows)
    ensures 0.0 <= Total(OfType(rows, t), signal) <= Total(rows, signal)
  {
    if rows != [] {
      var init := rows[..|rows| - 1];
      var last := rows[|rows| - 1];
      assert NonNegative(init) by { forall k | 0 <= k < |init| ensures init[k] == rows[k] { } }
      TypeBelowTotal(init, signal, t);
      TotalAppend(OfType(init, t), if last.typeId == t then [last] else [], signal);
      assert [last][..0] == [];
    }
  }

  /** A share of a part between 0 and the total lies in [0, 1]. */
  lemma {:induction false} ShareInUnit(part: real, total: real)
    requires 0.0 <= part <= total
    ensures 0.0 <= Share(part, total) <= 1.0
  {
    if total > 0.0 {
      assert part / total * total == part;
    }
  }

  /** Weights whose values all lie in [0, 1]. */
  predicate UnitWeights(weights: map<int, real>)
  {
    forall t :: t in weights ==> 0.0 <= weights[t] <= 1.0
  }

  /** Every row weight is a share of its own row, taken from the last row of that id. */
  lemma {:induction false} RowSharesAreRowShares(rows: seq<MetricRow>, signal: Signal, total: real, t: int)
    requires t in RowShares(rows, signal, total)
    ensures exists i :: (0 <= i < |rows| && rows[i].typeId == t
      && RowShares(rows, signal, total)[t] == Share(Value(rows[i], signal), total))
  {
    var init := rows[..|rows| - 1];
    var last := rows[|rows| - 1];
    if last.typeId != t {
      RowSharesAreRowShares(init, signal, total, t);
      var i :| 0 <= i < |init| && init[i].typeId == t
        && RowShares(init, signal, total)[t] == Share(Value(init[i], signal), total);
      assert rows[i] == init[i];
    }
  }

  /** With non-negative rows, every row weight of `scoreVenueItems` lies in [0, 1]. */
  lemma {:induction false} RowWeightsInUnit(rows: seq<MetricRow>, signal: Signal)
    requires NonNegative(rows)
    ensures UnitWeights(RowShares(rows, signal, Total(rows, signal)))
  {
    var total := Total(rows, signal);
    forall t | t in RowShares(rows, signal, total)
      ensures 0.0 <= RowShares(rows, signal, total)[t] <= 1.0
    {
      RowSharesAreRowShares(rows, signal, total, t);
      var i :| 0 <= i < |rows| && rows[i].typeId == t
        && RowShares(rows, signal, total)[t] == Share(Value(rows[i], signal), total);
      RowBelowTotal(rows, signal, i);
      ShareInUnit(Value(rows[i], signal), total);
    }
  }

  /** With non-negative rows, every merged weight of `scoreEventItems` lies in [0, 1]. */
  lemma {:induction false} KeyWeightsInUnit(rows: seq<MetricRow>, signal: Signal)
    requires NonNegative(rows)
    ensures UnitWeights(KeyShares(MergeInto(map[], rows, signal), Total(rows, signal)))
  {
    var sums := MergeInto(map[], rows, signal);
    forall t | t in sums ensures 0.0 <= Share(sums[t], Total(rows, signal)) <= 1.0 {
      MergedIsPerTypeTotal(rows, signal, t);
      TypeBelowTotal(rows, signal, t);
      ShareInUnit(sums[t], Total(rows, signal));
    }
  }

  /** Category ids that occur in at most one row, as the queries' `GROUP BY` guarantees. */
  predicate DistinctTypes(rows: seq<MetricRow>)
  {
    forall i, j :: 0 <= i < j < |rows| ==> rows[i].typeId != rows[j].typeId
  }

  /**
   * For grouped rows the two ways of computing weights agree: overwriting by row id
   * (venues, promotions) gives the same map as merging per type first (events).
   */
  lemma {:induction false} RowSharesAreMergedShares(rows: seq<MetricRow>, signal: Signal, total: real)
    requires DistinctTypes(rows)
    ensures RowShares(rows, signal, total) == KeyShares(MergeInto(map[], rows, signal), total)
  {
    if rows != [] {
      var init := rows[..|rows| - 1];
      var last := rows[|rows| - 1];
      assert DistinctTypes(init) by {
        forall i, j | 0 <= i < j < |init| ensures init[i].typeId != init[j].typeId {
          assert init[i] == rows[i] && init[j] == rows[j];
        }
      }
      RowSharesAreMergedShares(init, signal, total);
      MergedIsPerTypeTotal(init, signal, last.typeId);
      assert forall i :: 0 <= i < |init| ==> init[i].typeId == rows[i].typeId != last.typeId;
      assert last.typeId !in MergeInto(map[], init, signal);
    }
  }

  // ---------------------------------------------------------------------------
  // Properties of the scores
  // ---------------------------------------------------------------------------

  /** Every item id receives a score, and only item ids do. */
  lemma {:induction false} ScoresCoverItems(items: seq<ScoreItem>, clickWeights: map<int, real>,
                                            dwellWeights: map<int, real>, preferred: set<int>, newAccount: bool)
    ensures forall id :: (id in ItemScores(items, clickWeights, dwellWeights, preferred, newAccount)
      <==> exists i :: 0 <= i < |items| && items[i].id == id)
  {
    if items != [] {
      var init := items[..|items| - 1];
      ScoresCoverItems(init, clickWeights, dwellWeights, preferred, newAccount);
      forall id | exists i :: 0 <= i < |items| && items[i].id == id
        ensures id in ItemScores(items, clickWeights, dwellWeights, preferred, newAccount)
      {
        var i :| 0 <= i < |items| && items[i].id == id;
        if i < |items| - 1 { assert init[i] == items[i]; }
      }
      forall id | id in ItemScores(init, clickWeights, dwellWeights, preferred, newAccount)
        ensures exists i :: 0 <= i < |items| && items[i].id == id
      {
        var i :| 0 <= i < |init| && init[i].id == id;
        assert items[i] == init[i];
      }
    }
  }

  /** Each stored score is the score of the last item carrying that id. */
  lemma {:induction false} ScoreOfLastItem(items: seq<ScoreItem>, clickWeights: map<int, real>,
                                           dwellWeights: map<int, real>, preferred: set<int>, newAccount: bool, k: int)
    requires 0 <= k < |items|
    requires forall j :: k < j < |items| ==> items[j].id != items[k].id
    ensures items[k].id in ItemScores(items, clickWeights, dwellWeights, preferred, newAccount)
    ensures ItemScores(items, clickWeights, dwellWeights, preferred, newAccount)[items[k].id]
      == ItemScore(items[k], clickWeights, dwellWeights, preferred, newAccount)
  {
    if k < |items| - 1 {
      var init := items[..|items| - 1];
      assert init[k] == items[k];
      ScoreOfLastItem(init, clickWeights, dwellWeights, preferred, newAccount, k);
    }
  }

  /**
   * With weights in [0, 1], every score lies in [0, 1], and a new account's scores
   * are at least 0.4.
   */
  lemma {:induction false} ItemScoreBounds(item: ScoreItem, clickWeights: map<int, real>,
                                          dwellWeights: map<int, real>, preferred: set<int>, newAccount: bool)
    requires UnitWeights(clickWeights) && UnitWeights(dwellWeights)
    ensures 0.0 <= ItemScore(item, clickWeights, dwellWeights, preferred, newAccount) <= 1.0
    ensures newAccount ==> ItemScore(item, clickWeights, dwellWeights, preferred, newAccount) >= 0.4
  {
    var cw := Lookup(clickWeights, item.typeId);
    var dw := Lookup(dwellWeights, item.typeId);
    assert 0.0 <= cw <= 1.0 && 0.0 <= dw <= 1.0;
  }

  /** Only the item's category enters its score: two items of one type score alike. */
  lemma {:induction false} ScoreDependsOnTypeOnly(a: ScoreItem, b: ScoreItem, clickWeights: map<int, real>,
                                                 dwellWeights: map<int, real>, preferred: set<int>, newAccount: bool)
    requires a.typeId == b.typeId
    ensures ItemScore(a, clickWeights, dwellWeights, preferred, newAccount)
         == ItemScore(b, clickWeights, dwellWeights, preferred, newAccount)
  {
  }

  /**
   * Preferring an item's category raises its score by 0.25, or by 0.15 (0.6 · 0.25)
   * once the cold-start blend applies.
   */
  lemma {:induction false} PreferenceBonus(item: ScoreItem, clickWeights: map<int, real>,
                                          dwellWeights: map<int, real>, preferred: set<int>, newAccount: bool)
    requires item.typeId !in preferred
    ensures ItemScore(item, clickWeights, dwellWeights, preferred + {item.typeId}, newAccount)
         == ItemScore(item, clickWeights, dwellWeights, preferred, newAccount) + (if newAccount then 0.15 else 0.25)
  {
    var cw, dw := Lookup(clickWeights, item.typeId), Lookup(dwellWeights, item.typeId);
    assert item.typeId in preferred + {item.typeId};
    assert RawScore(cw, dw, true) == RawScore(cw, dw, false) + 0.25;
  }

  /**
   * An account is new while either total is under its threshold; more activity never
   * makes an established account new again.
   */
  lemma {:induction false} NewAccountThresholds(clicks: real, dwell: real, moreClicks: real, moreDwell: real)
    requires clicks <= moreClicks && dwell <= moreDwell
    ensures !IsNewAccount(clicks, dwell) ==> !IsNewAccount(moreClicks, moreDwell)
    ensures IsNewAccount(clicks, dwell) <==> clicks < 200.0 || dwell < 2.0 * 60.0 * 1000.0
    ensures !IsNewAccount(200.0, 120000.0) && IsNewAccount(199.0, 1.0e9) && IsNewAccount(1.0e9, 119999.0)
  {
  }

  /** Every score in the map is the score of some item. */
  lemma {:induction false} ScoresComeFromItems(items: seq<ScoreItem>, clickWeights: map<int, real>,
                                               dwellWeights: map<int, real>, preferred: set<int>, newAccount: bool, id: int)
    requires id in ItemScores(items, clickWeights, dwellWeights, preferred, newAccount)
    ensures exists i :: (0 <= i < |items| && items[i].id == id
      && ItemScores(items, clickWeights, dwellWeights, preferred, newAccount)[id]
         == ItemScore(items[i], clickWeights, dwellWeights, preferred, newAccount))
  {
    var init := items[..|items| - 1];
    if items[|items| - 1].id != id {
      ScoresComeFromItems(init, clickWeights, dwellWeights, preferred, newAccount, id);
      var i :| 0 <= i < |init| && init[i].id == id
        && ItemScores(init, clickWeights, dwellWeights, preferred, newAccount)[id]
           == ItemScore(init[i], clickWeights, dwellWeights, preferred, newAccount);
      assert items[i] == init[i];
    }
  }

  /** Scores of a whole map lie in [0, 1] (at least 0.4 for a new account) when the weights do. */
  lemma {:induction false} ScoresBounded(items: seq<ScoreItem>, clickWeights: map<int, real>,
                                         dwellWeights: map<int, real>, preferred: set<int>, newAccount: bool)
    requires UnitWeights(clickWeights) && UnitWeights(dwellWeights)
    ensures forall id :: id in ItemScores(items, clickWeights, dwellWeights, preferred, newAccount) ==>
      var s := ItemScores(items, clickWeights, dwellWeights, preferred, newAccount)[id];
      0.0 <= s <= 1.0 && (newAccount ==> s >= 0.4)
  {
    forall id | id in ItemScores(items, clickWeights, dwellWeights, preferred, newAccount)
      ensures var s := ItemScores(items, clickWeights, dwellWeights, preferred, newAccount)[id];
        0.0 <= s <= 1.0 && (newAccount ==> s >= 0.4)
    {
      ScoresComeFromItems(items, clickWeights, dwellWeights, preferred, newAccount, id);
      var i :| 0 <= i < |items| && items[i].id == id
        && ItemScores(items, clickWeights, dwellWeights, preferred, newAccount)[id]
           == ItemScore(items[i], clickWeights, dwellWeights, preferred, newAccount);
      ItemScoreBounds(items[i], clickWeights, dwellWeights, preferred, newAccount);
    }
  }

  /** With non-negative metrics, every venue or promotion score lies in [0, 1]. */
  lemma {:induction false} CategoryScoresBounded(rows: seq<MetricRow>, preferences: seq<int>, items: seq<ScoreItem>)
    requires NonNegative(rows)
    ensures forall id :: id in CategoryScores(rows, preferences, items) ==>
      0.0 <= CategoryScores(rows, preferences, items)[id] <= 1.0
  {
    RowWeightsInUnit(rows, Clicks);
    RowWeightsInUnit(rows, Dwell);
    var totalClicks := Total(rows, Clicks);
    var totalDwell := Total(rows, Dwell);
    ScoresBounded(items, RowShares(rows, Clicks, totalClicks), RowShares(rows, Dwell, totalDwell),
                  PreferenceSet(preferences), IsNewAccount(totalClicks, totalDwell));
  }

  /** With non-negative metrics, every event score lies in [0, 1]. */
  lemma {:induction false} EventScoresBounded(eventRows: seq<MetricRow>, performerRows: seq<MetricRow>,
                                              preferences: seq<int>, items: seq<ScoreItem>)
    requires NonNegative(eventRows) && NonNegative(performerRows)
    ensures forall id :: id in EventScores(eventRows, performerRows, preferences, items) ==>
      0.0 <= EventScores(eventRows, performerRows, preferences, items)[id] <= 1.0
  {
    var rows := eventRows + performerRows;
    assert NonNegative(rows) by {
      forall i | 0 <= i < |rows| ensures rows[i].clicks >= 0.0 && rows[i].dwellTime >= 0.0 {
        if i < |eventRows| { assert rows[i] == eventRows[i]; }
        else { assert rows[i] == performerRows[i - |eventRows|]; }
      }
    }
    KeyWeightsInUnit(rows, Clicks);
    KeyWeightsInUnit(rows, Dwell);
    var totalClicks := Total(rows, Clicks);
    var totalDwell := Total(rows, Dwell);
    ScoresBounded(items, KeyShares(MergeInto(map[], rows, Clicks), totalClicks),
                  KeyShares(MergeInto(map[], rows, Dwell), totalDwell),
                  PreferenceSet(preferences), IsNewAccount(totalClicks, totalDwell));
  }

  /** A user with no metrics is a new account, and every item scores 0.4, or 0.55 if preferred. */
  lemma {:induction false} NoMetricsScores(preferences: seq<int>, items: seq<ScoreItem>, k: int)
    requires 0 <= k < |items|
    requires forall j :: k < j < |items| ==> items[j].id != items[k].id
    ensures items[k].id in CategoryScores([], preferences, items)
    ensures items[k].id in EventScores([], [], preferences, items)
    ensures CategoryScores([], preferences, items)[items[k].id]
      == if items[k].typeId in preferences then 0.55 else 0.4
    ensures EventScores([], [], preferences, items)[items[k].id]
      == if items[k].typeId in preferences then 0.55 else 0.4
  {
    assert IsNewAccount(0.0, 0.0);
    var preferred := PreferenceSet(preferences);
    assert items[k].typeId in preferred <==> items[k].typeId in preferences by {
      if items[k].typeId in preferences {
        var j :| 0 <= j < |preferences| && preferences[j] == items[k].typeId;
      }
    }
    ScoreOfLastItem(items, map[], map[], preferred, true, k);
    var none: seq<MetricRow> := [];
    assert none + none == none;
    ScoreOfLastItem(items, KeyShares(map[], 0.0), KeyShares(map[], 0.0), preferred, true, k);
  }

  // ---------------------------------------------------------------------------
  // getTopScoredItems
  // ---------------------------------------------------------------------------

  /** `{ ...item, score }`: an item with its score attached. */
  datatype Scored<T> = Scored(item: T, score: real)

  /** `items.map((item) => ({ ...item, score: scores[item.id] ?? 0 }))`. */
  function Attach<T>(items: seq<T>, idOf: T -> int, scores: map<int, real>): (r: seq<Scored<T>>)
    ensures |r| == |items|
    ensures forall i :: 0 <= i < |r| ==> r[i].item == items[i]
    ensures forall i :: 0 <= i < |r| ==> r[i].score == Lookup(scores, idOf(items[i]))
  {
    if items == [] then [] else [Scored(items[0], Lookup(scores, idOf(items[0])))] + Attach(items[1..], idOf, scores)
  }

  /** No element scores higher than the one before it. */
  predicate SortedDesc<T>(s: seq<Scored<T>>)
  {
    forall i, j :: 0 <= i < j < |s| ==> s[i].score >= s[j].score
  }

  /** Places `x` after the elements scoring strictly more, before the first that scores at most as much. */
  function Insert<T>(x: Scored<T>, s: seq<Scored<T>>): (r: seq<Scored<T>>)
    ensures |r| == |s| + 1
    ensures multiset(r) == multiset(s) + multiset{x}
  {
    if s == [] || s[0].score <= x.score then [x] + s
    else
      assert s == [s[0]] + s[1..];
      [s[0]] + Insert(x, s[1..])
  }

  /** `.sort((a, b) => b.score - a.score)`: the stable sort by descending score. */
  function SortDesc<T>(s: seq<Scored<T>>): (r: seq<Scored<T>>)
    ensures |r| == |s|
  {
    if s == [] then [] else Insert(s[0], SortDesc(s[1..]))
  }

  /** The elements that carry score `v`, in order. */
  function WithScore<T>(s: seq<Scored<T>>, v: real): seq<Scored<T>>
  {
    if s == [] then [] else (if s[0].score == v then [s[0]] else []) + WithScore(s[1..], v)
  }

  lemma {:induction false} InsertSorted<T>(x: Scored<T>, s: seq<Scored<T>>)
    requires SortedDesc(s)
    ensures SortedDesc(Insert(x, s))
  {
    if s != [] && s[0].score > x.score {
      var tail := s[1..];
      SortedTail(s);
      InsertSorted(x, tail);
      HeadAbove(s);
      InsertMembers(x, tail);
      SortedCons(s[0], Insert(x, tail));
    }
  }

  /** Every element of an insertion result is the inserted element or one of the list's. */
  lemma {:induction false} InsertMembers<T>(x: Scored<T>, s: seq<Scored<T>>)
    ensures forall y :: y in Insert(x, s) ==> y == x || y in s
  {
    if s != [] && s[0].score > x.score {
      InsertMembers(x, s[1..]);
      assert s == [s[0]] + s[1..];
    }
  }

  /** The head of a sorted list scores at least as much as everything after it. */
  lemma {:induction false} HeadAbove<T>(s: seq<Scored<T>>)
    requires s != [] && SortedDesc(s)
    ensures forall y :: y in s[1..] ==> s[0].score >= y.score
  {
    forall y | y in s[1..] ensures s[0].score >= y.score {
      var k :| 0 <= k < |s[1..]| && s[1..][k] == y;
      assert s[k + 1] == y;
    }
  }

  /** A sorted list stays sorted behind a head that scores at least as much as each of its elements. */
  lemma {:induction false} SortedCons<T>(h: Scored<T>, r: seq<Scored<T>>)
    requires SortedDesc(r) && forall y :: y in r ==> h.score >= y.score
    ensures SortedDesc([h] + r)
  {
    var c := [h] + r;
    forall i, j | 0 <= i < j < |c| ensures c[i].score >= c[j].score {
      assert c[j] == r[j - 1];
      if i == 0 {
        assert r[j - 1] in r;
      } else {
        assert c[i] == r[i - 1];
      }
    }
  }

  /** The sort result is ordered by non-increasing score. */
  lemma {:induction false} SortDescSorted<T>(s: seq<Scored<T>>)
    ensures SortedDesc(SortDesc(s))
  {
    if s != [] {
      SortDescSorted(s[1..]);
      InsertSorted(s[0], SortDesc(s[1..]));
    }
  }

  /** The sort result is a permutation of its input. */
  lemma {:induction false} SortDescPermutes<T>(s: seq<Scored<T>>)
    ensures multiset(SortDesc(s)) == multiset(s)
  {
    if s != [] {
      SortDescPermutes(s[1..]);
      assert s == [s[0]] + s[1..];
    }
  }

  lemma {:induction false} WithScoreAppend<T>(a: seq<Scored<T>>, b: seq<Scored<T>>, v: real)
    ensures WithScore(a + b, v) == WithScore(a, v) + WithScore(b, v)
  {
    if a != [] {
      assert (a + b)[1..] == a[1..] + b;
      WithScoreAppend(a[1..], b, v);
    } else {
      assert a + b == b;
    }
  }

  /** In a sorted sequence, no element scores `x.score` after `x` is inserted ahead of its equals. */
  lemma {:induction false} InsertStable<T>(x: Scored<T>, s: seq<Scored<T>>, v: real)
    ensures WithScore(Insert(x, s), v) == WithScore([x] + s, v)
  {
    if s != [] && s[0].score > x.score {
      var h, t := s[0], s[1..];
      InsertStable(x, t, v);
      assert s == [h] + t && Insert(x, s) == [h] + Insert(x, t);
      PassEqual(x, h, t, Insert(x, t), v);
    }
  }

  /**
   * Moving `x` past a head `h` of a different score leaves the elements of every one
   * score in their order.
   */
  lemma PassEqual<T>(x: Scored<T>, h: Scored<T>, t: seq<Scored<T>>, i: seq<Scored<T>>, v: real)
    requires h.score != x.score && WithScore(i, v) == WithScore([x] + t, v)
    ensures WithScore([h] + i, v) == WithScore([x] + ([h] + t), v)
  {
    var w := WithScore(t, v);
    WithScoreCons(h, i, v);
    WithScoreCons(x, t, v);
    WithScoreCons(x, [h] + t, v);
    WithScoreCons(h, t, v);
    if h.score == v {
      assert WithScore([h] + i, v) == [h] + w;
      assert WithScore([x] + ([h] + t), v) == [] + ([h] + w);
    } else {
      assert WithScore([h] + i, v) == [] + WithScore([x] + t, v);
    }
  }

  /** The elements with score `v` of a sequence with a known head. */
  lemma WithScoreCons<T>(h: Scored<T>, t: seq<Scored<T>>, v: real)
    ensures WithScore([h] + t, v) == (if h.score == v then [h] else []) + WithScore(t, v)
  {
    assert ([h] + t)[1..] == t;
  }

  /** Stability: the elements of any one score keep their input order. */
  lemma {:induction false} SortDescStable<T>(s: seq<Scored<T>>, v: real)
    ensures WithScore(SortDesc(s), v) == WithScore(s, v)
  {
    if s != [] {
      SortDescStable(s[1..], v);
      InsertStable(s[0], SortDesc(s[1..]), v);
      WithScoreAppend([s[0]], SortDesc(s[1..]), v);
      WithScoreAppend([s[0]], s[1..], v);
      assert s == [s[0]] + s[1..];
    }
  }

  /** `Array.prototype.slice(0, end)`'s effective end: a negative end counts from the back. */
  function SliceEnd(end: int, length: nat): (e: nat)
    ensures e <= length
    ensures end >= 0 ==> e == if end <= length then end else length
    ensures end < 0 ==> e == if length + end >= 0 then length + end else 0
  {
    if end < 0 then (if length + end >= 0 then length + end else 0)
    else if end <= length then end else length
  }

  /** `getTopScoredItems`: the `topN` (default 10) best-scored items, best first. */
  function TopScored<T>(scores: map<int, real>, items: seq<T>, idOf: T -> int, topN: int := 10): (r: seq<Scored<T>>)
    ensures |r| == SliceEnd(topN, |items|)
  {
    SortDesc(Attach(items, idOf, scores))[..SliceEnd(topN, |items|)]
  }

  /**
   * The ranking has `min(topN, |items|)` entries for a non-negative `topN`, is sorted by
   * score, holds input items with their stored score (0 when none is stored), and
   * keeps items of equal score in input order.
   */
  lemma {:induction false} TopScoredCorrect<T>(scores: map<int, real>, items: seq<T>, idOf: T -> int, topN: int)
    ensures topN >= 0 ==> |TopScored(scores, items, idOf, topN)| == if topN <= |items| then topN else |items|
    ensures SortedDesc(TopScored(scores, items, idOf, topN))
    ensures multiset(TopScored(scores, items, idOf, topN)) <= multiset(Attach(items, idOf, scores))
    ensures forall x :: x in TopScored(scores, items, idOf, topN) ==>
      x.item in items && x.score == Lookup(scores, idOf(x.item))
    ensures TopScored(scores, items, idOf, topN) <= SortDesc(Attach(items, idOf, scores))
  {
    var attached := Attach(items, idOf, scores);
    var sorted := SortDesc(attached);
    var n := SliceEnd(topN, |items|);
    SortDescSorted(attached);
    SortDescPermutes(attached);
    PrefixOfSorted(sorted, n);
    AttachedMembers(items, idOf, scores, sorted[..n]);
  }

  /** A prefix of a sorted list is sorted, and a sub-multiset of it. */
  lemma {:induction false} PrefixOfSorted<T>(s: seq<Scored<T>>, n: nat)
    requires SortedDesc(s) && n <= |s|
    ensures SortedDesc(s[..n]) && s[..n] <= s
    ensures multiset(s[..n]) <= multiset(s)
  {
    assert s == s[..n] + s[n..];
    assert multiset(s) == multiset(s[..n]) + multiset(s[n..]);
  }

  /** Elements of a permutation of the attached items are input items with their stored scores. */
  lemma {:induction false} AttachedMembers<T>(items: seq<T>, idOf: T -> int, scores: map<int, real>,
                                              r: seq<Scored<T>>)
    requires multiset(r) <= multiset(Attach(items, idOf, scores))
    ensures forall x :: x in r ==> x.item in items && x.score == Lookup(scores, idOf(x.item))
  {
    var attached := Attach(items, idOf, scores);
    forall x | x in r ensures x.item in items && x.score == Lookup(scores, idOf(x.item)) {
      assert x in multiset(r);
      assert x in multiset(attached);
      var i :| 0 <= i < |attached| && attached[i] == x;
    }
  }

  /** The tail of a sorted sequence is sorted. */
  lemma {:induction false} SortedTail<T>(s: seq<Scored<T>>)
    requires s != [] && SortedDesc(s)
    ensures SortedDesc(s[1..])
  {
    forall i, j | 0 <= i < j < |s| - 1 ensures s[1..][i].score >= s[1..][j].score {
      assert s[1..][i] == s[i + 1] && s[1..][j] == s[j + 1];
    }
  }

  /** Sorting an already sorted list changes nothing. */
  lemma {:induction false} SortDescOfSorted<T>(s: seq<Scored<T>>)
    requires SortedDesc(s)
    ensures SortDesc(s) == s
  {
    if s != [] {
      var tail := s[1..];
      SortedTail(s);
      SortDescOfSorted(tail);
      assert SortDesc(s) == Insert(s[0], tail);
      if tail != [] {
        assert tail[0] == s[1];
        assert tail[0].score <= s[0].score;
      }
      assert s == [s[0]] + tail;
    }
  }
}
