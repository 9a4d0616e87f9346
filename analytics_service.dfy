/** The dashboard's analytics over rows already fetched: tour requests per
    status and per day (each counted into an insertion-ordered `Map` in one
    pass), the ten properties with the most tour requests, and the
    conversion rates. */
module AnalyticsService {
  import opened Wrappers
  import opened Entities
  import JsMap
  import JsArray
  import Text

  type Counts = JsMap.Entries<string, int>

  /** `m.set(k, (m.get(k) || 0) + 1)` */
  function Bump(m: Counts, k: string): Counts {
    JsMap.Set(m, k, JsMap.Get(m, k).GetOr(0) + 1)
  }

  /** The map after counting every key of `keys`, in order, into `m`. */
  function Tally(m: Counts, keys: seq<string>): Counts {
    if keys == [] then m else Bump(Tally(m, keys[..|keys| - 1]), keys[|keys| - 1])
  }

  function Value(e: (string, int)): int {
    e.1
  }

  /** The sum of the counts in a map. */
  function SumValues(m: Counts): int {
    JsArray.SumBy(m, Value)
  }

  lemma SumValuesCons(e: (string, int), m: Counts)
    ensures SumValues([e] + m) == e.1 + SumValues(m)
  {
    JsArray.SumByConcat([e], m, Value);
    assert [e][..0] == [];
  }

  /** `set(k, v)` trades the value `get(k)` read (0 for a new key) for `v`. */
  lemma {:induction false} SumValuesSet(m: Counts, k: string, v: int)
    ensures SumValues(JsMap.Set(m, k, v)) == SumValues(m) - JsMap.Get(m, k).GetOr(0) + v
  {
    if m == [] {
      SumValuesCons((k, v), []);
      assert [(k, v)] + [] == [(k, v)];
    } else {
      assert m == [m[0]] + m[1..];
      SumValuesCons(m[0], m[1..]);
      if m[0].0 == k {
        SumValuesCons((k, v), m[1..]);
      } else {
        SumValuesSet(m[1..], k, v);
        SumValuesCons(m[0], JsMap.Set(m[1..], k, v));
      }
    }
  }

  /** Counting `keys` adds exactly `|keys|` to the sum of the counts. */
  lemma {:induction false} TallySum(m: Counts, keys: seq<string>)
    ensures SumValues(Tally(m, keys)) == SumValues(m) + |keys|
  {
    if keys != [] {
      var k := keys[|keys| - 1];
      TallySum(m, keys[..|keys| - 1]);
      SumValuesSet(Tally(m, keys[..|keys| - 1]), k, JsMap.Get(Tally(m, keys[..|keys| - 1]), k).GetOr(0) + 1);
    }
  }

  /** After counting, a key's count is what it was plus its number of
      occurrences in `keys`, and a key has an entry exactly when it had one
      before or occurs in `keys`. */
  lemma {:induction false} GetTally(m: Counts, keys: seq<string>, k: string)
    ensures JsMap.Get(Tally(m, keys), k).GetOr(0) == JsMap.Get(m, k).GetOr(0) + multiset(keys)[k]
    ensures JsMap.Get(Tally(m, keys), k).Some? <==> JsMap.Get(m, k).Some? || k in keys
  {
    if keys != [] {
      var init := keys[..|keys| - 1];
      var last := keys[|keys| - 1];
      assert keys == init + [last];
      GetTally(m, init, k);
      var before := Tally(m, init);
      JsMap.GetSet(before, last, JsMap.Get(before, last).GetOr(0) + 1, k);
    }
  }

  /** Counting keeps the keys already present, in their order, and adds new
      keys after them; a map with distinct keys keeps them distinct. */
  lemma {:induction false} KeysTally(m: Counts, keys: seq<string>)
    ensures var ks := JsMap.Keys(Tally(m, keys));
      |JsMap.Keys(m)| <= |ks| && ks[..|JsMap.Keys(m)|] == JsMap.Keys(m)
    ensures JsMap.Distinct(JsMap.Keys(m)) ==> JsMap.Distinct(JsMap.Keys(Tally(m, keys)))
  {
    if keys != [] {
      var init := keys[..|keys| - 1];
      var last := keys[|keys| - 1];
      KeysTally(m, init);
      var before := Tally(m, init);
      JsMap.KeysSet(before, last, JsMap.Get(before, last).GetOr(0) + 1);
      if JsMap.Distinct(JsMap.Keys(m)) {
        JsMap.SetKeepsKeysDistinct(before, last, JsMap.Get(before, last).GetOr(0) + 1);
      }
    }
  }

  /** The keys of a count map are exactly the keys it started with and the
      keys counted. */
  lemma KeysOfTally(m: Counts, keys: seq<string>, k: string)
    ensures k in JsMap.Keys(Tally(m, keys)) <==> k in JsMap.Keys(m) || k in keys
  {
    GetTally(m, keys, k);
    JsMap.GetIffKey(Tally(m, keys), k);
    JsMap.GetIffKey(m, k);
  }

  // ---------------------------------------------------------------------------
  // Status distribution

  /** The key a row is counted under: `request.status || "unknown"`. */
  function StatusKey(s: Option<Status>): (k: string)
    ensures Falsy(s) ==> k == "unknown"
    ensures !Falsy(s) ==> k == Name(s.value)
  {
    Name(OrElse(s, Other("unknown")))
  }

  function StatusKeys(statuses: seq<Option<Status>>): (keys: seq<string>)
    ensures |keys| == |statuses|
    ensures forall i :: 0 <= i < |statuses| ==> keys[i] == StatusKey(statuses[i])
  {
    seq(|statuses|, i requires 0 <= i < |statuses| => StatusKey(statuses[i]))
  }

  /** The counting pass of `getStatusDistribution`. */
  method CountByStatus(statuses: seq<Option<Status>>) returns (counts: Counts, total: int)
    ensures counts == Tally([], StatusKeys(statuses))
    ensures total == |statuses|
  {
    counts := [];
    total := 0;
    var i := 0;
    while i < |statuses|
      invariant 0 <= i <= |statuses|
      invariant counts == Tally([], StatusKeys(statuses[..i]))
      invariant total == i
    {
      var status := StatusKey(statuses[i]);
      counts := JsMap.Set(counts, status, JsMap.Get(counts, status).GetOr(0) + 1);
      total := total + 1;
      assert StatusKeys(statuses[..i + 1])[..i] == StatusKeys(statuses[..i]);
      i := i + 1;
    }
    assert statuses[..i] == statuses;
  }

  /** Every row is counted exactly once under its status: each entry holds
      the number of rows with that key, the statuses present are exactly the
      keys, none twice, and the counts add up to the number of rows. */
  lemma StatusCounts(statuses: seq<Option<Status>>)
    ensures var counts := Tally([], StatusKeys(statuses));
      SumValues(counts) == |statuses|
      && JsMap.Distinct(JsMap.Keys(counts))
      && (forall i :: 0 <= i < |counts| ==> counts[i].1 == multiset(StatusKeys(statuses))[counts[i].0])
      && (forall k :: k in JsMap.Keys(counts) <==> k in StatusKeys(statuses))
  {
    var keys := StatusKeys(statuses);
    var counts := Tally([], keys);
    TallySum([], keys);
    KeysTally([], keys);
    forall i | 0 <= i < |counts|
      ensures counts[i].1 == multiset(keys)[counts[i].0]
    {
      GetTally([], keys, counts[i].0);
      FirstEntry(counts, i);
    }
    forall k
      ensures k in JsMap.Keys(counts) <==> k in keys
    {
      KeysOfTally([], keys, k);
    }
  }

  /** With distinct keys, `get` of an entry's key gives that entry's value. */
  lemma {:induction false} FirstEntry(m: Counts, i: int)
    requires 0 <= i < |m| && JsMap.Distinct(JsMap.Keys(m))
    ensures JsMap.Get(m, m[i].0) == Some(m[i].1)
  {
    if i > 0 {
      assert JsMap.Keys(m)[0] != JsMap.Keys(m)[i];
      assert JsMap.Keys(m[1..]) == JsMap.Keys(m)[1..];
      FirstEntry(m[1..], i - 1);
    }
  }

  /** The colour table of the distribution chart, with its "unknown" grey as
      the fallback. */
  function StatusColor(key: string): (color: string)
    ensures key !in {"pending", "approved", "declined", "cancelled", "completed"} ==> color == "#9ca3af"
  {
    if key == "pending" then "#f59e0b"
    else if key == "approved" then "#10b981"
    else if key == "declined" then "#ef4444"
    else if key == "cancelled" then "#6b7280"
    else if key == "completed" then "#3b82f6"
    else "#9ca3af"
  }

  /** Denied (the status the services write) and expired requests fall back
      to the "unknown" grey; only the unwritten "declined" is red. */
  lemma DeniedIsUnknownGrey()
    ensures StatusColor(StatusKey(Some(Denied))) == StatusColor(StatusKey(None)) == "#9ca3af"
    ensures StatusColor(StatusKey(Some(Expired))) == "#9ca3af"
    ensures StatusColor(StatusKey(Some(Declined))) == "#ef4444"
  {
  }

  /** `StatusDistribution`, one chart slice. */
  datatype StatusSlice = StatusSlice(status: string, count: int, percentage: real, color: string)

  function CountOf(s: StatusSlice): int {
    s.count
  }

  /** `count / total * 100`, or 0 when there are no rows, computed exactly
      on reals rather than on doubles. */
  function Percentage(count: int, total: int): real {
    if total > 0 then (count as real / total as real) * 100.0 else 0.0
  }

  /** The slice built from one counted entry. */
  function Slice(entry: (string, int), total: int): (s: StatusSlice)
    ensures s.count == entry.1 && s.percentage == Percentage(entry.1, total)
    ensures |s.status| == |entry.0| && (entry.0 != "" ==> s.status[1..] == entry.0[1..])
    ensures entry.0 != "" ==> s.status[0] == Text.ToUpper(entry.0[0])
    ensures s.color == StatusColor(entry.0)
  {
    StatusSlice(Text.Capitalize(entry.0), entry.1, Percentage(entry.1, total), StatusColor(entry.0))
  }

  function Slices(counts: Counts, total: int): (slices: seq<StatusSlice>)
    ensures |slices| == |counts|
    ensures forall i :: 0 <= i < |counts| ==> slices[i] == Slice(counts[i], total)
  {
    seq(|counts|, i requires 0 <= i < |counts| => Slice(counts[i], total))
  }

  /** `getStatusDistribution(agentId)` given the statuses the query fetched:
      one slice per status present, the most frequent first. */
  function StatusDistribution(statuses: seq<Option<Status>>): seq<StatusSlice> {
    JsArray.SortDesc(Slices(Tally([], StatusKeys(statuses)), |statuses|), CountOf)
  }

  method GetStatusDistribution(fetched: Result<seq<Option<Status>>, DbError>)
    returns (r: Result<seq<StatusSlice>, DbError>)
    ensures fetched.Failure? ==> r == Failure(fetched.error)
    ensures fetched.Success? ==> r == Success(StatusDistribution(fetched.value))
  {
    if fetched.Failure? {
      return Failure(fetched.error);
    }
    var counts, total := CountByStatus(fetched.value);
    r := Success(JsArray.SortDesc(Slices(counts, total), CountOf));
  }

  function PercentSum(slices: seq<StatusSlice>): real {
    if slices == [] then 0.0 else PercentSum(slices[..|slices| - 1]) + slices[|slices| - 1].percentage
  }

  lemma {:induction false} PercentSumOfCounts(slices: seq<StatusSlice>, total: int)
    requires total > 0
    requires forall i :: 0 <= i < |slices| ==> slices[i].percentage == Percentage(slices[i].count, total)
    ensures PercentSum(slices) == (JsArray.SumBy(slices, CountOf) as real / total as real) * 100.0
  {
    if slices != [] {
      var init := slices[..|slices| - 1];
      PercentSumOfCounts(init, total);
      var a := JsArray.SumBy(init, CountOf) as real;
      var c := slices[|slices| - 1].count as real;
      var t := total as real;
      assert (a / t) * 100.0 + (c / t) * 100.0 == ((a + c) / t) * 100.0;
    }
  }

  lemma {:induction false} SlicesCount(counts: Counts, total: int)
    ensures JsArray.SumBy(Slices(counts, total), CountOf) == SumValues(counts)
  {
    if counts != [] {
      var n := |counts|;
      assert Slices(counts, total)[..n - 1] == Slices(counts[..n - 1], total);
      SlicesCount(counts[..n - 1], total);
    }
  }

  /** The slices come most frequent first, one per status present, and
      their counts add up to the number of rows. */
  lemma StatusDistributionCounts(statuses: seq<Option<Status>>)
    ensures var d := StatusDistribution(statuses);
      JsArray.SortedDesc(d, CountOf)
      && |d| == |Tally([], StatusKeys(statuses))|
      && JsArray.SumBy(d, CountOf) == |statuses|
  {
    var counts := Tally([], StatusKeys(statuses));
    var slices := Slices(counts, |statuses|);
    TallySum([], StatusKeys(statuses));
    SlicesCount(counts, |statuses|);
    JsArray.SumByPermutation(StatusDistribution(statuses), slices, CountOf);
  }

  /** Reordering slices keeps each one's percentage tied to its count. */
  lemma PermutedSlices(d: seq<StatusSlice>, slices: seq<StatusSlice>, total: int)
    requires multiset(d) == multiset(slices)
    requires forall j :: 0 <= j < |slices| ==> slices[j].percentage == Percentage(slices[j].count, total)
    ensures forall i :: 0 <= i < |d| ==> d[i].percentage == Percentage(d[i].count, total)
  {
    forall i | 0 <= i < |d|
      ensures d[i].percentage == Percentage(d[i].count, total)
    {
      assert d[i] in multiset(slices);
      var j :| 0 <= j < |slices| && slices[j] == d[i];
    }
  }

  /** When there are rows, the percentages add up to 100. */
  lemma StatusDistributionPercentages(statuses: seq<Option<Status>>)
    requires |statuses| > 0
    ensures PercentSum(StatusDistribution(statuses)) == 100.0
  {
    var total := |statuses|;
    var slices := Slices(Tally([], StatusKeys(statuses)), total);
    var d := JsArray.SortDesc(slices, CountOf);
    assert d == StatusDistribution(statuses);
    PermutedSlices(d, slices, total);
    StatusDistributionCounts(statuses);
    PercentSumOfCounts(d, total);
    DivSelf(total as real);
  }

  lemma DivSelf(t: real)
    requires t > 0.0
    ensures (t / t) * 100.0 == 100.0
  {
  }

  // ---------------------------------------------------------------------------
  // Trend per day

  /** `created_at.split("T")[0]`: the date part of an ISO timestamp. */
  function DayKey(createdAt: string): (d: string)
    ensures Text.StartsWith(createdAt, d) && 'T' !in d
    ensures |d| == |createdAt| || createdAt[|d|] == 'T'
  {
    Text.BeforeFirst(createdAt, 'T')
  }

  function DayKeys(createdAt: seq<string>): (keys: seq<string>)
    ensures |keys| == |createdAt|
    ensures forall i :: 0 <= i < |createdAt| ==> keys[i] == DayKey(createdAt[i])
  {
    seq(|createdAt|, i requires 0 <= i < |createdAt| => DayKey(createdAt[i]))
  }

  /** The map after `set(d, 0)` for every day of the window, in order. */
  function ZeroBuckets(window: seq<string>): Counts {
    if window == [] then [] else JsMap.Set(ZeroBuckets(window[..|window| - 1]), window[|window| - 1], 0)
  }

  lemma {:induction false} ZeroBucketsSum(window: seq<string>)
    ensures SumValues(ZeroBuckets(window)) == 0
  {
    if window != [] {
      ZeroBucketsSum(window[..|window| - 1]);
      ZeroBucketsGet(window[..|window| - 1], window[|window| - 1]);
      SumValuesSet(ZeroBuckets(window[..|window| - 1]), window[|window| - 1], 0);
    }
  }

  /** For a window of distinct days, the buckets are keyed by the window's
      days, in order. */
  lemma {:induction false} ZeroBucketsKeys(window: seq<string>)
    requires JsMap.Distinct(window)
    ensures JsMap.Keys(ZeroBuckets(window)) == window
  {
    if window != [] {
      var init := window[..|window| - 1];
      var last := window[|window| - 1];
      ZeroBucketsKeys(init);
      JsMap.KeysSet(ZeroBuckets(init), last, 0);
      assert last !in init;
      assert window == init + [last];
    }
  }

  lemma {:induction false} ZeroBucketsGet(window: seq<string>, d: string)
    ensures JsMap.Get(ZeroBuckets(window), d).GetOr(0) == 0
    ensures JsMap.Get(ZeroBuckets(window), d).Some? <==> d in window
  {
    if window != [] {
      var init := window[..|window| - 1];
      var last := window[|window| - 1];
      ZeroBucketsGet(init, d);
      JsMap.GetSet(ZeroBuckets(init), last, 0, d);
      assert window == init + [last];
    }
  }

  /** `TourRequestTrend` without its display date, which is a locale rendering. */
  datatype TrendPoint = TrendPoint(date: string, count: int)

  function Points(m: Counts): (points: seq<TrendPoint>)
    ensures |points| == |m|
    ensures forall i :: 0 <= i < |m| ==> points[i] == TrendPoint(m[i].0, m[i].1)
  {
    seq(|m|, i requires 0 <= i < |m| => TrendPoint(m[i].0, m[i].1))
  }

  /** `getTourRequestsTrend` given the window's day strings (computed from
      the clock, oldest first) and the `created_at` values fetched: zero
      buckets for the window, then one more per row in its day's bucket. */
  method TourRequestsTrend(window: seq<string>, createdAt: seq<string>) returns (trend: seq<TrendPoint>)
    ensures trend == Points(Tally(ZeroBuckets(window), DayKeys(createdAt)))
  {
    var dateMap: Counts := [];
    var i := 0;
    while i < |window|
      invariant 0 <= i <= |window|
      invariant dateMap == ZeroBuckets(window[..i])
    {
      dateMap := JsMap.Set(dateMap, window[i], 0);
      assert window[..i + 1][..i] == window[..i];
      i := i + 1;
    }
    assert window[..i] == window;
    var j := 0;
    while j < |createdAt|
      invariant 0 <= j <= |createdAt|
      invariant dateMap == Tally(ZeroBuckets(window), DayKeys(createdAt[..j]))
    {
      var dateStr := DayKey(createdAt[j]);
      var currentCount := JsMap.Get(dateMap, dateStr).GetOr(0);
      dateMap := JsMap.Set(dateMap, dateStr, currentCount + 1);
      assert DayKeys(createdAt[..j + 1])[..j] == DayKeys(createdAt[..j]);
      j := j + 1;
    }
    assert createdAt[..j] == createdAt;
    trend := Points(dateMap);
  }

  /** The trend lists the window's days first, in order (for a window of
      distinct days), then the days of out-of-window rows; every day's count
      is its number of rows, and the counts add up to the number of rows. */
  lemma TrendShape(window: seq<string>, createdAt: seq<string>, d: string)
    requires JsMap.Distinct(window)
    ensures var m := Tally(ZeroBuckets(window), DayKeys(createdAt));
      |window| <= |JsMap.Keys(m)| && JsMap.Keys(m)[..|window|] == window
      && JsMap.Distinct(JsMap.Keys(m))
      && SumValues(m) == |createdAt|
      && JsMap.Get(m, d).GetOr(0) == multiset(DayKeys(createdAt))[d]
      && (JsMap.Get(m, d).Some? <==> d in window || d in DayKeys(createdAt))
  {
    ZeroBucketsSum(window);
    ZeroBucketsKeys(window);
    ZeroBucketsGet(window, d);
    KeysTally(ZeroBuckets(window), DayKeys(createdAt));
    TallySum(ZeroBuckets(window), DayKeys(createdAt));
    GetTally(ZeroBuckets(window), DayKeys(createdAt), d);
  }

  // ---------------------------------------------------------------------------
  // Property performance

  /** The `properties` columns the ranking reads. */
  datatype PropertyRow = PropertyRow(
    id: string,
    address: string,
    city: Option<string>,
    state: Option<string>,
    zipCode: Option<string>)

  /** `PropertyPerformance` */
  datatype PropertyPerformance = PropertyPerformance(
    propertyId: string,
    propertyAddress: string,
    tourRequests: int,
    views: int)

  function TourRequestsOf(p: PropertyPerformance): int {
    p.tourRequests
  }

  /** A nullable column inside a template literal: null is written "null". */
  function Interpolated(v: Option<string>): (t: string)
    ensures v.None? ==> t == "null"
    ensures v.Some? ==> t == v.value
  {
    match v
    case None => "null"
    case Some(x) => x
  }

  /** `${address}, ${city}, ${state} ${zip_code}` */
  function FullAddress(p: PropertyRow): string {
    p.address + ", " + Interpolated(p.city) + ", " + Interpolated(p.state) + " " + Interpolated(p.zipCode)
  }

  /** One property's entry; `counts` holds the tour-request count the
      database reported per property id, absent when the count failed. */
  function Performance(p: PropertyRow, counts: map<string, nat>): (r: PropertyPerformance)
    ensures r.propertyId == p.id && r.propertyAddress == FullAddress(p) && r.views == 0
    ensures r.propertyAddress[..|p.address| + 2] == p.address + ", "
    ensures p.city.None? && p.state.None? && p.zipCode.None? ==>
      r.propertyAddress == p.address + ", null, null null"
    ensures r.tourRequests == if p.id in counts then counts[p.id] else 0
  {
    PropertyPerformance(p.id, FullAddress(p), if p.id in counts then counts[p.id] else 0, 0)
  }

  function Performances(properties: seq<PropertyRow>, counts: map<string, nat>): (r: seq<PropertyPerformance>)
    ensures |r| == |properties|
    ensures forall i :: 0 <= i < |properties| ==> r[i] == Performance(properties[i], counts)
  {
    seq(|properties|, i requires 0 <= i < |properties| => Performance(properties[i], counts))
  }

  const TopProperties: nat := 10

  /** `getPropertyPerformance(agentId)` given the agent's properties and the
      per-property counts: nothing for no properties, otherwise the ten with
      the most tour requests, most first. */
  function PropertyPerformanceOf(properties: Result<seq<PropertyRow>, DbError>, counts: map<string, nat>)
    : (r: Result<seq<PropertyPerformance>, DbError>)
    ensures properties.Failure? ==> r == Failure(properties.error)
    ensures properties.Success? ==> r.Success? && |r.value| <= TopProperties
    ensures properties.Success? ==> JsArray.SortedDesc(r.value, TourRequestsOf)
    ensures properties.Success? ==>
      |r.value| == (if |properties.value| < TopProperties then |properties.value| else TopProperties)
    ensures properties.Success? ==>
      forall i :: 0 <= i < |r.value| ==> r.value[i] in Performances(properties.value, counts)
    ensures properties.Success? ==> multiset(r.value) <= multiset(Performances(properties.value, counts))
  {
    match properties
    case Failure(e) => Failure(e)
    case Success(rows) =>
      if |rows| == 0 then Success([])
      else
        var sorted := JsArray.SortDesc(Performances(rows, counts), TourRequestsOf);
        var top := JsArray.Take(sorted, TopProperties);
        assert forall i :: 0 <= i < |top| ==> top[i] in multiset(sorted);
        JsArray.TakeSorted(sorted, TopProperties, TourRequestsOf);
        JsArray.TakeSubMultiset(sorted, TopProperties);
        Success(top)
  }

  /** A property left out of the ranking has no more tour requests than any
      property in it. */
  lemma RankingIsTop(properties: seq<PropertyRow>, counts: map<string, nat>, out: PropertyPerformance,
                     ranked: PropertyPerformance)
    requires out in Performances(properties, counts)
    requires ranked in PropertyPerformanceOf(Success(properties), counts).value
    requires out !in PropertyPerformanceOf(Success(properties), counts).value
    ensures ranked.tourRequests >= out.tourRequests
  {
    JsArray.TakeSortedIsTop(Performances(properties, counts), TopProperties, TourRequestsOf, out, ranked);
  }

  // ---------------------------------------------------------------------------
  // Conversion metrics

  datatype ConversionMetrics = ConversionMetrics(
    totalViews: int,
    totalTourRequests: int,
    completedTours: int,
    conversionRate: real,
    completionRate: real)

  /** Views are not tracked yet, so the total is the constant 0. */
  const TotalViews: int := 0

  /** `getConversionMetrics(agentId)` given the two counts (a count may be
      absent): an error in the request count is thrown first, then one in
      the completed-tours count. */
  function ConversionMetricsOf(requestCount: Result<Option<nat>, DbError>, completedCount: Result<Option<nat>, DbError>)
    : (r: Result<ConversionMetrics, DbError>)
    ensures requestCount.Failure? ==> r == Failure(requestCount.error)
    ensures requestCount.Success? && completedCount.Failure? ==> r == Failure(completedCount.error)
    ensures r.Success? ==> r.value.totalViews == 0 && r.value.conversionRate == 0.0
    ensures r.Success? ==> r.value.totalTourRequests == requestCount.value.GetOr(0)
    ensures r.Success? ==> r.value.completedTours == completedCount.value.GetOr(0)
    ensures r.Success? && r.value.totalTourRequests == 0 ==> r.value.completionRate == 0.0
    ensures r.Success? && r.value.totalTourRequests > 0 ==>
      r.value.completionRate * (r.value.totalTourRequests as real) == (r.value.completedTours as real) * 100.0
    ensures r.Success? && r.value.completedTours <= r.value.totalTourRequests ==>
      0.0 <= r.value.completionRate <= 100.0
  {
    if requestCount.Failure? then Failure(requestCount.error)
    else if completedCount.Failure? then Failure(completedCount.error)
    else
      var total := requestCount.value.GetOr(0);
      var completed := completedCount.value.GetOr(0);
      // `totalViews > 0 ? ... : 0` with `totalViews` the constant 0
      var conversionRate := 0.0;
      var completionRate := if total > 0 then (completed as real / total as real) * 100.0 else 0.0;
      Success(ConversionMetrics(TotalViews, total, completed, conversionRate, completionRate))
  }
}
