/** The usage report (src/service/usage.rs): one set of daily rows shown as a summary, as buckets and as a breakdown. */
module UsageReport {
  import opened Wrappers
  import opened Numeric
  import opened UsageModel
  import opened Calendar

  datatype GroupBy = Account | ApiToken | Model
  datatype GroupKey = Id(id: i64) | Text(text: string)
  datatype DailyRow = DailyRow(sgDay: int, groupId: i64, groupText: string, metrics: UsageMetrics)

  datatype Bucket = Bucket(key: Date, startDate: Date, endDate: Date, startAt: int, endAtExclusive: int, metrics: UsageMetrics)

  function KeyOf(row: DailyRow, groupBy: GroupBy): GroupKey {
    if groupBy == Model then Text(row.groupText) else Id(row.groupId)
  }

  // ---- folds of metrics, all or by key ----

  /** Left fold of `add_assign` from the default. */
  function Total(ms: seq<UsageMetrics>): UsageMetrics {
    if ms == [] then ZERO_METRICS else Total(ms[..|ms| - 1]).Plus(ms[|ms| - 1])
  }

  ghost predicate AllCounting(ms: seq<UsageMetrics>) { forall k :: 0 <= k < |ms| ==> ms[k].Counting() }

  /** Metrics tagged with the key they are grouped under. */
  type Tagged<K> = seq<(K, UsageMetrics)>

  function Untagged<K>(rows: Tagged<K>): seq<UsageMetrics> { seq(|rows|, i requires 0 <= i < |rows| => rows[i].1) }

  /** Left fold over the rows whose key is in `keys`. */
  ghost function TotalIn<K>(rows: Tagged<K>, keys: set<K>): UsageMetrics {
    if rows == [] then ZERO_METRICS
    else
      var earlier, last := TotalIn(rows[..|rows| - 1], keys), rows[|rows| - 1];
      if last.0 in keys then earlier.Plus(last.1) else earlier
  }

  lemma {:induction false} TotalInCounts<K>(rows: Tagged<K>, keys: set<K>)
    requires AllCounting(Untagged(rows))
    ensures TotalIn(rows, keys).Counting()
  {
    if rows != [] {
      DropLast(rows);
      TotalInCounts(rows[..|rows| - 1], keys);
      assert Untagged(rows)[|rows| - 1].Counting();
      PlusCounts(TotalIn(rows[..|rows| - 1], keys), rows[|rows| - 1].1);
    }
  }

  lemma DropLast<K>(rows: Tagged<K>)
    requires rows != []
    ensures Untagged(rows[..|rows| - 1]) == Untagged(rows)[..|rows| - 1]
    ensures AllCounting(Untagged(rows)) ==> AllCounting(Untagged(rows[..|rows| - 1])) && rows[|rows| - 1].1.Counting()
  {
    assert Untagged(rows)[|rows| - 1] == rows[|rows| - 1].1;
  }

  /** Keys that cover every row select all of them. */
  lemma {:induction false} TotalInAll<K>(rows: Tagged<K>, keys: set<K>)
    requires forall k :: 0 <= k < |rows| ==> rows[k].0 in keys
    ensures TotalIn(rows, keys) == Total(Untagged(rows))
  {
    if rows != [] {
      DropLast(rows);
      TotalInAll(rows[..|rows| - 1], keys);
    }
  }

  lemma Interchange(a: UsageMetrics, b: UsageMetrics, m: UsageMetrics)
    requires a.Counting() && b.Counting() && m.Counting()
    ensures a.Plus(m).Plus(b) == a.Plus(b).Plus(m)
  {
    PlusAssociates(a, m, b);
    PlusCommutes(m, b);
    PlusAssociates(a, b, m);
  }

  /** Splitting the keys splits the total. */
  lemma {:induction false} TotalInSplits<K>(rows: Tagged<K>, a: set<K>, b: set<K>)
    requires AllCounting(Untagged(rows)) && a !! b
    ensures TotalIn(rows, a + b) == TotalIn(rows, a).Plus(TotalIn(rows, b))
  {
    if rows != [] {
      var front, last := rows[..|rows| - 1], rows[|rows| - 1];
      DropLast(rows);
      TotalInSplits(front, a, b);
      TotalInCounts(front, a);
      TotalInCounts(front, b);
      if last.0 in a {
        Interchange(TotalIn(front, a), TotalIn(front, b), last.1);
      } else if last.0 in b {
        PlusAssociates(TotalIn(front, a), TotalIn(front, b), last.1);
      }
    }
  }

  /** Each key's total, folded over a list of keys. */
  ghost function FoldKeys<K>(rows: Tagged<K>, keys: seq<K>): UsageMetrics {
    if keys == [] then ZERO_METRICS
    else FoldKeys(rows, keys[..|keys| - 1]).Plus(TotalIn(rows, {keys[|keys| - 1]}))
  }

  ghost predicate Distinct<K>(keys: seq<K>) { forall i, j :: 0 <= i < j < |keys| ==> keys[i] != keys[j] }

  ghost function Elements<K>(keys: seq<K>): set<K> { set k | k in keys }

  /** Folding the groups, in any order that lists each key once, is folding the rows of those keys. */
  lemma {:induction false} GroupsFoldToTotal<K>(rows: Tagged<K>, keys: seq<K>)
    requires AllCounting(Untagged(rows)) && Distinct(keys)
    ensures FoldKeys(rows, keys) == TotalIn(rows, Elements(keys))
  {
    if keys == [] {
      NothingSelected(rows);
      assert Elements(keys) == {};
    } else {
      var front, last := keys[..|keys| - 1], keys[|keys| - 1];
      GroupsFoldToTotal(rows, front);
      assert Elements(keys) == Elements(front) + {last};
      TotalInSplits(rows, Elements(front), {last});
    }
  }

  lemma {:induction false} NothingSelected<K>(rows: Tagged<K>)
    ensures TotalIn(rows, {}) == ZERO_METRICS
  {
    if rows != [] { NothingSelected(rows[..|rows| - 1]); }
  }

  // ---- exact sums over rows ----

  function SumOver(rows: seq<DailyRow>, k: Measure): int {
    if rows == [] then 0 else SumOver(rows[..|rows| - 1], k) + Measured(rows[|rows| - 1].metrics, k)
  }

  /** The rows of days a to b. */
  function RowsOfDays(rows: seq<DailyRow>, a: int, b: int): seq<DailyRow> {
    if rows == [] then []
    else
      var last := rows[|rows| - 1];
      RowsOfDays(rows[..|rows| - 1], a, b) + (if a <= last.sgDay <= b then [last] else [])
  }

  function RowsOfGroup(rows: seq<DailyRow>, key: GroupKey, groupBy: GroupBy): seq<DailyRow> {
    if rows == [] then []
    else
      var last := rows[|rows| - 1];
      RowsOfGroup(rows[..|rows| - 1], key, groupBy) + (if KeyOf(last, groupBy) == key then [last] else [])
  }

  /** Two rows share a group when they share the account, the token or the model that is grouped by. */
  lemma GroupsAreIds(a: DailyRow, b: DailyRow, groupBy: GroupBy)
    ensures KeyOf(a, groupBy) == KeyOf(b, groupBy) <==> if groupBy.Model? then a.groupText == b.groupText else a.groupId == b.groupId
  {}

  ghost predicate RowsCount(rows: seq<DailyRow>) { forall i :: 0 <= i < |rows| ==> rows[i].metrics.Counting() }

  lemma OneMoreSummed(rows: seq<DailyRow>, row: DailyRow, k: Measure)
    ensures SumOver(rows + [row], k) == SumOver(rows, k) + Measured(row.metrics, k)
  {
    assert (rows + [row])[..|rows|] == rows;
  }

  lemma ShownOneMore(m: UsageMetrics, rows: seq<DailyRow>, row: DailyRow)
    requires ShowsSums(m, k => SumOver(rows, k)) && row.metrics.Counting()
    ensures ShowsSums(m.Plus(row.metrics), k => SumOver(rows + [row], k))
  {
    hide SumOver, Measured, ShowsSums;
    forall k: Measure
      ensures SumOver(rows + [row], k) == SumOver(rows, k) + Measured(row.metrics, k)
    {
      OneMoreSummed(rows, row, k);
    }
    PlusShowsSums(m, row.metrics, k => SumOver(rows, k), k => SumOver(rows + [row], k));
  }

  lemma {:induction false} TotalShows(rows: seq<DailyRow>)
    requires RowsCount(rows)
    ensures ShowsSums(Total(MetricsOf(rows)), k => SumOver(rows, k))
  {
    hide ShowsSums;
    if rows == [] {
      ZeroShowsNothing(k => SumOver(rows, k));
    } else {
      var front := rows[..|rows| - 1];
      TotalShows(front);
      assert MetricsOf(rows)[..|rows| - 1] == MetricsOf(front);
      assert rows == front + [rows[|rows| - 1]];
      ShownOneMore(Total(MetricsOf(front)), front, rows[|rows| - 1]);
    }
  }

  lemma {:induction false} DaysShow(rows: seq<DailyRow>, a: int, b: int)
    requires RowsCount(rows)
    ensures ShowsSums(TotalIn(ByDay(rows), DayRange(a, b)), k => SumOver(RowsOfDays(rows, a, b), k))
  {
    hide ShowsSums, SumOver, DayRange;
    if rows == [] {
      NothingSummed();
      ZeroShowsNothing(k => SumOver([], k));
    } else {
      var front, last := rows[..|rows| - 1], rows[|rows| - 1];
      DaysShow(front, a, b);
      assert ByDay(rows)[..|rows| - 1] == ByDay(front);
      if a <= last.sgDay <= b { ShownOneMore(TotalIn(ByDay(front), DayRange(a, b)), RowsOfDays(front, a, b), last); }
      assert RowsOfDays(front, a, b) + [] == RowsOfDays(front, a, b);
    }
  }

  lemma {:induction false} GroupShows(rows: seq<DailyRow>, key: GroupKey, groupBy: GroupBy)
    requires RowsCount(rows)
    ensures ShowsSums(TotalIn(ByGroup(rows, groupBy), {key}), k => SumOver(RowsOfGroup(rows, key, groupBy), k))
  {
    hide ShowsSums, SumOver;
    if rows == [] {
      NothingSummed();
      ZeroShowsNothing(k => SumOver([], k));
    } else {
      var front, last := rows[..|rows| - 1], rows[|rows| - 1];
      GroupShows(front, key, groupBy);
      assert ByGroup(rows, groupBy)[..|rows| - 1] == ByGroup(front, groupBy);
      if KeyOf(last, groupBy) == key { ShownOneMore(TotalIn(ByGroup(front, groupBy), {key}), RowsOfGroup(front, key, groupBy), last); }
      assert RowsOfGroup(front, key, groupBy) + [] == RowsOfGroup(front, key, groupBy);
    }
  }

  lemma NothingSummed()
    ensures forall k: Measure :: SumOver([], k) == 0
  {}

  // ---- buckets ----

  function ByDay(rows: seq<DailyRow>): Tagged<int> { seq(|rows|, i requires 0 <= i < |rows| => (rows[i].sgDay, rows[i].metrics)) }

  function ByGroup(rows: seq<DailyRow>, groupBy: GroupBy): Tagged<GroupKey> {
    seq(|rows|, i requires 0 <= i < |rows| => (KeyOf(rows[i], groupBy), rows[i].metrics))
  }

  function MetricsOf(rows: seq<DailyRow>): seq<UsageMetrics> { seq(|rows|, i requires 0 <= i < |rows| => rows[i].metrics) }

  /** Days a to b, one after the other, each day's metrics added when it has any. */
  function DaysTotal(byDay: map<int, UsageMetrics>, a: int, b: int): UsageMetrics
    decreases b - a
  {
    if b < a then ZERO_METRICS
    else
      var earlier := DaysTotal(byDay, a, b - 1);
      if b in byDay then earlier.Plus(byDay[b]) else earlier
  }

  /** The per-date entry of the bucket map: first and last date covered so far, and the metrics. */
  datatype Entry = Entry(first: Date, last: Date, metrics: UsageMetrics)

  type Item = (Date, Entry)

  /** A map iterated in key order, as its items in that order. */
  function Find(items: seq<Item>, k: Date): Option<Entry> {
    if items == [] then None
    else
      var last := items[|items| - 1];
      if last.0 == k then Some(last.1)
      else if Before(last.0, k) then None
      else Find(items[..|items| - 1], k)
  }

  function Put(items: seq<Item>, k: Date, e: Entry): seq<Item> {
    if items == [] then [(k, e)]
    else
      var front, last := items[..|items| - 1], items[|items| - 1];
      if last.0 == k then front + [(k, e)]
      else if Before(last.0, k) then items + [(k, e)]
      else Put(front, k, e) + [last]
  }

  /** One pass of the loop over the dates. */
  function AddDate(items: seq<Item>, date: Date, g: Granularity, byDay: map<int, UsageMetrics>): seq<Item> {
    var k := BucketStart(date, g);
    Put(items, k, EntryAfter(Find(items, k).GetOr(Entry(date, date, ZERO_METRICS)), date, byDay))
  }

  function EntryAfter(e: Entry, date: Date, byDay: map<int, UsageMetrics>): Entry {
    if DayNumber(date) in byDay then Entry(e.first, date, e.metrics.Plus(byDay[DayNumber(date)])) else Entry(e.first, date, e.metrics)
  }

  /** Every covered date has the key as its natural bucket start, and the metrics are those of the covered days. */
  ghost predicate FilledItem(item: Item, g: Granularity, byDay: map<int, UsageMetrics>) {
    var (k, e) := item;
    && ValidDate(k) && ValidDate(e.first) && ValidDate(e.last) && DayNumber(e.first) <= DayNumber(e.last)
    && (forall d: Date :: ValidDate(d) && DayNumber(e.first) <= DayNumber(d) <= DayNumber(e.last) ==> BucketStart(d, g) == k)
    && e.metrics == DaysTotal(byDay, DayNumber(e.first), DayNumber(e.last))
  }

  /** Keys ascend, and each item takes over on the day after the one before it ends. */
  ghost predicate Linked(a: Item, b: Item) {
    DayNumber(a.0) < DayNumber(b.0) && b.1.first == NextDay(a.1.last)
  }

  /** The map after every date from `start` up to, not including, `next`. */
  ghost predicate Filled(items: seq<Item>, start: Date, next: Date, g: Granularity, byDay: map<int, UsageMetrics>) {
    && (items == [] ==> next == start)
    && (items != [] ==> items[0].1.first == start && NextDay(items[|items| - 1].1.last) == next)
    && (forall i :: 0 <= i < |items| ==> FilledItem(items[i], g, byDay))
    && (forall i :: 0 < i < |items| ==> Linked(items[i - 1], items[i]))
  }

  /** A date's natural start is the key of the last item, or comes after it. */
  lemma NextKeyIsLast(last: Item, date: Date, g: Granularity, byDay: map<int, UsageMetrics>)
    requires FilledItem(last, g, byDay) && NextDay(last.1.last) == date
    ensures ValidDate(date) && ValidDate(BucketStart(date, g))
    ensures BucketStart(date, g) == last.0 || (Before(last.0, BucketStart(date, g)) && DayNumber(last.0) < DayNumber(BucketStart(date, g)))
  {
    var previous := last.1.last;
    NextDayNumber(previous);
    BucketStartMonotone(previous, g);
    assert BucketStart(previous, g) == last.0;
    DayNumberOrders(last.0, BucketStart(date, g));
  }

  lemma ExtendedItem(item: Item, date: Date, g: Granularity, byDay: map<int, UsageMetrics>)
    requires ValidDate(date) && FilledItem(item, g, byDay) && NextDay(item.1.last) == date && BucketStart(date, g) == item.0
    ensures FilledItem((item.0, EntryAfter(item.1, date, byDay)), g, byDay)
  {
    hide BucketStart, NextDay, ValidDate, DaysTotal;
    var e := item.1;
    assert DayNumber(date) == DayNumber(e.last) + 1 by { NextDayNumber(e.last); }
    hide DayNumber;
    forall d: Date | ValidDate(d) && DayNumber(e.first) <= DayNumber(d) <= DayNumber(date)
      ensures BucketStart(d, g) == item.0
    {
      if DayNumber(d) == DayNumber(date) { DayNumberOrders(d, date); }
    }
    NextDaysTotal(byDay, DayNumber(e.first), DayNumber(date));
  }

  lemma NextDaysTotal(byDay: map<int, UsageMetrics>, a: int, b: int)
    requires a <= b
    ensures DaysTotal(byDay, a, b)
            == if b in byDay then DaysTotal(byDay, a, b - 1).Plus(byDay[b]) else DaysTotal(byDay, a, b - 1)
  {}

  lemma NewItem(date: Date, g: Granularity, byDay: map<int, UsageMetrics>)
    requires ValidDate(date)
    ensures FilledItem((BucketStart(date, g), EntryAfter(Entry(date, date, ZERO_METRICS), date, byDay)), g, byDay)
  {
    BucketStartMonotone(date, g);
    hide BucketStart, NextDay, ValidDate, DayNumber;
    NextDaysTotal(byDay, DayNumber(date), DayNumber(date));
    forall d: Date | ValidDate(d) && DayNumber(date) <= DayNumber(d) <= DayNumber(date)
      ensures BucketStart(d, g) == BucketStart(date, g)
    {
      DayNumberOrders(d, date);
    }
  }

  lemma AddDateFills(items: seq<Item>, start: Date, date: Date, g: Granularity, byDay: map<int, UsageMetrics>)
    requires ValidDate(date) && Filled(items, start, date, g, byDay)
    ensures AddDate(items, date, g, byDay) != []
    ensures Filled(AddDate(items, date, g, byDay), start, NextDay(date), g, byDay)
  {
    hide FilledItem, DayNumber, NextDay, BucketStart, Before, ValidDate;
    var k := BucketStart(date, g);
    NewItem(date, g, byDay);
    if items != [] {
      var front, last := items[..|items| - 1], items[|items| - 1];
      NextKeyIsLast(last, date, g, byDay);
      if k == last.0 { ExtendedItem(last, date, g, byDay); }
    }
  }

  /** What a list of buckets for a date range is. */
  ghost predicate Covers(bs: seq<Bucket>, start: Date, end: Date, g: Granularity, byDay: map<int, UsageMetrics>) {
    && (bs == [] <==> DayNumber(end) < DayNumber(start))
    && (bs != [] ==> bs[0].startDate == start && bs[|bs| - 1].endDate == end)
    && (forall i :: 0 <= i < |bs| ==> BucketIsRight(bs[i], g, byDay))
    && (forall i :: 0 < i < |bs| ==> BucketsMeet(bs[i - 1], bs[i]))
  }

  /** The dates of one bucket share its natural start, its metrics are theirs, and its interval runs midnight to midnight. */
  ghost predicate BucketIsRight(b: Bucket, g: Granularity, byDay: map<int, UsageMetrics>) {
    && FilledItem((b.key, Entry(b.startDate, b.endDate, b.metrics)), g, byDay)
    && b.startAt == SingaporeMidnight(b.startDate) && b.endAtExclusive == SingaporeMidnight(NextDay(b.endDate))
  }

  ghost predicate BucketsMeet(a: Bucket, b: Bucket) {
    DayNumber(a.key) < DayNumber(b.key) && b.startDate == NextDay(a.endDate) && b.startAt == a.endAtExclusive
  }

  function ToBucket(item: Item): Bucket {
    Bucket(item.0, item.1.first, item.1.last, SingaporeMidnight(item.1.first), SingaporeMidnight(NextDay(item.1.last)), item.1.metrics)
  }

  method BuildBuckets(start: Date, end: Date, g: Granularity, byDay: map<int, UsageMetrics>) returns (buckets: seq<Bucket>)
    requires ValidDate(start) && ValidDate(end)
    ensures Covers(buckets, start, end, g, byDay)
  {
    hide FilledItem, DayNumber, NextDay, BucketStart, Before, ValidDate, SingaporeMidnight, AddDate;
    var items: seq<Item> := [];
    var date := start;
    while !Before(end, date)
      invariant ValidDate(date) && DayNumber(start) <= DayNumber(date)
      invariant items == [] ==> date == start
      invariant items != [] ==> DayNumber(date) <= DayNumber(end) + 1 && DayNumber(start) <= DayNumber(end)
      invariant Filled(items, start, date, g, byDay)
      decreases DayNumber(end) - DayNumber(date)
    {
      DayNumberOrders(end, date);
      NextDayNumber(date);
      AddDateFills(items, start, date, g, byDay);
      items := AddDate(items, date, g, byDay);
      date := NextDay(date);
    }
    DayNumberOrders(end, date);
    if items != [] { LastDateIsEnd(items[|items| - 1], end, date, g, byDay); }
    buckets := [];
    for i := 0 to |items|
      invariant |buckets| == i
      invariant forall k :: 0 <= k < i ==> buckets[k] == ToBucket(items[k])
    {
      buckets := buckets + [ToBucket(items[i])];
    }
  }

  lemma LastDateIsEnd(last: Item, end: Date, date: Date, g: Granularity, byDay: map<int, UsageMetrics>)
    requires FilledItem(last, g, byDay) && ValidDate(end) && NextDay(last.1.last) == date
    requires DayNumber(date) == DayNumber(end) + 1
    ensures last.1.last == end
  {
    NextDayNumber(last.1.last);
    DayNumberOrders(last.1.last, end);
  }

  // ---- the three views ----

  /** The per-day map of the report is exactly the per-day totals of the rows. */
  ghost predicate DaySums(byDay: map<int, UsageMetrics>, rows: seq<DailyRow>) {
    && (forall d :: d in byDay <==> exists i :: 0 <= i < |rows| && rows[i].sgDay == d)
    && (forall d :: d in byDay ==> byDay[d] == TotalIn(ByDay(rows), {d}))
  }

  ghost predicate GroupSums(breakdown: map<GroupKey, UsageMetrics>, rows: seq<DailyRow>, groupBy: GroupBy) {
    && (forall k :: k in breakdown <==> exists i :: 0 <= i < |rows| && KeyOf(rows[i], groupBy) == k)
    && (forall k :: k in breakdown ==> breakdown[k] == TotalIn(ByGroup(rows, groupBy), {k}))
  }

  method Report(rows: seq<DailyRow>, start: Date, end: Date, g: Granularity, groupBy: GroupBy)
    returns (summary: UsageMetrics, buckets: seq<Bucket>, breakdown: map<GroupKey, UsageMetrics>, byDay: map<int, UsageMetrics>)
    requires ValidDate(start) && ValidDate(end)
    ensures summary == Total(MetricsOf(rows))
    ensures DaySums(byDay, rows) && Covers(buckets, start, end, g, byDay)
    ensures GroupSums(breakdown, rows, groupBy)
    ensures RowsCount(rows) ==> ReportShows(rows, groupBy, summary, buckets, breakdown)
  {
    summary, byDay, breakdown := ZERO_METRICS, map[], map[];
    for i := 0 to |rows|
      invariant summary == Total(MetricsOf(rows[..i]))
      invariant DaySums(byDay, rows[..i])
      invariant GroupSums(breakdown, rows[..i], groupBy)
    {
      var row := rows[i];
      var key := KeyOf(row, groupBy);
      OneMoreRow(rows, i, groupBy);
      DaySumsStep(byDay, rows[..i], row);
      GroupSumsStep(breakdown, rows[..i], row, groupBy);
      summary := summary.Plus(row.metrics);
      byDay := byDay[row.sgDay := (if row.sgDay in byDay then byDay[row.sgDay] else ZERO_METRICS).Plus(row.metrics)];
      breakdown := breakdown[key := (if key in breakdown then breakdown[key] else ZERO_METRICS).Plus(row.metrics)];
    }
    assert rows[..|rows|] == rows;
    buckets := BuildBuckets(start, end, g, byDay);
    if RowsCount(rows) { ReportIsExact(rows, start, end, g, groupBy, buckets, breakdown, byDay); }
  }

  /** The summary shows the exact sums of all rows, each bucket those of its days, each group those of its rows. */
  ghost predicate ReportShows(rows: seq<DailyRow>, groupBy: GroupBy, summary: UsageMetrics, buckets: seq<Bucket>,
                              breakdown: map<GroupKey, UsageMetrics>) {
    && ShowsSums(summary, k => SumOver(rows, k))
    && (forall i :: 0 <= i < |buckets| ==>
          var b := buckets[i];
          ShowsSums(b.metrics, k => SumOver(RowsOfDays(rows, DayNumber(b.startDate), DayNumber(b.endDate)), k)))
    && (forall key :: key in breakdown ==> ShowsSums(breakdown[key], k => SumOver(RowsOfGroup(rows, key, groupBy), k)))
  }

  lemma ReportIsExact(rows: seq<DailyRow>, start: Date, end: Date, g: Granularity, groupBy: GroupBy, buckets: seq<Bucket>,
                      breakdown: map<GroupKey, UsageMetrics>, byDay: map<int, UsageMetrics>)
    requires RowsCount(rows)
    requires DaySums(byDay, rows) && Covers(buckets, start, end, g, byDay) && GroupSums(breakdown, rows, groupBy)
    ensures ReportShows(rows, groupBy, Total(MetricsOf(rows)), buckets, breakdown)
  {
    hide ShowsSums, SumOver, DayNumber, TotalIn, Total, DaySums, DaysTotal, FilledItem, RowsOfDays, RowsOfGroup;
    TotalShows(rows);
    assert AllCounting(Untagged(ByDay(rows)));
    forall i | 0 <= i < |buckets|
      ensures var b := buckets[i];
              ShowsSums(b.metrics, k => SumOver(RowsOfDays(rows, DayNumber(b.startDate), DayNumber(b.endDate)), k))
    {
      var b := buckets[i];
      RightBucketHolds(b, g, byDay);
      DaysTotalIsRowsTotal(byDay, rows, DayNumber(b.startDate), DayNumber(b.endDate));
      DaysShow(rows, DayNumber(b.startDate), DayNumber(b.endDate));
    }
    forall key | key in breakdown
      ensures ShowsSums(breakdown[key], k => SumOver(RowsOfGroup(rows, key, groupBy), k))
    {
      GroupShows(rows, key, groupBy);
    }
  }

  lemma OneMoreRow(rows: seq<DailyRow>, i: nat, groupBy: GroupBy)
    requires i < |rows|
    ensures rows[..i + 1] == rows[..i] + [rows[i]]
    ensures Total(MetricsOf(rows[..i + 1])) == Total(MetricsOf(rows[..i])).Plus(rows[i].metrics)
  {
    assert rows[..i + 1] == rows[..i] + [rows[i]];
    assert MetricsOf(rows[..i + 1])[..i] == MetricsOf(rows[..i]);
  }

  lemma AppendTagged<K>(rows: Tagged<K>, last: (K, UsageMetrics), keys: set<K>)
    ensures TotalIn(rows + [last], keys)
            == if last.0 in keys then TotalIn(rows, keys).Plus(last.1) else TotalIn(rows, keys)
  {
    assert (rows + [last])[..|rows|] == rows;
  }

  lemma {:induction false} AbsentKeyIsZero<K>(rows: Tagged<K>, key: K)
    requires forall i :: 0 <= i < |rows| ==> rows[i].0 != key
    ensures TotalIn(rows, {key}) == ZERO_METRICS
  {
    if rows != [] { AbsentKeyIsZero(rows[..|rows| - 1], key); }
  }

  lemma DaySumsStep(byDay: map<int, UsageMetrics>, rows: seq<DailyRow>, row: DailyRow)
    requires DaySums(byDay, rows)
    ensures DaySums(byDay[row.sgDay := (if row.sgDay in byDay then byDay[row.sgDay] else ZERO_METRICS).Plus(row.metrics)],
                    rows + [row])
  {
    hide TotalIn;
    var tagged := ByDay(rows);
    assert ByDay(rows + [row]) == tagged + [(row.sgDay, row.metrics)];
    forall d | d in byDay || d == row.sgDay
      ensures TotalIn(tagged + [(row.sgDay, row.metrics)], {d})
              == if d == row.sgDay then TotalIn(tagged, {d}).Plus(row.metrics) else TotalIn(tagged, {d})
    {
      AppendTagged(tagged, (row.sgDay, row.metrics), {d});
    }
    if row.sgDay !in byDay { AbsentKeyIsZero(tagged, row.sgDay); }
    assert (rows + [row])[|rows|] == row;
    assert forall i :: 0 <= i < |rows| ==> (rows + [row])[i] == rows[i];
  }

  lemma GroupSumsStep(breakdown: map<GroupKey, UsageMetrics>, rows: seq<DailyRow>, row: DailyRow, groupBy: GroupBy)
    requires GroupSums(breakdown, rows, groupBy)
    ensures var key := KeyOf(row, groupBy);
            GroupSums(breakdown[key := (if key in breakdown then breakdown[key] else ZERO_METRICS).Plus(row.metrics)],
                      rows + [row], groupBy)
  {
    hide TotalIn;
    var tagged, key := ByGroup(rows, groupBy), KeyOf(row, groupBy);
    assert ByGroup(rows + [row], groupBy) == tagged + [(key, row.metrics)];
    forall k | k in breakdown || k == key
      ensures TotalIn(tagged + [(key, row.metrics)], {k})
              == if k == key then TotalIn(tagged, {k}).Plus(row.metrics) else TotalIn(tagged, {k})
    {
      AppendTagged(tagged, (key, row.metrics), {k});
    }
    if key !in breakdown { AbsentKeyIsZero(tagged, key); }
    assert (rows + [row])[|rows|] == row;
    assert forall i :: 0 <= i < |rows| ==> (rows + [row])[i] == rows[i];
  }

  // ---- agreement ----

  ghost predicate RowsInRange(rows: seq<DailyRow>, start: Date, end: Date) {
    forall i :: 0 <= i < |rows| ==> rows[i].metrics.Counting() && DayNumber(start) <= rows[i].sgDay <= DayNumber(end)
  }

  function BucketMetrics(bs: seq<Bucket>): seq<UsageMetrics> { seq(|bs|, i requires 0 <= i < |bs| => bs[i].metrics) }

  function DayRange(a: int, b: int): (days: set<int>)
    ensures forall d :: d in days <==> a <= d <= b
    decreases b - a
  {
    if b < a then {} else DayRange(a, b - 1) + {b}
  }

  lemma {:induction false} DaysTotalIsRowsTotal(byDay: map<int, UsageMetrics>, rows: seq<DailyRow>, a: int, b: int)
    requires DaySums(byDay, rows) && AllCounting(Untagged(ByDay(rows)))
    ensures DaysTotal(byDay, a, b) == TotalIn(ByDay(rows), DayRange(a, b))
    decreases b - a
  {
    var tagged := ByDay(rows);
    if b < a {
      assert DayRange(a, b) == {};
      NothingSelected(tagged);
    } else {
      DaysTotalIsRowsTotal(byDay, rows, a, b - 1);
      assert DayRange(a, b) == DayRange(a, b - 1) + {b};
      TotalInSplits(tagged, DayRange(a, b - 1), {b});
      if b !in byDay {
        AbsentKeyIsZero(tagged, b);
        TotalInCounts(tagged, DayRange(a, b - 1));
        PlusZero(TotalIn(tagged, DayRange(a, b - 1)));
      }
    }
  }

  /** Folding the first n buckets adds up the rows of the days they cover. */
  lemma {:induction false} BucketsFold(bs: seq<Bucket>, n: nat, start: Date, end: Date, g: Granularity,
                                       byDay: map<int, UsageMetrics>, rows: seq<DailyRow>)
    requires Covers(bs, start, end, g, byDay) && 0 < n <= |bs|
    requires DaySums(byDay, rows) && AllCounting(Untagged(ByDay(rows)))
    ensures Total(BucketMetrics(bs)[..n]) == TotalIn(ByDay(rows), DayRange(DayNumber(start), DayNumber(bs[n - 1].endDate)))
    ensures DayNumber(start) <= DayNumber(bs[n - 1].endDate)
  {
    hide DayNumber, NextDay, BucketStart, Before, ValidDate, FilledItem, DaySums, Total, TotalIn, BucketMetrics;
    var tagged, b := ByDay(rows), bs[n - 1];
    var days := DayRange(DayNumber(b.startDate), DayNumber(b.endDate));
    RightBucketHolds(b, g, byDay);
    DaysTotalIsRowsTotal(byDay, rows, DayNumber(b.startDate), DayNumber(b.endDate));
    OneMoreBucket(bs, n);
    if n == 1 {
      TotalInCounts(tagged, days);
      PlusZero(b.metrics);
    } else {
      BucketsFold(bs, n - 1, start, end, g, byDay, rows);
      RightBucketHolds(bs[n - 2], g, byDay);
      NextDayNumber(bs[n - 2].endDate);
      assert BucketsMeet(bs[n - 2], b);
      var earlier := DayRange(DayNumber(start), DayNumber(bs[n - 2].endDate));
      assert DayRange(DayNumber(start), DayNumber(b.endDate)) == earlier + days;
      TotalInSplits(tagged, earlier, days);
    }
  }

  lemma RightBucketHolds(b: Bucket, g: Granularity, byDay: map<int, UsageMetrics>)
    requires BucketIsRight(b, g, byDay)
    ensures b.metrics == DaysTotal(byDay, DayNumber(b.startDate), DayNumber(b.endDate))
    ensures ValidDate(b.startDate) && ValidDate(b.endDate) && DayNumber(b.startDate) <= DayNumber(b.endDate)
  {}

  lemma OneMoreBucket(bs: seq<Bucket>, n: nat)
    requires 0 < n <= |bs|
    ensures Total(BucketMetrics(bs)[..n]) == Total(BucketMetrics(bs)[..n - 1]).Plus(bs[n - 1].metrics)
    ensures n == 1 ==> Total(BucketMetrics(bs)[..n - 1]) == ZERO_METRICS
  {
    assert BucketMetrics(bs)[..n][..n - 1] == BucketMetrics(bs)[..n - 1];
  }

  /** For non-negative rows in range the three views agree, even where counters saturate:
      the summary is the fold of the buckets and the fold of the breakdown, whatever order its rows are listed in. */
  lemma ViewsAgree(rows: seq<DailyRow>, start: Date, end: Date, g: Granularity, groupBy: GroupBy,
                   byDay: map<int, UsageMetrics>, buckets: seq<Bucket>, breakdown: map<GroupKey, UsageMetrics>,
                   listing: seq<GroupKey>)
    requires RowsInRange(rows, start, end)
    requires DaySums(byDay, rows) && Covers(buckets, start, end, g, byDay) && GroupSums(breakdown, rows, groupBy)
    requires Distinct(listing) && forall k :: k in listing <==> k in breakdown
    ensures Total(BucketMetrics(buckets)) == Total(MetricsOf(rows))
    ensures Total(seq(|listing|, i requires 0 <= i < |listing| => breakdown[listing[i]])) == Total(MetricsOf(rows))
  {
    BucketsFoldToSummary(rows, start, end, g, byDay, buckets);
    BreakdownFoldsToSummary(rows, groupBy, breakdown, listing) by {
      assert forall i :: 0 <= i < |rows| ==> rows[i].metrics.Counting();
    }
  }

  lemma BreakdownFoldsToSummary(rows: seq<DailyRow>, groupBy: GroupBy, breakdown: map<GroupKey, UsageMetrics>, listing: seq<GroupKey>)
    requires forall i :: 0 <= i < |rows| ==> rows[i].metrics.Counting()
    requires GroupSums(breakdown, rows, groupBy) && Distinct(listing) && forall k :: k in listing <==> k in breakdown
    ensures Total(seq(|listing|, i requires 0 <= i < |listing| => breakdown[listing[i]])) == Total(MetricsOf(rows))
  {
    var tagged := ByGroup(rows, groupBy);
    assert Untagged(tagged) == MetricsOf(rows);
    ListingFolds(tagged, breakdown, listing);
    GroupsFoldToTotal(tagged, listing);
    TotalInAll(tagged, Elements(listing));
  }

  lemma BucketsFoldToSummary(rows: seq<DailyRow>, start: Date, end: Date, g: Granularity,
                             byDay: map<int, UsageMetrics>, buckets: seq<Bucket>)
    requires RowsInRange(rows, start, end)
    requires DaySums(byDay, rows) && Covers(buckets, start, end, g, byDay)
    ensures Total(BucketMetrics(buckets)) == Total(MetricsOf(rows))
  {
    hide DayNumber, NextDay, BucketStart, Before, ValidDate, FilledItem, DaysTotal;
    assert Untagged(ByDay(rows)) == MetricsOf(rows);
    if buckets == [] {
      assert |rows| == 0;
      assert MetricsOf(rows) == [] && BucketMetrics(buckets) == [];
    } else {
      BucketsFold(buckets, |buckets|, start, end, g, byDay, rows);
      assert BucketMetrics(buckets)[..|buckets|] == BucketMetrics(buckets);
      TotalInAll(ByDay(rows), DayRange(DayNumber(start), DayNumber(end)));
    }
  }

  lemma {:induction false} ListingFolds<K>(tagged: Tagged<K>, groups: map<K, UsageMetrics>, listing: seq<K>)
    requires forall k :: k in listing ==> k in groups && groups[k] == TotalIn(tagged, {k})
    ensures Total(seq(|listing|, i requires 0 <= i < |listing| => groups[listing[i]])) == FoldKeys(tagged, listing)
  {
    if listing != [] {
      var front := listing[..|listing| - 1];
      ListingFolds(tagged, groups, front);
      var all := seq(|listing|, i requires 0 <= i < |listing| => groups[listing[i]]);
      assert all[..|listing| - 1] == seq(|front|, i requires 0 <= i < |front| => groups[front[i]]);
    }
  }

  ghost predicate Holds(b: Bucket, instant: int) { b.startAt <= instant < b.endAtExclusive }

  /** Each instant of the date range lies in exactly one bucket, the one whose dates include its Singapore day;
      instants outside the range lie in none. */
  lemma BucketsPartitionTime(bs: seq<Bucket>, start: Date, end: Date, g: Granularity, byDay: map<int, UsageMetrics>, instant: int)
    requires ValidDate(start) && ValidDate(end) && Covers(bs, start, end, g, byDay)
    ensures (exists i :: 0 <= i < |bs| && Holds(bs[i], instant)) <==> DayNumber(start) <= SgDay(instant) <= DayNumber(end)
    ensures forall i, j :: 0 <= i < j < |bs| ==> !(Holds(bs[i], instant) && Holds(bs[j], instant))
    ensures forall i :: 0 <= i < |bs| ==>
              (Holds(bs[i], instant) <==> DayNumber(bs[i].startDate) <= SgDay(instant) <= DayNumber(bs[i].endDate))
  {
    hide DayNumber, NextDay, BucketStart, Before, ValidDate, SgDay, SingaporeMidnight;
    forall i | 0 <= i < |bs|
      ensures Holds(bs[i], instant) <==> DayNumber(bs[i].startDate) <= SgDay(instant) <= DayNumber(bs[i].endDate)
      ensures DayNumber(start) <= DayNumber(bs[i].startDate) && DayNumber(bs[i].endDate) <= DayNumber(end)
    {
      assert BucketIsRight(bs[i], g, byDay) && FilledItem((bs[i].key, Entry(bs[i].startDate, bs[i].endDate, bs[i].metrics)), g, byDay);
      IntervalHoldsItsDays(bs[i].startDate, bs[i].endDate, instant);
      BucketsAscend(bs, 0, i, start, end, g, byDay);
      BucketsAscend(bs, i, |bs| - 1, start, end, g, byDay);
      assert BucketIsRight(bs[0], g, byDay) && BucketIsRight(bs[|bs| - 1], g, byDay);
    }
    forall i, j | 0 <= i < j < |bs|
      ensures !(Holds(bs[i], instant) && Holds(bs[j], instant))
    {
      BucketsAscend(bs, i, j, start, end, g, byDay);
    }
    if DayNumber(start) <= SgDay(instant) <= DayNumber(end) {
      DayHasBucket(bs, |bs|, start, end, g, byDay, SgDay(instant));
    }
  }

  lemma {:induction false} BucketsAscend(bs: seq<Bucket>, i: nat, j: nat, start: Date, end: Date, g: Granularity, byDay: map<int, UsageMetrics>)
    requires Covers(bs, start, end, g, byDay) && i <= j < |bs|
    ensures i < j ==> DayNumber(bs[i].endDate) < DayNumber(bs[j].startDate)
    decreases j
  {
    if i < j {
      BucketsAscend(bs, i, j - 1, start, end, g, byDay);
      assert BucketIsRight(bs[j - 1], g, byDay);
      NextDayNumber(bs[j - 1].endDate);
    }
  }

  lemma {:induction false} DayHasBucket(bs: seq<Bucket>, n: nat, start: Date, end: Date, g: Granularity, byDay: map<int, UsageMetrics>, day: int)
    requires Covers(bs, start, end, g, byDay) && 0 < n <= |bs|
    requires DayNumber(start) <= day <= DayNumber(bs[n - 1].endDate)
    ensures exists i :: 0 <= i < n && DayNumber(bs[i].startDate) <= day <= DayNumber(bs[i].endDate)
  {
    if day < DayNumber(bs[n - 1].startDate) {
      assert BucketIsRight(bs[n - 2], g, byDay);
      NextDayNumber(bs[n - 2].endDate);
      DayHasBucket(bs, n - 1, start, end, g, byDay, day);
    }
  }
}
