/** The grouped view answers like the direct queries: grouping by minute, then filtering and summing the
    groups, gives the same summary as filtering and summing the rows, the cutoff rounded up to a minute. */
module StatsTheorems {
  import opened Options
  import opened Counting
  import opened Stats

  // ----- Time arithmetic -----

  /** A minute bucket passes the cutoff exactly when its rows are not before the next whole minute. */
  lemma BucketCutoff(t: int, from: int)
    ensures Minute(t) >= from <==> t >= NextMinute(from)
  {
    var m, c := t / 60_000_000, -(-from / 60_000_000);
    assert Minute(t) == m * 60_000_000 && NextMinute(from) == c * 60_000_000;
    assert from <= c * 60_000_000 < from + 60_000_000;
  }

  lemma HourIs(t: int, h: int)
    requires 3600_000_000 * h <= t < 3600_000_000 * h + 3600_000_000
    ensures t / 3600_000_000 == h
  {
  }

  /** Truncating to the minute first does not change the hour. */
  lemma HourOfMinute(t: int)
    ensures Hour(Minute(t)) == Hour(t)
  {
    var m := t / 60_000_000;
    var h := m / 60;
    assert 60 * h <= m <= 60 * h + 59;
    assert 60_000_000 * m <= t < 60_000_000 * m + 60_000_000;
    HourIs(t, h);
    HourIs(60_000_000 * m, h);
  }

  /** The rounded cutoff is the first whole minute at or after the cutoff. */
  lemma AlignedCutoff(from: int)
    ensures NextMinute(from) == from <==> from % 60_000_000 == 0
    ensures from <= NextMinute(from) < from + 60_000_000 && NextMinute(from) % 60_000_000 == 0
  {
  }

  // ----- What the direct queries count -----

  /** The totals of the direct path, row by row. */
  lemma RawTotalsMean(rows: seq<Row>, from: int)
    ensures var t := RawTotals(rows, from);
            && t.requests == Count(rows, (r: Row) => r.at >= from)
            && t.success == Count(rows, (r: Row) => r.at >= from && r.status == "success")
            && t.errors == Count(rows, (r: Row) => r.at >= from && r.status != "success")
            && t.cacheHits == Count(rows, (r: Row) => r.at >= from && r.cacheHit)
            && t.requests == t.cacheHits + t.cacheMisses
  {
    SumIfIsCount(rows, Since(from), One(), (r: Row) => r.at >= from);
    SumIfIsCount(rows, Since(from), SuccessOf(), (r: Row) => r.at >= from && r.status == "success");
    SumIfIsCount(rows, Since(from), ErrorOf(), (r: Row) => r.at >= from && r.status != "success");
    SumIfIsCount(rows, Since(from), HitOf(), (r: Row) => r.at >= from && r.cacheHit);
  }

  /** The average of the direct path: the latencies' sum over their number, and 0 without rows. */
  lemma RawAverageMeans(rows: seq<Row>, from: int)
    ensures var n := Count(rows, (r: Row) => r.at >= from);
            && RawAverage(rows, from) * n as real == SumIf(rows, (r: Row) => r.at >= from, (r: Row) => r.latency) as real
            && (n == 0 ==> RawAverage(rows, from) == 0.0)
  {
    var n := SumIf(rows, Since(from), One());
    SumIfIsCount(rows, Since(from), One(), (r: Row) => r.at >= from);
    SumIfSame(rows, Since(from), (r: Row) => r.at >= from, LatencyOf(), (r: Row) => r.latency);
    if n != 0 {
      AverageTimesCount(SumIf(rows, Since(from), LatencyOf()) as real, n);
    } else {
      SumIfPositive(rows, Since(from), One());
      SumIfNone(rows, Since(from), LatencyOf());
    }
  }

  /** The label the counts are grouped by: the method, the status, or the network's name, where there is none
      its identifier, and without that "unknown". */
  lemma LabelsMean(configs: Configs, r: Row)
    ensures MethodOf()(r) == r.rpc && StatusOf()(r) == r.status
    ensures NetworkOf(configs)(r) ==
            match r.network
            case None => "unknown"
            case Some(id) => if id in configs then configs[id] else id
  {
  }

  /** The counts of the direct path: one for each label that occurs but the skipped one, and how often. */
  lemma RawCountsMean(rows: seq<Row>, from: int, tag: Row -> string, skip: Option<string>, l: string)
    ensures l in RawCounts(rows, from, tag, skip) <==>
            skip != Some(l) && exists i :: 0 <= i < |rows| && rows[i].at >= from && tag(rows[i]) == l
    ensures l in RawCounts(rows, from, tag, skip) ==>
              RawCounts(rows, from, tag, skip)[l] == Count(rows, (r: Row) => r.at >= from && tag(r) == l)
  {
    SumIfIsCount(rows, Labelled(from, tag, l), One(), (r: Row) => r.at >= from && tag(r) == l);
  }

  /** The length of a time bucket. */
  function Width(hourly: bool): int
  {
    if hourly then 3600_000_000 else 60_000_000
  }

  lemma HourMeans(at: int, t: int)
    ensures Hour(at) == t <==> t % 3600_000_000 == 0 && t <= at < t + 3600_000_000
  {
  }

  lemma MinuteMeans(at: int, t: int)
    ensures Minute(at) == t <==> t % 60_000_000 == 0 && t <= at < t + 60_000_000
  {
  }

  lemma BucketMeans(r: Row, hourly: bool, t: int)
    ensures TimeOf(hourly)(r) == t <==> t % Width(hourly) == 0 && t <= r.at < t + Width(hourly)
  {
    if hourly {
      HourMeans(r.at, t);
    } else {
      MinuteMeans(r.at, t);
    }
  }

  /** A point of the series: a whole hour or minute with the numbers of the rows since the cutoff in it. */
  predicate PointMeans(rows: seq<Row>, from: int, hourly: bool, p: Point)
  {
    var w := Width(hourly);
    && p.time % w == 0
    && p.requests == Count(rows, (r: Row) => r.at >= from && p.time <= r.at < p.time + w)
    && p.errors == Count(rows, (r: Row) => r.at >= from && p.time <= r.at < p.time + w && r.status != "success")
    && p.cacheHits == Count(rows, (r: Row) => r.at >= from && p.time <= r.at < p.time + w && r.cacheHit)
  }

  lemma PointCounts(rows: seq<Row>, from: int, hourly: bool, t: int)
    requires t % Width(hourly) == 0
    ensures var p := InBucket(from, hourly, t);
            PointMeans(rows, from, hourly, Point(t, SumIf(rows, p, One()), SumIf(rows, p, ErrorOf()), SumIf(rows, p, HitOf())))
  {
    var p, w := InBucket(from, hourly, t), Width(hourly);
    forall r: Row
      ensures p(r) <==> r.at >= from && t <= r.at < t + w
    {
      BucketMeans(r, hourly, t);
    }
    SumIfIsCount(rows, p, One(), (r: Row) => r.at >= from && t <= r.at < t + w);
    SumIfIsCount(rows, p, ErrorOf(), (r: Row) => r.at >= from && t <= r.at < t + w && r.status != "success");
    SumIfIsCount(rows, p, HitOf(), (r: Row) => r.at >= from && t <= r.at < t + w && r.cacheHit);
  }

  lemma RawSeriesTimes(rows: seq<Row>, from: int, hourly: bool)
    ensures var points, times := RawSeries(rows, from, hourly), Ascending(RawTimes(rows, from, hourly));
            |points| == |times| && forall n :: 0 <= n < |times| ==>
              var p := InBucket(from, hourly, times[n]);
              points[n] == Point(times[n], SumIf(rows, p, One()), SumIf(rows, p, ErrorOf()), SumIf(rows, p, HitOf()))
  {
  }

  /** The series of the direct path: its points in ascending order, each what it should be. */
  lemma RawSeriesMeans(rows: seq<Row>, from: int, hourly: bool)
    ensures var points := RawSeries(rows, from, hourly);
            && (forall i, j :: 0 <= i < j < |points| ==> points[i].time < points[j].time)
            && forall n :: 0 <= n < |points| ==> PointMeans(rows, from, hourly, points[n])
  {
    var times := Ascending(RawTimes(rows, from, hourly));
    RawSeriesTimes(rows, from, hourly);
    forall n | 0 <= n < |times|
      ensures PointMeans(rows, from, hourly, RawSeries(rows, from, hourly)[n])
    {
      assert times[n] in times;
      TimesMean(rows, from, hourly, times[n]);
      PointCounts(rows, from, hourly, times[n]);
    }
  }

  /** And it has a point exactly for the hours or minutes with a row since the cutoff. */
  lemma RawSeriesCovers(rows: seq<Row>, from: int, hourly: bool, t: int)
    ensures (exists n :: 0 <= n < |RawSeries(rows, from, hourly)| && RawSeries(rows, from, hourly)[n].time == t) <==>
            exists i :: 0 <= i < |rows| && rows[i].at >= from && t % Width(hourly) == 0 && t <= rows[i].at < t + Width(hourly)
  {
    var times := Ascending(RawTimes(rows, from, hourly));
    RawSeriesTimes(rows, from, hourly);
    TimesMean(rows, from, hourly, t);
    if t in times {
      var n :| 0 <= n < |times| && times[n] == t;
      assert RawSeries(rows, from, hourly)[n].time == t;
    }
  }

  lemma TimesMean(rows: seq<Row>, from: int, hourly: bool, t: int)
    ensures t in RawTimes(rows, from, hourly) <==>
            exists i :: 0 <= i < |rows| && rows[i].at >= from && t % Width(hourly) == 0 && t <= rows[i].at < t + Width(hourly)
  {
    forall i | 0 <= i < |rows|
      ensures TimeOf(hourly)(rows[i]) == t <==> t % Width(hourly) == 0 && t <= rows[i].at < t + Width(hourly)
    {
      BucketMeans(rows[i], hourly, t);
    }
  }

  // ----- Sums over the view -----

  function AnyKey(sel: GroupKey -> bool): Group -> bool
  {
    (g: Group) => sel(g.key)
  }

  function AnyRow(sel: GroupKey -> bool): Row -> bool
  {
    (r: Row) => sel(KeyOf(r))
  }

  function KeysOf(view: seq<Group>): (ks: seq<GroupKey>)
    ensures |ks| == |view|
    ensures forall i :: 0 <= i < |view| ==> ks[i] == view[i].key
  {
    seq(|view|, i requires 0 <= i < |view| => view[i].key)
  }

  lemma {:induction false} SumOverKeys(view: seq<Group>, sel: GroupKey -> bool, f: Group -> int, sums: GroupKey -> int)
    requires forall i :: 0 <= i < |view| ==> f(view[i]) == sums(view[i].key)
    ensures SumIf(view, AnyKey(sel), f) == SumIf(KeysOf(view), sel, sums)
  {
    if view != [] {
      var n := |view| - 1;
      assert KeysOf(view)[..n] == KeysOf(view[..n]);
      SumOverKeys(view[..n], sel, f, sums);
    }
  }

  /** Summing an aggregate over the selected groups of the view is summing its weight over the rows whose
      group is selected. */
  lemma ViewSum(view: seq<Group>, rows: seq<Row>, sel: GroupKey -> bool, f: Group -> int, w: Row -> int)
    requires IsView(view, rows)
    requires forall k :: f(GroupOf(rows, k)) == SumIf(rows, GroupIs(KeyFn(), k), w)
    ensures SumIf(view, AnyKey(sel), f) == SumIf(rows, AnyRow(sel), w)
  {
    var ks := KeysOf(view);
    SumOverKeys(view, sel, f, GroupSums(rows, KeyFn(), w));
    SumByGroups(rows, KeyFn(), ks, sel, w);
    forall i | 0 <= i < |rows|
      ensures KeyOf(rows[i]) in ks
    {
      assert KeyOf(rows[i]) in Keys(rows);
      var j :| 0 <= j < |view| && view[j].key == KeyOf(rows[i]);
      assert ks[j] == KeyOf(rows[i]);
    }
    SumIfSame(rows, InGroups(KeyFn(), ks, sel), AnyRow(sel), w, w);
  }

  /** The three counting aggregates of the view, for a selection given on both sides. */
  lemma ViewCounts(view: seq<Group>, rows: seq<Row>, sel: GroupKey -> bool, p: Group -> bool, q: Row -> bool)
    requires IsView(view, rows)
    requires forall g: Group :: p(g) == sel(g.key)
    requires forall i :: 0 <= i < |rows| ==> q(rows[i]) == sel(KeyOf(rows[i]))
    ensures SumIf(view, p, RequestsOf()) == SumIf(rows, q, One())
    ensures SumIf(view, p, ErrorsOf()) == SumIf(rows, q, ErrorOf())
    ensures SumIf(view, p, HitsOf()) == SumIf(rows, q, HitOf())
  {
    ViewSum(view, rows, sel, RequestsOf(), One());
    ViewSum(view, rows, sel, ErrorsOf(), ErrorOf());
    ViewSum(view, rows, sel, HitsOf(), HitOf());
    SumIfSame(view, p, AnyKey(sel), RequestsOf(), RequestsOf());
    SumIfSame(view, p, AnyKey(sel), ErrorsOf(), ErrorsOf());
    SumIfSame(view, p, AnyKey(sel), HitsOf(), HitsOf());
    SumIfSame(rows, q, AnyRow(sel), One(), One());
    SumIfSame(rows, q, AnyRow(sel), ErrorOf(), ErrorOf());
    SumIfSame(rows, q, AnyRow(sel), HitOf(), HitOf());
  }

  // ----- The view exists -----

  lemma BuildViewIsView(rows: seq<Row>)
    ensures IsView(BuildView(rows), rows)
  {
    var ks, view := Keys(rows), BuildView(rows);
    assert forall i :: 0 <= i < |view| ==> view[i].key == ks[i] && ks[i] in ks;
    forall k | k in ks
      ensures exists i :: 0 <= i < |view| && view[i].key == k
    {
      var i :| 0 <= i < |ks| && ks[i] == k;
      assert view[i].key == k;
    }
  }

  // ----- Totals -----

  function KeySince(from: int): GroupKey -> bool
  {
    (k: GroupKey) => k.bucket >= from
  }

  lemma {:induction false} SuccessAndErrors(rows: seq<Row>, p: Row -> bool)
    ensures SumIf(rows, p, SuccessOf()) + SumIf(rows, p, ErrorOf()) == SumIf(rows, p, One())
  {
    if rows != [] {
      SuccessAndErrors(rows[..|rows| - 1], p);
    }
  }

  /** Requests, successes, errors, cache hits and cache misses agree, the cutoff rounded up to a minute. */
  lemma TotalsAgree(view: seq<Group>, rows: seq<Row>, from: int)
    requires IsView(view, rows)
    ensures RollupTotals(view, from) == RawTotals(rows, NextMinute(from))
  {
    forall i | 0 <= i < |rows|
      ensures Since(NextMinute(from))(rows[i]) == KeySince(from)(KeyOf(rows[i]))
    {
      BucketCutoff(rows[i].at, from);
    }
    ViewCounts(view, rows, KeySince(from), BucketSince(from), Since(NextMinute(from)));
    SuccessAndErrors(rows, Since(NextMinute(from)));
  }

  function LatencySums(rows: seq<Row>): Group -> int
  {
    (g: Group) => SumIf(rows, GroupIs(KeyFn(), g.key), LatencyOf())
  }

  lemma {:induction false} GroupsAreNotEmpty(rows: seq<Row>, k: GroupKey)
    requires k in Keys(rows)
    ensures SumIf(rows, GroupIs(KeyFn(), k), One()) > 0
  {
    var i :| 0 <= i < |rows| && KeyOf(rows[i]) == k;
    SumIfPositive(rows, GroupIs(KeyFn(), k), One());
    assert GroupIs(KeyFn(), k)(rows[i]);
  }

  lemma AverageTimesCount(total: real, n: int)
    requires n != 0
    ensures Average(total, n) * n as real == total
  {
  }

  lemma GroupLatency(view: seq<Group>, rows: seq<Row>, i: nat)
    requires IsView(view, rows) && i < |view|
    ensures WeightedLatency()(view[i]) == LatencySums(rows)(view[i]) as real
  {
    var p := GroupIs(KeyFn(), view[i].key);
    GroupsAreNotEmpty(rows, view[i].key);
    AverageTimesCount(SumIf(rows, p, LatencyOf()) as real, SumIf(rows, p, One()));
  }

  /** Weighting each group's average by its requests recovers the sum of the row latencies. */
  lemma LatencyAgrees(view: seq<Group>, rows: seq<Row>, from: int)
    requires IsView(view, rows)
    ensures SumReal(view, BucketSince(from), WeightedLatency()) == SumIf(rows, Since(NextMinute(from)), LatencyOf()) as real
  {
    var c := Since(NextMinute(from));
    forall i | 0 <= i < |view|
      ensures WeightedLatency()(view[i]) == LatencySums(rows)(view[i]) as real
    {
      GroupLatency(view, rows, i);
    }
    SumRealIsSum(view, BucketSince(from), WeightedLatency(), LatencySums(rows));
    forall i | 0 <= i < |rows|
      ensures c(rows[i]) == KeySince(from)(KeyOf(rows[i]))
    {
      BucketCutoff(rows[i].at, from);
    }
    ViewSum(view, rows, KeySince(from), LatencySums(rows), LatencyOf());
    SumIfSame(view, BucketSince(from), AnyKey(KeySince(from)), LatencySums(rows), LatencySums(rows));
    SumIfSame(rows, c, AnyRow(KeySince(from)), LatencyOf(), LatencyOf());
  }

  /** The request-weighted mean of the group averages is the mean over the rows, the empty case included. */
  lemma AverageAgrees(view: seq<Group>, rows: seq<Row>, from: int)
    requires IsView(view, rows)
    ensures RollupAverage(view, from) == RawAverage(rows, NextMinute(from))
  {
    LatencyAgrees(view, rows, from);
    TotalsAgree(view, rows, from);
  }

  // ----- Counts per method, status and network -----

  function KeyLabelled(from: int, tag: GroupKey -> string, l: string): GroupKey -> bool
  {
    (k: GroupKey) => k.bucket >= from && tag(k) == l
  }

  ghost function GroupLabels(view: seq<Group>, from: int, tag: GroupKey -> string): set<string>
  {
    set i | 0 <= i < |view| && view[i].key.bucket >= from :: tag(view[i].key)
  }

  lemma LabelsAgree(view: seq<Group>, rows: seq<Row>, from: int, ktag: GroupKey -> string, tag: Row -> string)
    requires IsView(view, rows)
    requires forall i :: 0 <= i < |rows| && rows[i].at >= NextMinute(from) ==> tag(rows[i]) == ktag(KeyOf(rows[i]))
    ensures GroupLabels(view, from, ktag) == LabelsSince(rows, NextMinute(from), tag)
  {
    forall l | l in GroupLabels(view, from, ktag)
      ensures l in LabelsSince(rows, NextMinute(from), tag)
    {
      var j :| 0 <= j < |view| && view[j].key.bucket >= from && ktag(view[j].key) == l;
      var i :| 0 <= i < |rows| && KeyOf(rows[i]) == view[j].key;
      BucketCutoff(rows[i].at, from);
      assert tag(rows[i]) == l;
    }
    forall l | l in LabelsSince(rows, NextMinute(from), tag)
      ensures l in GroupLabels(view, from, ktag)
    {
      var i :| 0 <= i < |rows| && rows[i].at >= NextMinute(from) && tag(rows[i]) == l;
      BucketCutoff(rows[i].at, from);
      assert KeyOf(rows[i]) in Keys(rows);
      var j :| 0 <= j < |view| && view[j].key == KeyOf(rows[i]);
      assert ktag(view[j].key) == l;
    }
  }

  /** Any label that a row shares with its group has the same count per value on both sides. */
  lemma CountsAgree(view: seq<Group>, rows: seq<Row>, from: int, ktag: GroupKey -> string, tag: Row -> string, skip: Option<string>)
    requires IsView(view, rows)
    requires forall i :: 0 <= i < |rows| && rows[i].at >= NextMinute(from) ==> tag(rows[i]) == ktag(KeyOf(rows[i]))
    ensures RollupCounts(view, from, ktag, skip) == RawCounts(rows, NextMinute(from), tag, skip)
  {
    LabelsAgree(view, rows, from, ktag, tag);
    forall l: string
      ensures SumIf(view, GroupLabelled(from, ktag, l), RequestsOf()) == SumIf(rows, Labelled(NextMinute(from), tag, l), One())
    {
      forall i | 0 <= i < |rows|
        ensures Labelled(NextMinute(from), tag, l)(rows[i]) == KeyLabelled(from, ktag, l)(KeyOf(rows[i]))
      {
        BucketCutoff(rows[i].at, from);
      }
      ViewCounts(view, rows, KeyLabelled(from, ktag, l), GroupLabelled(from, ktag, l), Labelled(NextMinute(from), tag, l));
    }
  }

  /** The row joins a configuration whose name is empty. */
  predicate JoinsNameless(configs: Configs, r: Row)
  {
    r.network.Some? && r.network.value in configs && configs[r.network.value] == ""
  }

  /** The network counts of the two paths agree exactly when no counted row belongs to a configuration with
      an empty name: the direct query keeps that name, the view's query falls back to the identifier. */
  lemma NetworkCountsAgreeIff(view: seq<Group>, rows: seq<Row>, configs: Configs, from: int)
    requires IsView(view, rows)
    ensures RollupCounts(view, from, KeyNetwork(configs), None) == RawCounts(rows, NextMinute(from), NetworkOf(configs), None)
            <==> forall i :: 0 <= i < |rows| && rows[i].at >= NextMinute(from) ==> !JoinsNameless(configs, rows[i])
  {
    if i :| 0 <= i < |rows| && rows[i].at >= NextMinute(from) && JoinsNameless(configs, rows[i]) {
      assert NetworkOf(configs)(rows[i]) == "";
      assert "" in LabelsSince(rows, NextMinute(from), NetworkOf(configs));
      assert "" in RawCounts(rows, NextMinute(from), NetworkOf(configs), None);
      assert forall k: GroupKey :: KeyNetwork(configs)(k) != "";
      assert "" !in RollupCounts(view, from, KeyNetwork(configs), None);
    } else {
      CountsAgree(view, rows, from, KeyNetwork(configs), NetworkOf(configs), None);
    }
  }

  // ----- Series -----

  function KeyInBucket(from: int, hourly: bool, t: int): GroupKey -> bool
  {
    (k: GroupKey) => k.bucket >= from && KeyTime(hourly)(k) == t
  }

  ghost function RawTimes(rows: seq<Row>, from: int, hourly: bool): set<int>
  {
    set i | 0 <= i < |rows| && rows[i].at >= from :: TimeOf(hourly)(rows[i])
  }

  ghost function RollupTimes(view: seq<Group>, from: int, hourly: bool): set<int>
  {
    set i | 0 <= i < |view| && view[i].key.bucket >= from :: KeyTime(hourly)(view[i].key)
  }

  lemma TimesAgree(view: seq<Group>, rows: seq<Row>, from: int, hourly: bool)
    requires IsView(view, rows)
    ensures RollupTimes(view, from, hourly) == RawTimes(rows, NextMinute(from), hourly)
  {
    forall t | t in RollupTimes(view, from, hourly)
      ensures t in RawTimes(rows, NextMinute(from), hourly)
    {
      var j :| 0 <= j < |view| && view[j].key.bucket >= from && KeyTime(hourly)(view[j].key) == t;
      var i :| 0 <= i < |rows| && KeyOf(rows[i]) == view[j].key;
      BucketCutoff(rows[i].at, from);
      HourOfMinute(rows[i].at);
      assert TimeOf(hourly)(rows[i]) == t;
    }
    forall t | t in RawTimes(rows, NextMinute(from), hourly)
      ensures t in RollupTimes(view, from, hourly)
    {
      var i :| 0 <= i < |rows| && rows[i].at >= NextMinute(from) && TimeOf(hourly)(rows[i]) == t;
      BucketCutoff(rows[i].at, from);
      HourOfMinute(rows[i].at);
      assert KeyOf(rows[i]) in Keys(rows);
      var j :| 0 <= j < |view| && view[j].key == KeyOf(rows[i]);
      assert KeyTime(hourly)(view[j].key) == t;
    }
  }

  /** The series agree point by point, in minutes and in hours: grouping minute buckets by hour is
      truncating the row times to the hour. */
  lemma SeriesAgree(view: seq<Group>, rows: seq<Row>, from: int, hourly: bool)
    requires IsView(view, rows)
    ensures RollupSeries(view, from, hourly) == RawSeries(rows, NextMinute(from), hourly)
  {
    var a, b := RollupSeries(view, from, hourly), RawSeries(rows, NextMinute(from), hourly);
    TimesAgree(view, rows, from, hourly);
    var times := Ascending(RawTimes(rows, NextMinute(from), hourly));
    assert |a| == |times| == |b|;
    forall n | 0 <= n < |times|
      ensures a[n] == b[n]
    {
      var t := times[n];
      forall i | 0 <= i < |rows|
        ensures InBucket(NextMinute(from), hourly, t)(rows[i]) == KeyInBucket(from, hourly, t)(KeyOf(rows[i]))
      {
        BucketCutoff(rows[i].at, from);
        HourOfMinute(rows[i].at);
      }
      ViewCounts(view, rows, KeyInBucket(from, hourly, t), GroupInBucket(from, hourly, t), InBucket(NextMinute(from), hourly, t));
    }
  }

  // ----- The whole summary -----

  /** The refinement: on the snapshot the view was computed from, a summary is a correct answer of the
      rollup path with cutoff `from` if and only if it is a correct answer of the direct path with the
      cutoff rounded up to a minute (no counted row joining a nameless network). */
  lemma RollupRefinesRaw(s: Summary, view: seq<Group>, rows: seq<Row>, configs: Configs, from: int, hourly: bool)
    requires IsView(view, rows)
    requires forall i :: 0 <= i < |rows| && rows[i].at >= NextMinute(from) ==> !JoinsNameless(configs, rows[i])
    ensures IsRollupSummary(s, view, configs, from, hourly) <==> IsRawSummary(s, rows, configs, NextMinute(from), hourly)
  {
    TotalsAgree(view, rows, from);
    AverageAgrees(view, rows, from);
    CountsAgree(view, rows, from, KeyMethod(), MethodOf(), Some(""));
    CountsAgree(view, rows, from, KeyStatus(), StatusOf(), None);
    NetworkCountsAgreeIff(view, rows, configs, from);
    SeriesAgree(view, rows, from, hourly);
  }

  /** Hence the two paths are interchangeable on a minute-aligned cutoff. */
  lemma AlignedPathsAgree(s: Summary, view: seq<Group>, rows: seq<Row>, configs: Configs, from: int, hourly: bool)
    requires IsView(view, rows) && from % MINUTE == 0
    requires forall i :: 0 <= i < |rows| && rows[i].at >= from ==> !JoinsNameless(configs, rows[i])
    ensures IsRollupSummary(s, view, configs, from, hourly) <==> IsRawSummary(s, rows, configs, from, hourly)
  {
    AlignedCutoff(from);
    RollupRefinesRaw(s, view, rows, configs, from, hourly);
  }

  function Between(from: int, to: int): Row -> bool
  {
    (r: Row) => from <= r.at < to
  }

  /** Off a minute boundary the rollup path loses exactly the rows of the partial minute: the request
      totals agree if and only if there are none. */
  lemma UnalignedTotalsAgreeIff(view: seq<Group>, rows: seq<Row>, from: int)
    requires IsView(view, rows)
    ensures RollupTotals(view, from).requests == RawTotals(rows, from).requests
            <==> forall i :: 0 <= i < |rows| ==> !(from <= rows[i].at < NextMinute(from))
  {
    TotalsAgree(view, rows, from);
    PartialMinute(rows, from);
  }

  /** What the served request total is worth when the log has grown since the refresh: against the direct
      query at the rounded cutoff it is right if and only if none of the newer rows is since that cutoff; at
      the cutoff itself, if and only if moreover the partial minute is empty. */
  lemma GrownLogTotalsAgreeIff(view: seq<Group>, rows: seq<Row>, newer: seq<Row>, from: int)
    requires IsView(view, rows)
    ensures RollupTotals(view, from).requests == RawTotals(rows + newer, NextMinute(from)).requests
            <==> forall i :: 0 <= i < |newer| ==> newer[i].at < NextMinute(from)
    ensures RollupTotals(view, from).requests == RawTotals(rows + newer, from).requests
            <==> (forall i :: 0 <= i < |rows| ==> !(from <= rows[i].at < NextMinute(from)))
                 && forall i :: 0 <= i < |newer| ==> newer[i].at < from
  {
    TotalsAgree(view, rows, from);
    NewerRows(rows, newer, NextMinute(from));
    NewerRows(rows, newer, from);
    PartialMinute(rows, from);
  }

  lemma NewerRows(rows: seq<Row>, newer: seq<Row>, cutoff: int)
    ensures RawTotals(rows + newer, cutoff).requests >= RawTotals(rows, cutoff).requests
    ensures RawTotals(rows + newer, cutoff).requests == RawTotals(rows, cutoff).requests
            <==> forall i :: 0 <= i < |newer| ==> newer[i].at < cutoff
  {
    SumIfConcat(rows, newer, Since(cutoff), One());
    SumIfPositive(newer, Since(cutoff), One());
    if i :| 0 <= i < |newer| && newer[i].at >= cutoff {
      assert Since(cutoff)(newer[i]);
    }
  }

  lemma PartialMinute(rows: seq<Row>, from: int)
    ensures RawTotals(rows, NextMinute(from)).requests <= RawTotals(rows, from).requests
    ensures RawTotals(rows, NextMinute(from)).requests == RawTotals(rows, from).requests
            <==> forall i :: 0 <= i < |rows| ==> !(from <= rows[i].at < NextMinute(from))
  {
    AlignedCutoff(from);
    var gap := Between(from, NextMinute(from));
    SumIfSplit(rows, Since(from), Since(NextMinute(from)), gap, One());
    SumIfPositive(rows, gap, One());
    if i :| 0 <= i < |rows| && from <= rows[i].at < NextMinute(from) {
      assert gap(rows[i]);
    }
  }

  // ----- The series partition the totals -----

  function Gated(p: Row -> bool, w: Row -> int): Row -> int
  {
    (r: Row) => if p(r) then w(r) else 0
  }

  lemma {:induction false} SumIfGated(rows: seq<Row>, q: Row -> bool, p: Row -> bool, both: Row -> bool, w: Row -> int)
    requires forall i :: 0 <= i < |rows| ==> both(rows[i]) == (p(rows[i]) && q(rows[i]))
    ensures SumIf(rows, both, w) == SumIf(rows, q, Gated(p, w))
  {
    if rows != [] {
      SumIfGated(rows[..|rows| - 1], q, p, both, w);
    }
  }

  /** A weight summed over each time bucket. */
  function BucketTotals(rows: seq<Row>, from: int, hourly: bool, w: Row -> int): int -> int
  {
    (t: int) => SumIf(rows, InBucket(from, hourly, t), w)
  }

  /** Adding a weight up over the time buckets gives its total over the rows since the cutoff. */
  lemma BucketsPartition(rows: seq<Row>, from: int, hourly: bool, w: Row -> int)
    ensures var times := Ascending(RawTimes(rows, from, hourly));
            SumIf(times, All(), BucketTotals(rows, from, hourly, w)) == SumIf(rows, Since(from), w)
  {
    var times := Ascending(RawTimes(rows, from, hourly));
    var v := Gated(Since(from), w);
    SumByGroups(rows, TimeOf(hourly), times, All(), v);
    forall t: int
      ensures SumIf(rows, InBucket(from, hourly, t), w) == GroupSums(rows, TimeOf(hourly), v)(t)
    {
      SumIfGated(rows, GroupIs(TimeOf(hourly), t), Since(from), InBucket(from, hourly, t), w);
    }
    SumIfSame(times, All(), All(), BucketTotals(rows, from, hourly, w), GroupSums(rows, TimeOf(hourly), v));
    forall i | 0 <= i < |rows| && rows[i].at >= from
      ensures TimeOf(hourly)(rows[i]) in times
    {
      assert TimeOf(hourly)(rows[i]) in RawTimes(rows, from, hourly);
    }
    SumIfGated(rows, InGroups(TimeOf(hourly), times, All()), Since(from), Since(from), w);
  }

  function PointRequests(): Point -> int
  {
    (p: Point) => p.requests
  }

  function PointErrors(): Point -> int
  {
    (p: Point) => p.errors
  }

  function PointHits(): Point -> int
  {
    (p: Point) => p.cacheHits
  }

  lemma {:induction false} SumOverPoints(points: seq<Point>, times: seq<int>, f: Point -> int, g: int -> int)
    requires |points| == |times|
    requires forall i :: 0 <= i < |times| ==> f(points[i]) == g(times[i])
    ensures SumIf(points, All(), f) == SumIf(times, All(), g)
  {
    if points != [] {
      SumOverPoints(points[..|points| - 1], times[..|times| - 1], f, g);
    }
  }

  lemma SeriesSum(rows: seq<Row>, from: int, hourly: bool, f: Point -> int, w: Row -> int)
    requires var points := RawSeries(rows, from, hourly);
             forall i :: 0 <= i < |points| ==> f(points[i]) == BucketTotals(rows, from, hourly, w)(points[i].time)
    ensures SumIf(RawSeries(rows, from, hourly), All(), f) == SumIf(rows, Since(from), w)
  {
    BucketsPartition(rows, from, hourly, w);
    SumOverPoints(RawSeries(rows, from, hourly), Ascending(RawTimes(rows, from, hourly)), f, BucketTotals(rows, from, hourly, w));
  }

  /** In the direct path the requests, errors and cache hits of the series add up to the totals. */
  lemma RawSeriesPartitionsTotals(rows: seq<Row>, from: int, hourly: bool)
    ensures var points, totals := RawSeries(rows, from, hourly), RawTotals(rows, from);
            && SumIf(points, All(), PointRequests()) == totals.requests
            && SumIf(points, All(), PointErrors()) == totals.errors
            && SumIf(points, All(), PointHits()) == totals.cacheHits
  {
    SeriesSum(rows, from, hourly, PointRequests(), One());
    SeriesSum(rows, from, hourly, PointErrors(), ErrorOf());
    SeriesSum(rows, from, hourly, PointHits(), HitOf());
  }

  /** And so they do in the rollup path. */
  lemma RollupSeriesPartitionsTotals(view: seq<Group>, rows: seq<Row>, from: int, hourly: bool)
    requires IsView(view, rows)
    ensures var points, totals := RollupSeries(view, from, hourly), RollupTotals(view, from);
            && SumIf(points, All(), PointRequests()) == totals.requests
            && SumIf(points, All(), PointErrors()) == totals.errors
            && SumIf(points, All(), PointHits()) == totals.cacheHits
  {
    SeriesAgree(view, rows, from, hourly);
    TotalsAgree(view, rows, from);
    RawSeriesPartitionsTotals(rows, NextMinute(from), hourly);
  }
}
