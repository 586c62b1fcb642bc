/** The statistics queries of backend/shared/storage/postgres/stats_store.go: the same summary computed
    directly from the request log, and from a view that groups the log by minute. Times are microseconds
    since the epoch (UTC); averages are exact reals. */
module Stats {
  import opened Options
  import opened Counting

  const MINUTE: int := 60_000_000

  /** Network identifiers are UUIDs in text form, never empty. */
  type NetworkId = s: string | s != "" witness "n"

  /** The columns of request_logs that the queries read. */
  datatype Row = Row(at: int, network: Option<NetworkId>, rpc: string, status: string, latency: int, cacheHit: bool)

  /** blockchain_configs: identifier to name. */
  type Configs = map<NetworkId, string>

  /** date_trunc('minute', t) */
  function Minute(t: int): int
  {
    t / 60_000_000 * 60_000_000
  }

  /** date_trunc('hour', t) */
  function Hour(t: int): int
  {
    t / 3600_000_000 * 3600_000_000
  }

  /** The first whole minute at or after t. */
  function NextMinute(t: int): int
  {
    -(-t / 60_000_000) * 60_000_000
  }

  // ----- The grouped view request_logs_rollup_1m -----

  datatype GroupKey = GroupKey(bucket: int, network: string, rpc: string, status: string, cacheHit: bool)

  datatype Group = Group(key: GroupKey, requests: int, errors: int, cacheHits: int, avgLatency: real)

  function KeyOf(r: Row): GroupKey
  {
    GroupKey(Minute(r.at), if r.network.Some? then r.network.value else "", r.rpc, r.status, r.cacheHit)
  }

  // Weights: what one row adds to each aggregate.

  function One(): Row -> int
  {
    (r: Row) => 1
  }

  function ErrorOf(): Row -> int
  {
    (r: Row) => if r.status != "success" then 1 else 0
  }

  function SuccessOf(): Row -> int
  {
    (r: Row) => if r.status == "success" then 1 else 0
  }

  function HitOf(): Row -> int
  {
    (r: Row) => if r.cacheHit then 1 else 0
  }

  function LatencyOf(): Row -> int
  {
    (r: Row) => r.latency
  }

  function KeyFn(): Row -> GroupKey
  {
    (r: Row) => KeyOf(r)
  }

  /** total / n, or 0 over no rows. */
  function Average(total: real, n: int): real
  {
    if n == 0 then 0.0 else total / n as real
  }

  /** The view's row for one group. */
  function GroupOf(rows: seq<Row>, k: GroupKey): Group
  {
    var p := GroupIs(KeyFn(), k);
    Group(k, SumIf(rows, p, One()), SumIf(rows, p, ErrorOf()), SumIf(rows, p, HitOf()),
          Average(SumIf(rows, p, LatencyOf()) as real, SumIf(rows, p, One())))
  }

  /** The group keys of the rows, each once, in order of first appearance. */
  function Keys(rows: seq<Row>): (ks: seq<GroupKey>)
    ensures NoRepeats(ks)
    ensures forall k :: k in ks <==> exists i :: 0 <= i < |rows| && KeyOf(rows[i]) == k
  {
    if rows == [] then []
    else
      var ks := Keys(rows[..|rows| - 1]);
      var k := KeyOf(rows[|rows| - 1]);
      assert forall i :: 0 <= i < |rows| - 1 ==> rows[..|rows| - 1][i] == rows[i];
      if k in ks then ks else ks + [k]
  }

  /** The view as its definition computes it. */
  function BuildView(rows: seq<Row>): seq<Group>
  {
    var ks := Keys(rows);
    seq(|ks|, i requires 0 <= i < |ks| => GroupOf(rows, ks[i]))
  }

  /** A populated view: one row per group that occurs, in any order. */
  ghost predicate IsView(view: seq<Group>, rows: seq<Row>)
  {
    && (forall i, j :: 0 <= i < j < |view| ==> view[i].key != view[j].key)
    && (forall i :: 0 <= i < |view| ==> view[i].key in Keys(rows) && view[i] == GroupOf(rows, view[i].key))
    && (forall k :: k in Keys(rows) ==> exists i :: 0 <= i < |view| && view[i].key == k)
  }

  // ----- The summary -----

  datatype Totals = Totals(requests: int, success: int, errors: int, cacheHits: int, cacheMisses: int)

  datatype Entry = Entry(name: string, count: int)

  datatype Point = Point(time: int, requests: int, errors: int, cacheHits: int)

  /** StatsSummary without its range, its time bounds and the approximate percentile. */
  datatype Summary = Summary(totals: Totals, avgLatency: real, lists: Lists)

  datatype Lists = Lists(methods: seq<Entry>, statuses: seq<Entry>, networks: seq<Entry>, series: seq<Point>)

  function Names(entries: seq<Entry>): set<string>
  {
    set i | 0 <= i < |entries| :: entries[i].name
  }

  /** ORDER BY count DESC LIMIT 5 over one count per name; ties come in any order. */
  ghost predicate IsTopFive(top: seq<Entry>, counts: map<string, int>)
  {
    && |top| == (if |counts| < 5 then |counts| else 5)
    && (forall i :: 0 <= i < |top| ==> top[i].name in counts && counts[top[i].name] == top[i].count)
    && (forall i, j :: 0 <= i < j < |top| ==> top[i].name != top[j].name && top[i].count >= top[j].count)
    && (forall name :: name in counts && name !in Names(top) ==> forall i :: 0 <= i < |top| ==> counts[name] <= top[i].count)
  }

  /** A name is left off a top five only if five are listed, none of them with a smaller count. */
  lemma LeftOffTopFive(top: seq<Entry>, counts: map<string, int>, name: string)
    requires IsTopFive(top, counts) && name in counts && forall i :: 0 <= i < |top| ==> top[i].name != name
    ensures |top| == 5 && forall i :: 0 <= i < |top| ==> top[i].count >= counts[name]
  {
    var names := seq(|top|, i requires 0 <= i < |top| => top[i].name);
    NoRepeatsSize(names);
    var listed := set n | n in names;
    assert listed <= counts.Keys - {name};
    SubsetSize(listed, counts.Keys - {name});
  }

  lemma {:induction false} SubsetSize<T>(a: set<T>, b: set<T>)
    requires a <= b
    ensures |a| <= |b|
  {
    if x :| x in a {
      SubsetSize(a - {x}, b - {x});
    }
  }

  // ----- The direct queries -----

  function Since(from: int): Row -> bool
  {
    (r: Row) => r.at >= from
  }

  /** The rows since `from` with a given label; rows whose label is skipped are in no group. */
  function Labelled(from: int, tag: Row -> string, l: string): Row -> bool
  {
    (r: Row) => r.at >= from && tag(r) == l
  }

  /** GROUP BY a label: how many rows since `from` carry each label other than the skipped one. */
  ghost function RawCounts(rows: seq<Row>, from: int, tag: Row -> string, skip: Option<string>): map<string, int>
  {
    map l | l in LabelsSince(rows, from, tag) && Some(l) != skip :: SumIf(rows, Labelled(from, tag, l), One())
  }

  ghost function LabelsSince(rows: seq<Row>, from: int, tag: Row -> string): set<string>
  {
    set i | 0 <= i < |rows| && rows[i].at >= from :: tag(rows[i])
  }

  function MethodOf(): Row -> string
  {
    (r: Row) => r.rpc
  }

  function StatusOf(): Row -> string
  {
    (r: Row) => r.status
  }

  /** COALESCE(c.name, rl.network_id::text, 'unknown') after the left join on the identifier. */
  function NetworkOf(configs: Configs): Row -> string
  {
    (r: Row) =>
      if r.network.None? then "unknown"
      else if r.network.value in configs then configs[r.network.value]
      else r.network.value
  }

  /** The time bucket of a row: its hour for the 24h range, its minute otherwise. */
  function TimeOf(hourly: bool): Row -> int
  {
    (r: Row) => if hourly then Hour(r.at) else Minute(r.at)
  }

  function InBucket(from: int, hourly: bool, t: int): Row -> bool
  {
    (r: Row) => r.at >= from && TimeOf(hourly)(r) == t
  }

  ghost function RawSeries(rows: seq<Row>, from: int, hourly: bool): seq<Point>
  {
    var times := Ascending(set i | 0 <= i < |rows| && rows[i].at >= from :: TimeOf(hourly)(rows[i]));
    seq(|times|, i requires 0 <= i < |times| =>
      var p := InBucket(from, hourly, times[i]);
      Point(times[i], SumIf(rows, p, One()), SumIf(rows, p, ErrorOf()), SumIf(rows, p, HitOf())))
  }

  function RawTotals(rows: seq<Row>, from: int): Totals
  {
    var p := Since(from);
    var requests, cacheHits := SumIf(rows, p, One()), SumIf(rows, p, HitOf());
    Totals(requests, SumIf(rows, p, SuccessOf()), SumIf(rows, p, ErrorOf()), cacheHits, requests - cacheHits)
  }

  function RawAverage(rows: seq<Row>, from: int): real
  {
    Average(SumIf(rows, Since(from), LatencyOf()) as real, SumIf(rows, Since(from), One()))
  }

  ghost predicate RawLists(lists: Lists, rows: seq<Row>, configs: Configs, from: int, hourly: bool)
  {
    && IsTopFive(lists.methods, RawCounts(rows, from, MethodOf(), Some("")))
    && IsTopFive(lists.statuses, RawCounts(rows, from, StatusOf(), None))
    && IsTopFive(lists.networks, RawCounts(rows, from, NetworkOf(configs), None))
    && lists.series == RawSeries(rows, from, hourly)
  }

  ghost predicate IsRawSummary(s: Summary, rows: seq<Row>, configs: Configs, from: int, hourly: bool)
  {
    && s.totals == RawTotals(rows, from)
    && s.avgLatency == RawAverage(rows, from)
    && RawLists(s.lists, rows, configs, from, hourly)
  }

  // ----- The queries on the view -----

  function BucketSince(from: int): Group -> bool
  {
    (g: Group) => g.key.bucket >= from
  }

  function RequestsOf(): Group -> int
  {
    (g: Group) => g.requests
  }

  function ErrorsOf(): Group -> int
  {
    (g: Group) => g.errors
  }

  function HitsOf(): Group -> int
  {
    (g: Group) => g.cacheHits
  }

  function WeightedLatency(): Group -> real
  {
    (g: Group) => g.avgLatency * g.requests as real
  }

  function GroupLabelled(from: int, tag: GroupKey -> string, l: string): Group -> bool
  {
    (g: Group) => g.key.bucket >= from && tag(g.key) == l
  }

  ghost function RollupCounts(view: seq<Group>, from: int, tag: GroupKey -> string, skip: Option<string>): map<string, int>
  {
    map l | l in (set i | 0 <= i < |view| && view[i].key.bucket >= from :: tag(view[i].key)) && Some(l) != skip ::
      SumIf(view, GroupLabelled(from, tag, l), RequestsOf())
  }

  function KeyMethod(): GroupKey -> string
  {
    (k: GroupKey) => k.rpc
  }

  function KeyStatus(): GroupKey -> string
  {
    (k: GroupKey) => k.status
  }

  /** COALESCE(NULLIF(c.name, ''), NULLIF(r.network_id, ''), 'unknown') after the left join on its text. */
  function KeyNetwork(configs: Configs): GroupKey -> string
  {
    (k: GroupKey) =>
      if k.network != "" && k.network in configs && configs[k.network] != "" then configs[k.network]
      else if k.network != "" then k.network
      else "unknown"
  }

  function KeyTime(hourly: bool): GroupKey -> int
  {
    (k: GroupKey) => if hourly then Hour(k.bucket) else k.bucket
  }

  function GroupInBucket(from: int, hourly: bool, t: int): Group -> bool
  {
    (g: Group) => g.key.bucket >= from && KeyTime(hourly)(g.key) == t
  }

  ghost function RollupSeries(view: seq<Group>, from: int, hourly: bool): seq<Point>
  {
    var times := Ascending(set i | 0 <= i < |view| && view[i].key.bucket >= from :: KeyTime(hourly)(view[i].key));
    seq(|times|, i requires 0 <= i < |times| =>
      var p := GroupInBucket(from, hourly, times[i]);
      Point(times[i], SumIf(view, p, RequestsOf()), SumIf(view, p, ErrorsOf()), SumIf(view, p, HitsOf())))
  }

  function RollupTotals(view: seq<Group>, from: int): Totals
  {
    var p := BucketSince(from);
    var requests, errors, cacheHits := SumIf(view, p, RequestsOf()), SumIf(view, p, ErrorsOf()), SumIf(view, p, HitsOf());
    Totals(requests, requests - errors, errors, cacheHits, requests - cacheHits)
  }

  function RollupAverage(view: seq<Group>, from: int): real
  {
    Average(SumReal(view, BucketSince(from), WeightedLatency()), SumIf(view, BucketSince(from), RequestsOf()))
  }

  ghost predicate RollupLists(lists: Lists, view: seq<Group>, configs: Configs, from: int, hourly: bool)
  {
    && IsTopFive(lists.methods, RollupCounts(view, from, KeyMethod(), Some("")))
    && IsTopFive(lists.statuses, RollupCounts(view, from, KeyStatus(), None))
    && IsTopFive(lists.networks, RollupCounts(view, from, KeyNetwork(configs), None))
    && lists.series == RollupSeries(view, from, hourly)
  }

  ghost predicate IsRollupSummary(s: Summary, view: seq<Group>, configs: Configs, from: int, hourly: bool)
  {
    && s.totals == RollupTotals(view, from)
    && s.avgLatency == RollupAverage(view, from)
    && RollupLists(s.lists, view, configs, from, hourly)
  }
}
