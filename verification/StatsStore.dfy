/** The Go side of the statistics: choosing between the view and the direct queries, and filling the
    summary from their result rows; with the refresh of backend/shared/statsrollup/refresher.go. */
module StatsStore {
  import opened Options
  import opened Counting
  import opened Stats
  import opened StatsTheorems

  /** The one-row result of each path's first query. */
  datatype RawRow = RawRow(requests: int, success: int, errors: int, cacheHits: int, avg: real)

  datatype RollupRow = RollupRow(requests: int, errors: int, cacheHits: int, avg: real)

  function FirstRawRow(logs: seq<Row>, from: int): RawRow
  {
    var p := Since(from);
    RawRow(SumIf(logs, p, One()), SumIf(logs, p, SuccessOf()), SumIf(logs, p, ErrorOf()), SumIf(logs, p, HitOf()), RawAverage(logs, from))
  }

  function FirstRollupRow(view: seq<Group>, from: int): RollupRow
  {
    var p := BucketSince(from);
    RollupRow(SumIf(view, p, RequestsOf()), SumIf(view, p, ErrorsOf()), SumIf(view, p, HitsOf()), RollupAverage(view, from))
  }

  /** How many rows of each list reached its loop: a query that breaks off midway ends the loop early, and
      nobody asks why it ended. */
  datatype Cut = Cut(methods: nat, statuses: nat, networks: nat, series: nat)

  function Received(lists: Lists, cut: Cut): Lists
  {
    Lists(Delivered(lists.methods, cut.methods), Delivered(lists.statuses, cut.statuses),
          Delivered(lists.networks, cut.networks), Delivered(lists.series, cut.series))
  }

  lemma TopFiveCut(top: seq<Entry>, got: seq<Entry>, counts: map<string, int>)
    requires IsTopFive(top, counts) && got <= top
    ensures IsTopFive(got, counts) <==> got == top
  {
  }

  /** Lists cut short are the right ones only if nothing was lost. */
  lemma RawCutIff(lists: Lists, cut: Cut, logs: seq<Row>, configs: Configs, from: int, hourly: bool)
    requires RawLists(lists, logs, configs, from, hourly)
    ensures RawLists(Received(lists, cut), logs, configs, from, hourly) <==> Received(lists, cut) == lists
  {
    var got := Received(lists, cut);
    TopFiveCut(lists.methods, got.methods, RawCounts(logs, from, MethodOf(), Some("")));
    TopFiveCut(lists.statuses, got.statuses, RawCounts(logs, from, StatusOf(), None));
    TopFiveCut(lists.networks, got.networks, RawCounts(logs, from, NetworkOf(configs), None));
  }

  lemma RollupCutIff(lists: Lists, cut: Cut, view: seq<Group>, configs: Configs, from: int, hourly: bool)
    requires RollupLists(lists, view, configs, from, hourly)
    ensures RollupLists(Received(lists, cut), view, configs, from, hourly) <==> Received(lists, cut) == lists
  {
    var got := Received(lists, cut);
    TopFiveCut(lists.methods, got.methods, RollupCounts(view, from, KeyMethod(), Some("")));
    TopFiveCut(lists.statuses, got.statuses, RollupCounts(view, from, KeyStatus(), None));
    TopFiveCut(lists.networks, got.networks, RollupCounts(view, from, KeyNetwork(configs), None));
  }

  lemma RawFigures(logs: seq<Row>, from: int)
    ensures var row := FirstRawRow(logs, from);
            Totals(row.requests, row.success, row.errors, row.cacheHits, row.requests - row.cacheHits) == RawTotals(logs, from)
  {
  }

  lemma RollupFigures(view: seq<Group>, from: int)
    ensures var row := FirstRollupRow(view, from);
            Totals(row.requests, row.requests - row.errors, row.errors, row.cacheHits, row.requests - row.cacheHits) ==
            RollupTotals(view, from)
  {
  }

  /** What the direct path serves: right figures, and of the list queries' results what arrived. */
  predicate RawServed(s: Summary, lists: Lists, cut: Cut, logs: seq<Row>, from: int)
  {
    s.totals == RawTotals(logs, from) && s.avgLatency == RawAverage(logs, from) && s.lists == Received(lists, cut)
  }

  predicate RollupServed(s: Summary, lists: Lists, cut: Cut, view: seq<Group>, from: int)
  {
    s.totals == RollupTotals(view, from) && s.avgLatency == RollupAverage(view, from) && s.lists == Received(lists, cut)
  }

  /** Such a summary is a correct answer if and only if the lists arrived whole. */
  lemma RawServedIff(s: Summary, lists: Lists, cut: Cut, logs: seq<Row>, configs: Configs, from: int, hourly: bool)
    requires RawLists(lists, logs, configs, from, hourly) && RawServed(s, lists, cut, logs, from)
    ensures IsRawSummary(s, logs, configs, from, hourly) <==> s.lists == lists
  {
    RawCutIff(lists, cut, logs, configs, from, hourly);
  }

  lemma RollupServedIff(s: Summary, lists: Lists, cut: Cut, view: seq<Group>, configs: Configs, from: int, hourly: bool)
    requires RollupLists(lists, view, configs, from, hourly) && RollupServed(s, lists, cut, view, from)
    ensures IsRollupSummary(s, view, configs, from, hourly) <==> s.lists == lists
  {
    RollupCutIff(lists, cut, view, configs, from, hourly);
  }

  /** rows.Next, Scan, append, while there are rows or until the query breaks off. */
  method Collect<T>(rows: seq<T>, delivered: nat) returns (out: seq<T>)
    ensures out == Delivered(rows, delivered)
  {
    out := [];
    var i := 0;
    while i < |rows| && i < delivered
      invariant 0 <= i <= |rows| && i <= delivered
      invariant out == rows[..i]
    {
      out := out + [rows[i]];
      i := i + 1;
    }
  }

  /** The four list loops of either path. */
  method CollectLists(lists: Lists, cut: Cut) returns (got: Lists)
    ensures got == Received(lists, cut)
  {
    var methods := Collect(lists.methods, cut.methods);
    var statuses := Collect(lists.statuses, cut.statuses);
    var networks := Collect(lists.networks, cut.networks);
    var series := Collect(lists.series, cut.series);
    got := Lists(methods, statuses, networks, series);
  }

  class DB {
    var logs: seq<Row>
    var configs: Configs
    var view: seq<Group>

    constructor (logs: seq<Row>, configs: Configs)
      ensures this.logs == logs && this.configs == configs && view == []
    {
      this.logs, this.configs, this.view := logs, configs, [];
    }

    /** REFRESH MATERIALIZED VIEW; a refresh that fails leaves the old snapshot. */
    method Refresh(ok: bool)
      modifies this`view
      ensures ok ==> IsView(view, logs)
      ensures !ok ==> view == old(view)
    {
      if ok {
        view := BuildView(logs);
        BuildViewIsView(logs);
      }
    }

    /** row is the first query's result, lists the results of the others, of which cut arrives. */
    method GetStatsSummaryFromRaw(from: int, row: RawRow, lists: Lists, cut: Cut) returns (s: Summary)
      requires row == FirstRawRow(logs, from)
      ensures RawServed(s, lists, cut, logs, from)
    {
      var misses := row.requests - row.cacheHits;
      var totals := Totals(row.requests, row.success, row.errors, row.cacheHits, misses);
      RawFigures(logs, from);
      var got := CollectLists(lists, cut);
      s := Summary(totals, row.avg, got);
    }

    method GetStatsSummaryFromRollup(from: int, row: RollupRow, lists: Lists, cut: Cut) returns (s: Summary)
      requires row == FirstRollupRow(view, from)
      ensures RollupServed(s, lists, cut, view, from)
    {
      var success := row.requests - row.errors;
      var misses := row.requests - row.cacheHits;
      var totals := Totals(row.requests, success, row.errors, row.cacheHits, misses);
      RollupFigures(view, from);
      var got := CollectLists(lists, cut);
      s := Summary(totals, row.avg, got);
    }

    /** GetStatsSummary: the view for cutoffs more than five minutes old, the direct queries otherwise or
        when a query on the view returns an error. A path is None when one of its queries returned one; a query
        that breaks off midway does not, and its truncated list is served without falling back. */
    method GetStatsSummary(from: int, now: int, rollup: Option<(RollupRow, Lists, Cut)>, raw: Option<(RawRow, Lists, Cut)>)
      returns (r: Option<Summary>)
      requires rollup.Some? ==> rollup.value.0 == FirstRollupRow(view, from)
      requires raw.Some? ==> raw.value.0 == FirstRawRow(logs, from)
      ensures r.Some? <==> (from < now - 300_000_000 && rollup.Some?) || raw.Some?
      ensures from < now - 300_000_000 && rollup.Some? ==>
                RollupServed(r.value, rollup.value.1, rollup.value.2, view, from)
      ensures !(from < now - 300_000_000 && rollup.Some?) && raw.Some? ==>
                RawServed(r.value, raw.value.1, raw.value.2, logs, from)
    {
      var recentCutoff := now - 300_000_000;
      if from < recentCutoff {
        if rollup.Some? {
          var s := GetStatsSummaryFromRollup(from, rollup.value.0, rollup.value.1, rollup.value.2);
          return Some(s);
        }
      }
      if raw.None? {
        return None;
      }
      var s := GetStatsSummaryFromRaw(from, raw.value.0, raw.value.1, raw.value.2);
      return Some(s);
    }
  }
}
