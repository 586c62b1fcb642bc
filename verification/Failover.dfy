/** The failover client of backend/shared/blockchain/client.go: a health record per endpoint, marked by
    probes and by calls; a routing order computed from a snapshot of the records; and the loop that
    tries the endpoints in that order. */
module Failover {
  import opened Options

  // ----- Health records -----

  datatype Health = Health(healthy: bool, latency: int, consecutiveFails: nat, totalRequests: nat, totalFailures: nat)

  type HealthMap = map<string, Health>

  /** The record New gives to a configured endpoint. */
  const FRESH: Health := Health(true, 0, 0, 0, 0)

  /** The zero record that a mark on an unknown endpoint starts from. */
  const ZERO: Health := Health(false, 0, 0, 0, 0)

  /** One locked update of the health map. */
  datatype Mark =
    | ProbeOk(url: string, latency: int)
    | ProbeFail(url: string, latency: int)
    | CallOk(url: string, latency: int)
    | CallFail(url: string)

  predicate Failing(m: Mark)
  {
    m.ProbeFail? || m.CallFail?
  }

  function FreshMap(endpoints: seq<string>): HealthMap
  {
    map ep | ep in endpoints :: FRESH
  }

  function Lookup(h: HealthMap, url: string): Health
  {
    if url in h then h[url] else ZERO
  }

  function Marked(r: Health, m: Mark): Health
  {
    match m
    case ProbeOk(_, latency) => r.(latency := latency, consecutiveFails := 0, healthy := true)
    case ProbeFail(_, latency) =>
      r.(latency := latency, consecutiveFails := r.consecutiveFails + 1,
         healthy := r.healthy && r.consecutiveFails + 1 < 3)
    case CallOk(_, latency) =>
      r.(latency := latency, consecutiveFails := 0, healthy := true, totalRequests := r.totalRequests + 1)
    case CallFail(_) =>
      r.(consecutiveFails := r.consecutiveFails + 1, totalFailures := r.totalFailures + 1,
         healthy := r.healthy && r.consecutiveFails + 1 < 3)
  }

  function Apply(h: HealthMap, m: Mark): HealthMap
  {
    h[m.url := Marked(Lookup(h, m.url), m)]
  }

  /** The map after a sequence of marks. */
  function ApplyAll(h: HealthMap, ms: seq<Mark>): HealthMap
  {
    if ms == [] then h else Apply(ApplyAll(h, ms[..|ms| - 1]), ms[|ms| - 1])
  }

  // ----- Routing -----

  /** An endpoint without a record counts as healthy with latency 0. */
  predicate IsHealthy(h: HealthMap, url: string)
  {
    url in h ==> h[url].healthy
  }

  function LatencyOf(h: HealthMap, url: string): int
  {
    if url in h then h[url].latency else 0
  }

  function Select(xs: seq<string>, h: HealthMap, healthy: bool): seq<string>
  {
    if xs == [] then []
    else
      var rest := Select(xs[..|xs| - 1], h, healthy);
      if IsHealthy(h, xs[|xs| - 1]) == healthy then rest + [xs[|xs| - 1]] else rest
  }

  predicate ByLatency(h: HealthMap, xs: seq<string>)
  {
    forall i, j :: 0 <= i < j < |xs| ==> LatencyOf(h, xs[i]) <= LatencyOf(h, xs[j])
  }

  /** The healthy endpoints in some order of non-decreasing latency, then the unhealthy ones in configured
      order. Endpoints of equal latency may come in either order, as the sort used is not stable. */
  predicate IsRoutingOrder(order: seq<string>, endpoints: seq<string>, h: HealthMap)
  {
    var n := |Select(endpoints, h, true)|;
    && n <= |order|
    && multiset(order[..n]) == multiset(Select(endpoints, h, true))
    && ByLatency(h, order[..n])
    && order[n..] == Select(endpoints, h, false)
  }

  lemma {:induction false} SelectSplits(xs: seq<string>, h: HealthMap)
    ensures multiset(Select(xs, h, true)) + multiset(Select(xs, h, false)) == multiset(xs)
    ensures forall x :: x in Select(xs, h, true) ==> IsHealthy(h, x)
    ensures forall x :: x in Select(xs, h, false) ==> !IsHealthy(h, x)
  {
    if xs != [] {
      SelectSplits(xs[..|xs| - 1], h);
      assert xs == xs[..|xs| - 1] + [xs[|xs| - 1]];
    }
  }

  /** Where the healthy part of a routing order ends. */
  lemma RoutingOrderSplits(order: seq<string>, endpoints: seq<string>, h: HealthMap) returns (n: nat)
    requires IsRoutingOrder(order, endpoints, h)
    ensures n <= |order| && ByLatency(h, order[..n]) && order[n..] == Select(endpoints, h, false)
    ensures forall i :: 0 <= i < |order| ==> (IsHealthy(h, order[i]) <==> i < n)
    ensures multiset(order) == multiset(endpoints)
  {
    SelectSplits(endpoints, h);
    n := |Select(endpoints, h, true)|;
    assert order == order[..n] + order[n..];
    forall i | n <= i < |order|
      ensures !IsHealthy(h, order[i])
    {
      assert order[i] == order[n..][i - n];
      assert order[i] in Select(endpoints, h, false);
    }
    forall i | 0 <= i < n
      ensures IsHealthy(h, order[i])
    {
      assert order[i] in multiset(order[..n]);
      assert order[i] in Select(endpoints, h, true);
    }
  }

  /** Every routing order is a permutation of the configured endpoints, duplicates kept, in which everything
      before a healthy endpoint is healthy and of no greater recorded latency; an endpoint without a record
      counts as healthy with latency 0. */
  lemma RoutingOrderIsPermutation(order: seq<string>, endpoints: seq<string>, h: HealthMap)
    requires IsRoutingOrder(order, endpoints, h)
    ensures multiset(order) == multiset(endpoints)
    ensures forall i, j :: 0 <= i < j < |order| && (order[j] in h ==> h[order[j]].healthy) ==>
              && (order[i] in h ==> h[order[i]].healthy)
              && (order[i] in h && order[j] in h ==> h[order[i]].latency <= h[order[j]].latency)
              && (order[i] in h && order[j] !in h ==> h[order[i]].latency <= 0)
              && (order[i] !in h && order[j] in h ==> 0 <= h[order[j]].latency)
  {
    var n := RoutingOrderSplits(order, endpoints, h);
    assert forall i :: 0 <= i < n ==> order[..n][i] == order[i];
  }

  /** at lists positions of xs in increasing order. */
  predicate Increasing(at: seq<nat>, xs: seq<string>)
  {
    && (forall k :: 0 <= k < |at| ==> at[k] < |xs|)
    && (forall k, l :: 0 <= k < l < |at| ==> at[k] < at[l])
  }

  lemma {:induction false} SelectKeepsOrder(xs: seq<string>, h: HealthMap) returns (at: seq<nat>)
    ensures Increasing(at, xs) && |at| == |Select(xs, h, false)|
    ensures forall k :: 0 <= k < |at| ==> Select(xs, h, false)[k] == xs[at[k]]
  {
    if xs == [] {
      at := [];
    } else {
      var n := |xs| - 1;
      at := SelectKeepsOrder(xs[..n], h);
      if !IsHealthy(h, xs[n]) {
        at := at + [n];
      }
    }
  }

  /** The unhealthy endpoints come last, in the order in which they are configured. */
  lemma UnhealthyKeepOrder(order: seq<string>, endpoints: seq<string>, h: HealthMap) returns (n: nat, at: seq<nat>)
    requires IsRoutingOrder(order, endpoints, h)
    ensures n + |at| == |order| && Increasing(at, endpoints)
    ensures forall i :: 0 <= i < |order| ==> (i >= n <==> order[i] in h && !h[order[i]].healthy)
    ensures forall k :: 0 <= k < |at| ==> order[n + k] == endpoints[at[k]]
  {
    n := RoutingOrderSplits(order, endpoints, h);
    at := SelectKeepsOrder(endpoints, h);
    assert forall k :: 0 <= k < |at| ==> order[n + k] == order[n..][k];
  }

  // ----- Replies -----

  /** What one HTTP exchange came to: no response, or a response with its status, whether its body parses
      as a JSON-RPC response, and whether that carries an error object. */
  datatype Reply =
    | NoResponse(latency: int)
    | Response(latency: int, status: int, parses: bool, rpcError: bool, body: string)

  /** Call forwards single requests, ProxyRaw whole batches. */
  datatype Kind = Single | Batch

  predicate GoodStatus(r: Reply)
  {
    r.Response? && 200 <= r.status < 300
  }

  /** Call takes any body that parses, whatever its status and even an RPC error; ProxyRaw takes any 2xx. */
  predicate Accepts(kind: Kind, r: Reply)
  {
    r.Response? && (if kind == Single then r.parses else GoodStatus(r))
  }

  /** A probe wants all of it: 2xx, parseable, no RPC error. */
  predicate ProbeAccepts(r: Reply)
  {
    GoodStatus(r) && r.parses && !r.rpcError
  }

  function CallMark(kind: Kind, url: string, r: Reply): Mark
  {
    if Accepts(kind, r) then CallOk(url, r.latency) else CallFail(url)
  }

  function ProbeMark(url: string, r: Reply): Mark
  {
    if ProbeAccepts(r) then ProbeOk(url, r.latency) else ProbeFail(url, r.latency)
  }

  /** The marks of a call whose i-th attempt went to tried[i] and got reply(i). */
  function CallMarks(kind: Kind, tried: seq<string>, reply: nat -> Reply): seq<Mark>
  {
    seq(|tried|, i requires 0 <= i < |tried| => CallMark(kind, tried[i], reply(i)))
  }

  /** The marks of a round of probes that land in the order of schedule. */
  function ProbeMarks(schedule: seq<string>, reply: nat -> Reply): seq<Mark>
  {
    seq(|schedule|, i requires 0 <= i < |schedule| => ProbeMark(schedule[i], reply(i)))
  }

  /** A mark for each attempt and for each probe, a good one exactly for the replies that are acceptable to it:
      to Call a body that parses, whatever its status; to ProxyRaw a 2xx status; to a probe both, and no error. */
  lemma MarksMatchReplies(kind: Kind, urls: seq<string>, reply: nat -> Reply)
    ensures |CallMarks(kind, urls, reply)| == |ProbeMarks(urls, reply)| == |urls|
    ensures forall i :: 0 <= i < |urls| ==>
              var r := reply(i);
              CallMarks(kind, urls, reply)[i] ==
                if r.Response? && (if kind.Single? then r.parses else 200 <= r.status < 300)
                then CallOk(urls[i], r.latency) else CallFail(urls[i])
    ensures forall i :: 0 <= i < |urls| ==>
              var r := reply(i);
              ProbeMarks(urls, reply)[i] ==
                if r.Response? && 200 <= r.status < 300 && r.parses && !r.rpcError
                then ProbeOk(urls[i], r.latency) else ProbeFail(urls[i], r.latency)
  {
  }

  lemma ProbeMarksExtend(h: HealthMap, schedule: seq<string>, url: string, reply: nat -> Reply)
    ensures ApplyAll(h, ProbeMarks(schedule + [url], reply)) ==
            Apply(ApplyAll(h, ProbeMarks(schedule, reply)), ProbeMark(url, reply(|schedule|)))
  {
    var before, after := ProbeMarks(schedule, reply), ProbeMarks(schedule + [url], reply);
    assert after[..|after| - 1] == before;
  }

  /** One attempt more is one mark more. */
  lemma CallMarksExtend(h: HealthMap, kind: Kind, tried: seq<string>, url: string, reply: nat -> Reply)
    ensures ApplyAll(h, CallMarks(kind, tried + [url], reply)) ==
            Apply(ApplyAll(h, CallMarks(kind, tried, reply)), CallMark(kind, url, reply(|tried|)))
  {
    var before, after := CallMarks(kind, tried, reply), CallMarks(kind, tried + [url], reply);
    assert after[..|after| - 1] == before;
  }

  method SwapBack(a: array<string>, j: nat)
    requires 0 < j < a.Length
    modifies a
    ensures a[..] == old(a[..])[j - 1 := old(a[j])][j := old(a[j - 1])]
    ensures multiset(a[..]) == multiset(old(a[..]))
  {
    a[j - 1], a[j] := a[j], a[j - 1];
  }

  /** sort.Slice on the latencies of the snapshot. */
  method SortByLatency(a: array<string>, h: HealthMap)
    modifies a
    ensures ByLatency(h, a[..])
    ensures forall i, j :: 0 <= i < j < a.Length && a[i] in h && a[j] in h ==> h[a[i]].latency <= h[a[j]].latency
    ensures multiset(a[..]) == multiset(old(a[..]))
  {
    var i := 0;
    while i < a.Length
      invariant 0 <= i <= a.Length
      invariant ByLatency(h, a[..i])
      invariant multiset(a[..]) == multiset(old(a[..]))
    {
      var j := i;
      while j > 0 && LatencyOf(h, a[j]) < LatencyOf(h, a[j - 1])
        invariant 0 <= j <= i < a.Length
        invariant forall x, y :: 0 <= x < y <= i && y != j ==> LatencyOf(h, a[x]) <= LatencyOf(h, a[y])
        invariant multiset(a[..]) == multiset(old(a[..]))
      {
        SwapBack(a, j);
        j := j - 1;
      }
      i := i + 1;
    }
  }

  // ----- The client -----

  /** Only this endpoint's record differs, and it has one. */
  ghost predicate Touches(h: HealthMap, h': HealthMap, url: string)
  {
    h'.Keys == h.Keys + {url} && forall other :: other in h && other != url ==> h'[other] == h[other]
  }

  class Client {
    const endpoints: seq<string>
    var health: HealthMap

    constructor (endpoints: seq<string>)
      ensures this.endpoints == endpoints
      ensures health == FreshMap(endpoints)
    {
      this.endpoints := endpoints;
      this.health := map[];
      new;
      for i := 0 to |endpoints|
        invariant health == FreshMap(endpoints[..i])
      {
        health := health[endpoints[i] := FRESH];
      }
      assert endpoints[..|endpoints|] == endpoints;
    }

    method MarkSuccess(url: string, latency: int)
      modifies this
      ensures health == Apply(old(health), CallOk(url, latency))
      ensures Touches(old(health), health, url)
      ensures var was := Lookup(old(health), url);
              health[url] == Health(true, latency, 0, was.totalRequests + 1, was.totalFailures)
    {
      if url !in health {
        health := health[url := ZERO];
      }
      var h := health[url];
      health := health[url := h.(healthy := true, consecutiveFails := 0, latency := latency,
                                 totalRequests := h.totalRequests + 1)];
    }

    method MarkFailure(url: string)
      modifies this
      ensures health == Apply(old(health), CallFail(url))
      ensures Touches(old(health), health, url)
      ensures var was := Lookup(old(health), url);
              var fails := was.consecutiveFails + 1;
              health[url] == Health(was.healthy && fails < 3, was.latency, fails, was.totalRequests, was.totalFailures + 1)
    {
      if url !in health {
        health := health[url := ZERO];
      }
      var h := health[url].(consecutiveFails := health[url].consecutiveFails + 1,
                            totalFailures := health[url].totalFailures + 1);
      if h.consecutiveFails >= 3 {
        h := h.(healthy := false);
      }
      health := health[url := h];
    }

    /** The locked part of one probe goroutine of runHealthCheck. */
    method RecordProbe(url: string, r: Reply)
      modifies this
      ensures health == Apply(old(health), ProbeMark(url, r))
      ensures Touches(old(health), health, url)
      ensures var was := Lookup(old(health), url);
              var fails := was.consecutiveFails + 1;
              health[url] ==
                if r.Response? && 200 <= r.status < 300 && r.parses && !r.rpcError then
                  Health(true, r.latency, 0, was.totalRequests, was.totalFailures)
                else
                  Health(was.healthy && fails < 3, r.latency, fails, was.totalRequests, was.totalFailures)
    {
      if url !in health {
        health := health[url := ZERO];
      }
      var h := health[url].(latency := r.latency);
      if r.NoResponse? || r.status < 200 || r.status >= 300 || !r.parses || r.rpcError {
        h := h.(consecutiveFails := h.consecutiveFails + 1);
        if h.consecutiveFails >= 3 {
          h := h.(healthy := false);
        }
      } else {
        h := h.(consecutiveFails := 0, healthy := true);
      }
      health := health[url := h];
    }

    /** runHealthCheck: one probe per configured endpoint, their locked parts running in any order. */
    method RunHealthCheck(schedule: seq<string>, reply: nat -> Reply)
      requires multiset(schedule) == multiset(endpoints)
      modifies this
      ensures health == ApplyAll(old(health), ProbeMarks(schedule, reply))
    {
      var i := 0;
      while i < |schedule|
        invariant 0 <= i <= |schedule|
        invariant health == ApplyAll(old(health), ProbeMarks(schedule[..i], reply))
      {
        assert schedule[..i + 1] == schedule[..i] + [schedule[i]];
        ProbeMarksExtend(old(health), schedule[..i], schedule[i], reply);
        RecordProbe(schedule[i], reply(i));
        i := i + 1;
      }
      assert schedule[..|schedule|] == schedule;
    }

    /** endpointsForCall, under the read lock. */
    method EndpointsForCall() returns (order: seq<string>)
      ensures IsRoutingOrder(order, endpoints, health)
      ensures multiset(order) == multiset(endpoints)
      ensures forall i, j :: 0 <= i < j < |order| && (order[j] in health ==> health[order[j]].healthy) ==>
                && (order[i] in health ==> health[order[i]].healthy)
                && (order[i] in health && order[j] in health ==> health[order[i]].latency <= health[order[j]].latency)
    {
      var healthy: seq<string> := [];
      var unhealthy: seq<string> := [];
      for i := 0 to |endpoints|
        invariant healthy == Select(endpoints[..i], health, true)
        invariant unhealthy == Select(endpoints[..i], health, false)
      {
        var ep := endpoints[i];
        assert endpoints[..i + 1][..i] == endpoints[..i];
        if ep !in health || health[ep].healthy {
          healthy := healthy + [ep];
        } else {
          unhealthy := unhealthy + [ep];
        }
      }
      assert endpoints[..|endpoints|] == endpoints;
      var a := new string[|healthy|](i requires 0 <= i < |healthy| => healthy[i]);
      assert a[..] == healthy;
      SortByLatency(a, health);
      order := a[..] + unhealthy;
      assert order[..|healthy|] == a[..];
      RoutingOrderIsPermutation(order, endpoints, health);
    }

    /** What one round of the failover loop does with the endpoint's reply. */
    method Judge(kind: Kind, url: string, r: Reply) returns (accepted: bool)
      modifies this
      ensures accepted == Accepts(kind, r) && health == Apply(old(health), CallMark(kind, url, r))
      ensures accepted <==> r.Response? && (kind.Single? ==> r.parses) && (kind.Batch? ==> 200 <= r.status < 300)
      ensures Touches(old(health), health, url)
      ensures accepted ==> health[url].healthy && health[url].consecutiveFails == 0 && health[url].latency == r.latency
      ensures !accepted ==> health[url].consecutiveFails == Lookup(old(health), url).consecutiveFails + 1
    {
      accepted := r.Response? && if kind == Single then r.parses else 200 <= r.status < 300;
      if accepted {
        MarkSuccess(url, r.latency);
      } else {
        MarkFailure(url);
      }
    }

    /** The failover loop over a given route. */
    method TryInOrder(kind: Kind, route: seq<string>, reply: nat -> Reply) returns (body: Option<string>, tried: seq<string>)
      modifies this
      ensures tried <= route
      ensures forall i :: 0 <= i < |tried| - 1 ==> !Accepts(kind, reply(i))
      ensures body.Some? ==> tried != [] && var r := reply(|tried| - 1);
                             r.Response? && (kind.Single? ==> r.parses) && (kind.Batch? ==> 200 <= r.status < 300)
      ensures forall i :: 0 <= i < (if body.Some? then |tried| - 1 else |tried|) ==>
                var r := reply(i);
                r.NoResponse? || (kind.Single? && !r.parses) || (kind.Batch? && !(200 <= r.status < 300))
      ensures match body
              case Some(b) => tried != [] && Accepts(kind, reply(|tried| - 1)) && b == reply(|tried| - 1).body
              case None => tried == route && (tried != [] ==> !Accepts(kind, reply(|tried| - 1)))
      ensures health == ApplyAll(old(health), CallMarks(kind, tried, reply))
    {
      tried := [];
      var i := 0;
      while i < |route|
        invariant 0 <= i <= |route| && tried == route[..i]
        invariant forall k :: 0 <= k < i ==> !Accepts(kind, reply(k))
        invariant health == ApplyAll(old(health), CallMarks(kind, tried, reply))
      {
        var ep, r := route[i], reply(i);
        CallMarksExtend(old(health), kind, tried, ep, reply);
        tried := tried + [ep];
        var accepted := Judge(kind, ep, r);
        if accepted {
          return Some(r.body), tried;
        }
        i := i + 1;
      }
      body := None;
    }

    /** Call and ProxyRaw: try the endpoints in routing order until one gives an acceptable reply. */
    method Send(kind: Kind, reply: nat -> Reply) returns (body: Option<string>, tried: seq<string>, ghost order: seq<string>)
      modifies this
      ensures IsRoutingOrder(order, endpoints, old(health)) && tried <= order && multiset(order) == multiset(endpoints)
      ensures forall i, j :: 0 <= i < j < |order| && (order[j] in old(health) ==> old(health)[order[j]].healthy) ==>
                && (order[i] in old(health) ==> old(health)[order[i]].healthy)
                && (order[i] in old(health) && order[j] in old(health) ==>
                      old(health)[order[i]].latency <= old(health)[order[j]].latency)
      ensures forall i :: 0 <= i < |tried| - 1 ==> !Accepts(kind, reply(i))
      ensures body.Some? ==> tried != [] && var r := reply(|tried| - 1);
                             r.Response? && (kind.Single? ==> r.parses) && (kind.Batch? ==> 200 <= r.status < 300)
      ensures forall i :: 0 <= i < (if body.Some? then |tried| - 1 else |tried|) ==>
                var r := reply(i);
                r.NoResponse? || (kind.Single? && !r.parses) || (kind.Batch? && !(200 <= r.status < 300))
      ensures match body
              case Some(b) => tried != [] && Accepts(kind, reply(|tried| - 1)) && b == reply(|tried| - 1).body
              case None => tried == order && (tried != [] ==> !Accepts(kind, reply(|tried| - 1)))
      ensures health == ApplyAll(old(health), CallMarks(kind, tried, reply))
    {
      var route := EndpointsForCall();
      order := route;
      body, tried := TryInOrder(kind, route, reply);
    }
  }
}
