/** Health as a function of the trace of marks, the routing order, and the amortised cost of failover. */
module FailoverTheorems {
  import opened Options
  import opened Counting
  import opened Failover

  // ----- Health is a function of the trace -----

  /** The marks of one endpoint, in order. */
  function Of(ms: seq<Mark>, url: string): seq<Mark>
  {
    if ms == [] then []
    else
      var m := ms[|ms| - 1];
      if m.url == url then Of(ms[..|ms| - 1], url) + [m] else Of(ms[..|ms| - 1], url)
  }

  predicate AllAt(ms: seq<Mark>, endpoints: seq<string>)
  {
    forall i :: 0 <= i < |ms| ==> ms[i].url in endpoints
  }

  /** n is the length of the run of failures that the marks end with. */
  predicate TrailingFailures(ms: seq<Mark>, n: nat)
  {
    && n <= |ms|
    && (forall i :: |ms| - n <= i < |ms| ==> Failing(ms[i]))
    && (n < |ms| ==> !Failing(ms[|ms| - n - 1]))
  }

  /** latency is that of the last mark that is not a call failure, or 0 if there is none. */
  predicate LastLatency(ms: seq<Mark>, latency: int)
  {
    || (latency == 0 && forall i :: 0 <= i < |ms| ==> ms[i].CallFail?)
    || exists k :: 0 <= k < |ms| && !ms[k].CallFail? && ms[k].latency == latency
                   && forall i :: k < i < |ms| ==> ms[i].CallFail?
  }

  function IsCallOk(): Mark -> bool
  {
    (m: Mark) => m.CallOk?
  }

  function IsCallFail(): Mark -> bool
  {
    (m: Mark) => m.CallFail?
  }

  /** What a record says about the marks its endpoint has received. */
  ghost predicate Describes(r: Health, ms: seq<Mark>)
  {
    && TrailingFailures(ms, r.consecutiveFails)
    && (r.healthy <==> r.consecutiveFails < 3)
    && LastLatency(ms, r.latency)
    && r.totalRequests == Count(ms, IsCallOk())
    && r.totalFailures == Count(ms, IsCallFail())
  }

  lemma LatencyFollows(r: Health, ms: seq<Mark>, m: Mark)
    requires LastLatency(ms, r.latency)
    ensures LastLatency(ms + [m], Marked(r, m).latency)
  {
    var after, latency := ms + [m], Marked(r, m).latency;
    assert after[|ms|] == m && forall i :: 0 <= i < |ms| ==> after[i] == ms[i];
    if !m.CallFail? {
      assert !after[|ms|].CallFail? && after[|ms|].latency == latency;
    } else if k :| 0 <= k < |ms| && !ms[k].CallFail? && ms[k].latency == r.latency && forall i :: k < i < |ms| ==> ms[i].CallFail? {
      assert !after[k].CallFail? && after[k].latency == latency;
    }
  }

  lemma TrailFollows(r: Health, ms: seq<Mark>, m: Mark)
    requires TrailingFailures(ms, r.consecutiveFails)
    ensures TrailingFailures(ms + [m], Marked(r, m).consecutiveFails)
  {
    assert (ms + [m])[|ms|] == m && forall i :: 0 <= i < |ms| ==> (ms + [m])[i] == ms[i];
  }

  lemma MarkedDescribes(r: Health, ms: seq<Mark>, m: Mark)
    requires Describes(r, ms)
    ensures Describes(Marked(r, m), ms + [m])
  {
    CountAppend(ms, m, IsCallOk());
    CountAppend(ms, m, IsCallFail());
    LatencyFollows(r, ms, m);
    TrailFollows(r, ms, m);
  }

  /** For every interleaving of probes and calls on the configured endpoints: the map keeps exactly the
      configured domain, so the branches that create a record are dead, and each record describes its
      endpoint's own marks. */
  lemma {:induction false} HealthIsAFunctionOfTheTrace(endpoints: seq<string>, ms: seq<Mark>, url: string)
    requires AllAt(ms, endpoints) && url in endpoints
    ensures var h := ApplyAll(FreshMap(endpoints), ms);
            && h.Keys == (set ep | ep in endpoints)
            && Describes(h[url], Of(ms, url))
    decreases ms
  {
    if ms != [] {
      var n := |ms| - 1;
      HealthIsAFunctionOfTheTrace(endpoints, ms[..n], url);
      var h := ApplyAll(FreshMap(endpoints), ms[..n]);
      if ms[n].url == url {
        MarkedDescribes(h[url], Of(ms[..n], url), ms[n]);
      }
    }
  }

  /** The description determines the record. */
  lemma DescriptionIsUnique(r: Health, r': Health, ms: seq<Mark>)
    requires Describes(r, ms) && Describes(r', ms)
    ensures r == r'
  {
    TrailingFailuresIsUnique(ms, r.consecutiveFails, r'.consecutiveFails);
    TrailingFailuresIsUnique(ms, r'.consecutiveFails, r.consecutiveFails);
    LastLatencyIsUnique(ms, r.latency, r'.latency);
  }

  lemma TrailingFailuresIsUnique(ms: seq<Mark>, a: nat, b: nat)
    requires TrailingFailures(ms, a) && TrailingFailures(ms, b)
    ensures a >= b
  {
    var i := |ms| - a - 1;
    assert i >= 0 ==> !Failing(ms[i]);
  }

  lemma LastLatencyIsUnique(ms: seq<Mark>, a: int, b: int)
    requires LastLatency(ms, a) && LastLatency(ms, b)
    ensures a == b
  {
    if exists k :: 0 <= k < |ms| && !ms[k].CallFail? {
      var j :| 0 <= j < |ms| && !ms[j].CallFail? && ms[j].latency == a && forall i :: j < i < |ms| ==> ms[i].CallFail?;
      var k :| 0 <= k < |ms| && !ms[k].CallFail? && ms[k].latency == b && forall i :: k < i < |ms| ==> ms[i].CallFail?;
      assert j == k;
    }
  }

  /** How the marks of different endpoints interleave does not matter: two traces that agree endpoint by
      endpoint leave the same health map. */
  lemma InterleavingIsIrrelevant(endpoints: seq<string>, ms: seq<Mark>, ns: seq<Mark>)
    requires AllAt(ms, endpoints) && AllAt(ns, endpoints)
    requires forall url :: url in endpoints ==> Of(ms, url) == Of(ns, url)
    ensures ApplyAll(FreshMap(endpoints), ms) == ApplyAll(FreshMap(endpoints), ns)
  {
    var h, k := ApplyAll(FreshMap(endpoints), ms), ApplyAll(FreshMap(endpoints), ns);
    if endpoints == [] {
      assert ms == [] && ns == [];
    } else {
      HealthIsAFunctionOfTheTrace(endpoints, ms, endpoints[0]);
      HealthIsAFunctionOfTheTrace(endpoints, ns, endpoints[0]);
      forall url | url in endpoints
        ensures h[url] == k[url]
      {
        HealthIsAFunctionOfTheTrace(endpoints, ms, url);
        HealthIsAFunctionOfTheTrace(endpoints, ns, url);
        DescriptionIsUnique(h[url], k[url], Of(ms, url));
      }
    }
  }

  // ----- The system of concurrent calls and probes -----

  /** A slot is free, or holds the endpoints a call in flight has still to try. */
  datatype Slot = Free | Busy(rest: seq<string>)

  /** Up to |slots| calls in flight over one health map; attempts lists the endpoint of every attempt made. */
  datatype System = System(health: HealthMap, slots: seq<Slot>, attempts: seq<string>)

  datatype Event =
    | Begin(slot: nat, order: seq<string>)
    | Attempt(slot: nat, ok: bool, latency: int)
    | Probe(url: string, ok: bool, latency: int)

  ghost predicate CanStep(endpoints: seq<string>, s: System, e: Event)
  {
    match e
    case Begin(i, order) => i < |s.slots| && s.slots[i].Free? && IsRoutingOrder(order, endpoints, s.health)
    case Attempt(i, _, _) => i < |s.slots| && s.slots[i].Busy? && s.slots[i].rest != []
    case Probe(url, _, _) => url in endpoints
  }

  function Enter(rest: seq<string>): Slot
  {
    if rest == [] then Free else Busy(rest)
  }

  /** The endpoint an event exercises. */
  function Target(s: System, e: Event): Option<string>
  {
    match e
    case Begin(_, _) => None
    case Attempt(i, _, _) => if i < |s.slots| && s.slots[i].Busy? && s.slots[i].rest != [] then Some(s.slots[i].rest[0]) else None
    case Probe(url, _, _) => Some(url)
  }

  ghost function Step(endpoints: seq<string>, s: System, e: Event): System
    requires CanStep(endpoints, s, e)
  {
    match e
    case Begin(i, order) => s.(slots := s.slots[i := Enter(order)])
    case Attempt(i, ok, latency) =>
      var rest := s.slots[i].rest;
      System(Apply(s.health, if ok then CallOk(rest[0], latency) else CallFail(rest[0])),
             s.slots[i := if ok then Free else Enter(rest[1..])],
             s.attempts + [rest[0]])
    case Probe(url, ok, latency) =>
      s.(health := Apply(s.health, if ok then ProbeOk(url, latency) else ProbeFail(url, latency)))
  }

  ghost predicate Runs(endpoints: seq<string>, s: System, es: seq<Event>)
    decreases es
  {
    es == [] || (CanStep(endpoints, s, es[0]) && Runs(endpoints, Step(endpoints, s, es[0]), es[1..]))
  }

  ghost function Exec(endpoints: seq<string>, s: System, es: seq<Event>): System
    requires Runs(endpoints, s, es)
    decreases es
  {
    if es == [] then s else Exec(endpoints, Step(endpoints, s, es[0]), es[1..])
  }

  predicate Outcome(s: System, e: Event, url: string, ok: bool)
  {
    Target(s, e) == Some(url) ==> (if e.Attempt? then e.ok == ok else e.Probe? ==> e.ok == ok)
  }

  /** Throughout the run, bad fails every call and probe and good succeeds at every one. */
  ghost predicate Always(endpoints: seq<string>, s: System, es: seq<Event>, bad: string, good: string)
    requires Runs(endpoints, s, es)
    decreases es
  {
    es == [] ||
    (Outcome(s, es[0], bad, false) && Outcome(s, es[0], good, true)
     && Always(endpoints, Step(endpoints, s, es[0]), es[1..], bad, good))
  }

  function Start(endpoints: seq<string>, callers: nat): System
  {
    System(FreshMap(endpoints), seq(callers, _ => Free), [])
  }

  // ----- The potential argument -----

  /** The call would reach bad before good stops it. */
  predicate Threatens(rest: seq<string>, bad: string, good: string)
  {
    rest != [] && (rest[0] == bad || (rest[0] != good && Threatens(rest[1..], bad, good)))
  }

  function Threat(bad: string, good: string): Slot -> bool
  {
    (f: Slot) => f.Busy? && Threatens(f.rest, bad, good)
  }

  function At(url: string): string -> bool
  {
    (x: string) => x == url
  }

  predicate RestsDistinct(slots: seq<Slot>)
  {
    forall i :: 0 <= i < |slots| && slots[i].Busy? ==> NoRepeats(slots[i].rest)
  }

  lemma RestsStayDistinct(slots: seq<Slot>, i: nat, slot: Slot)
    requires RestsDistinct(slots) && i < |slots| && (slot.Busy? ==> NoRepeats(slot.rest))
    ensures RestsDistinct(slots[i := slot])
  {
  }

  /** bad is unhealthy from its third failure on; good is always healthy. */
  predicate HealthInv(h: HealthMap, bad: string, good: string)
  {
    && bad in h && good in h && h[good].healthy
    && (h[bad].healthy <==> h[bad].consecutiveFails < 3)
  }

  /** The attempts made on bad, and once it is unhealthy those still threatening, are bounded. */
  predicate CostInv(s: System, bad: string, good: string)
    requires bad in s.health
  {
    var tries := Count(s.attempts, At(bad));
    if s.health[bad].consecutiveFails < 3 then tries <= s.health[bad].consecutiveFails
    else tries + Count(s.slots, Threat(bad, good)) <= |s.slots| + 2
  }

  predicate Inv(s: System, bad: string, good: string)
  {
    HealthInv(s.health, bad, good) && RestsDistinct(s.slots) && CostInv(s, bad, good)
  }

  lemma MarkKeepsHealthInv(h: HealthMap, m: Mark, bad: string, good: string)
    requires HealthInv(h, bad, good) && bad != good
    requires m.url == bad ==> Failing(m)
    requires m.url == good ==> !Failing(m)
    ensures HealthInv(Apply(h, m), bad, good)
    ensures Apply(h, m)[bad].consecutiveFails == h[bad].consecutiveFails + (if m.url == bad then 1 else 0)
  {
  }

  lemma TakeSplits(rest: seq<string>, j: nat)
    requires 0 < j <= |rest|
    ensures rest[..j] == [rest[0]] + rest[1..][..j - 1]
  {
  }

  lemma {:induction false} ThreatPosition(rest: seq<string>, bad: string, good: string)
    requires bad != good
    ensures Threatens(rest, bad, good) <==>
            exists j :: 0 <= j < |rest| && rest[j] == bad && good !in rest[..j]
    decreases rest
  {
    if rest != [] {
      var tail := rest[1..];
      ThreatPosition(tail, bad, good);
      if Threatens(rest, bad, good) {
        if rest[0] == bad {
          assert good !in rest[..0];
        } else {
          var j :| 0 <= j < |tail| && tail[j] == bad && good !in tail[..j];
          TakeSplits(rest, j + 1);
          assert rest[j + 1] == bad && good !in rest[..j + 1];
        }
      }
      if j :| 0 <= j < |rest| && rest[j] == bad && good !in rest[..j] {
        if j > 0 {
          TakeSplits(rest, j);
          assert rest[0] in rest[..j];
          assert tail[j - 1] == bad && good !in tail[..j - 1];
        }
      }
    }
  }

  /** Once bad is marked unhealthy, no fresh snapshot puts it before a healthy good. */
  lemma FreshOrderIsNoThreat(order: seq<string>, endpoints: seq<string>, h: HealthMap, bad: string, good: string)
    requires IsRoutingOrder(order, endpoints, h) && good in endpoints && bad != good
    requires IsHealthy(h, good) && !IsHealthy(h, bad)
    ensures !Threatens(order, bad, good)
  {
    RoutingOrderIsPermutation(order, endpoints, h);
    assert good in multiset(order);
    ThreatPosition(order, bad, good);
  }

  lemma DistinctPermutation(order: seq<string>, endpoints: seq<string>)
    requires multiset(order) == multiset(endpoints) && NoRepeats(endpoints)
    ensures NoRepeats(order)
  {
    forall i, j | 0 <= i < j < |order|
      ensures order[i] != order[j]
    {
      if order[i] == order[j] {
        assert order == order[..i] + [order[i]] + order[i + 1..j] + [order[j]] + order[j + 1..];
        assert multiset(order)[order[i]] >= 2;
        DistinctMultiplicity(endpoints, order[i]);
      }
    }
  }

  lemma {:induction false} DistinctMultiplicity(xs: seq<string>, x: string)
    requires NoRepeats(xs)
    ensures multiset(xs)[x] <= 1
  {
    if xs != [] {
      var n := |xs| - 1;
      assert xs == xs[..n] + [xs[n]];
      DistinctMultiplicity(xs[..n], x);
      if xs[n] == x {
        assert x !in xs[..n];
        assert multiset(xs[..n])[x] == 0;
      }
    }
  }

  lemma BeginKeepsInv(endpoints: seq<string>, s: System, e: Event, bad: string, good: string)
    requires NoRepeats(endpoints) && bad in endpoints && good in endpoints && bad != good
    requires Inv(s, bad, good) && e.Begin? && CanStep(endpoints, s, e)
    ensures Inv(Step(endpoints, s, e), bad, good)
  {
    RoutingOrderIsPermutation(e.order, endpoints, s.health);
    DistinctPermutation(e.order, endpoints);
    RestsStayDistinct(s.slots, e.slot, Enter(e.order));
    CountUpdate(s.slots, e.slot, Enter(e.order), Threat(bad, good));
    if s.health[bad].consecutiveFails >= 3 {
      FreshOrderIsNoThreat(e.order, endpoints, s.health, bad, good);
    }
  }

  /** An attempt on bad uses up the threat of its slot. */
  lemma BadAttempt(endpoints: seq<string>, s: System, e: Event, bad: string, good: string)
    requires bad != good && e.Attempt? && CanStep(endpoints, s, e) && !e.ok
    requires NoRepeats(s.slots[e.slot].rest) && s.slots[e.slot].rest[0] == bad
    ensures var s' := Step(endpoints, s, e);
            && Count(s'.attempts, At(bad)) == Count(s.attempts, At(bad)) + 1
            && Count(s'.slots, Threat(bad, good)) == Count(s.slots, Threat(bad, good)) - 1
            && Count(s'.slots, Threat(bad, good)) < |s.slots|
  {
    var rest := s.slots[e.slot].rest;
    var next := Enter(rest[1..]);
    CountUpdate(s.slots, e.slot, next, Threat(bad, good));
    CountAppend(s.attempts, bad, At(bad));
    ThreatPosition(rest[1..], bad, good);
    assert bad !in rest[1..];
    CountBelowLength(s.slots[e.slot := next], Threat(bad, good), e.slot);
  }

  /** An attempt on any other endpoint adds neither attempts on bad nor threats to it. */
  lemma OtherAttempt(endpoints: seq<string>, s: System, e: Event, bad: string, good: string)
    requires e.Attempt? && CanStep(endpoints, s, e) && s.slots[e.slot].rest[0] != bad
    requires s.slots[e.slot].rest[0] == good ==> e.ok
    ensures var s' := Step(endpoints, s, e);
            && Count(s'.attempts, At(bad)) == Count(s.attempts, At(bad))
            && Count(s'.slots, Threat(bad, good)) <= Count(s.slots, Threat(bad, good))
  {
    var rest := s.slots[e.slot].rest;
    CountUpdate(s.slots, e.slot, Step(endpoints, s, e).slots[e.slot], Threat(bad, good));
    CountAppend(s.attempts, rest[0], At(bad));
  }

  lemma AttemptKeepsInv(endpoints: seq<string>, s: System, e: Event, bad: string, good: string)
    requires bad != good
    requires Inv(s, bad, good) && e.Attempt? && CanStep(endpoints, s, e)
    requires Outcome(s, e, bad, false) && Outcome(s, e, good, true)
    ensures Inv(Step(endpoints, s, e), bad, good)
  {
    var rest := s.slots[e.slot].rest;
    assert NoRepeats(rest) && NoRepeats(rest[1..]);
    RestsStayDistinct(s.slots, e.slot, Step(endpoints, s, e).slots[e.slot]);
    MarkKeepsHealthInv(s.health, if e.ok then CallOk(rest[0], e.latency) else CallFail(rest[0]), bad, good);
    if rest[0] == bad {
      BadAttempt(endpoints, s, e, bad, good);
    } else {
      OtherAttempt(endpoints, s, e, bad, good);
    }
  }

  lemma StepKeepsInv(endpoints: seq<string>, s: System, e: Event, bad: string, good: string)
    requires NoRepeats(endpoints) && bad in endpoints && good in endpoints && bad != good
    requires Inv(s, bad, good) && CanStep(endpoints, s, e)
    requires Outcome(s, e, bad, false) && Outcome(s, e, good, true)
    ensures Inv(Step(endpoints, s, e), bad, good)
  {
    match e
    case Begin(_, _) => BeginKeepsInv(endpoints, s, e, bad, good);
    case Attempt(_, _, _) => AttemptKeepsInv(endpoints, s, e, bad, good);
    case Probe(url, ok, latency) =>
      MarkKeepsHealthInv(s.health, if ok then ProbeOk(url, latency) else ProbeFail(url, latency), bad, good);
  }

  lemma {:induction false} RunKeepsInv(endpoints: seq<string>, s: System, es: seq<Event>, bad: string, good: string)
    requires NoRepeats(endpoints) && bad in endpoints && good in endpoints && bad != good
    requires Inv(s, bad, good) && Runs(endpoints, s, es) && Always(endpoints, s, es, bad, good)
    ensures Inv(Exec(endpoints, s, es), bad, good)
    ensures |Exec(endpoints, s, es).slots| == |s.slots|
    decreases es
  {
    if es != [] {
      StepKeepsInv(endpoints, s, es[0], bad, good);
      RunKeepsInv(endpoints, Step(endpoints, s, es[0]), es[1..], bad, good);
    }
  }

  /** Over any run, however long, of up to m concurrent calls interleaved with probes, an endpoint that
      always fails is attempted at most m + 2 times while one that always succeeds is configured; with
      sequential calls (m = 1), at most three times. */
  lemma BadEndpointCost(endpoints: seq<string>, m: nat, es: seq<Event>, bad: string, good: string)
    requires NoRepeats(endpoints) && bad in endpoints && good in endpoints && bad != good
    requires Runs(endpoints, Start(endpoints, m), es) && Always(endpoints, Start(endpoints, m), es, bad, good)
    ensures Count(Exec(endpoints, Start(endpoints, m), es).attempts, At(bad)) <= m + 2
  {
    CountNone(Start(endpoints, m).slots, Threat(bad, good));
    RunKeepsInv(endpoints, Start(endpoints, m), es, bad, good);
  }

  function Among(urls: set<string>): string -> bool
  {
    (x: string) => x in urls
  }

  lemma {:induction false} CountAmong(xs: seq<string>, urls: set<string>, url: string)
    requires url in urls
    ensures Count(xs, Among(urls)) == Count(xs, At(url)) + Count(xs, Among(urls - {url}))
  {
    if xs != [] {
      CountAmong(xs[..|xs| - 1], urls, url);
    }
  }

  /** The amortised cost of failover: k endpoints that always fail waste at most k * (m + 2) attempts
      altogether over any run; 3k with sequential calls. */
  lemma {:induction false} FailoverCost(endpoints: seq<string>, m: nat, es: seq<Event>, bads: set<string>, good: string)
    requires NoRepeats(endpoints) && good in endpoints && good !in bads
    requires forall bad :: bad in bads ==> bad in endpoints
    requires Runs(endpoints, Start(endpoints, m), es)
    requires forall bad :: bad in bads ==> Always(endpoints, Start(endpoints, m), es, bad, good)
    ensures Count(Exec(endpoints, Start(endpoints, m), es).attempts, Among(bads)) <= |bads| * (m + 2)
    decreases |bads|
  {
    var attempts := Exec(endpoints, Start(endpoints, m), es).attempts;
    if bads == {} {
      CountNone(attempts, Among(bads));
    } else {
      var bad :| bad in bads;
      BadEndpointCost(endpoints, m, es, bad, good);
      FailoverCost(endpoints, m, es, bads - {bad}, good);
      CountAmong(attempts, bads, bad);
      assert |bads| * (m + 2) == (|bads| - 1) * (m + 2) + (m + 2);
    }
  }

  // ----- The failover method is one of these runs -----

  predicate Stops(kind: Kind, tried: seq<string>, order: seq<string>, reply: nat -> Reply)
  {
    && tried <= order
    && (forall i :: 0 <= i < |tried| - 1 ==> !Accepts(kind, reply(i)))
    && (tried == order || (tried != [] && Accepts(kind, reply(|tried| - 1))))
  }

  ghost predicate Reaches(endpoints: seq<string>, s: System, es: seq<Event>, s': System)
  {
    Runs(endpoints, s, es) && Exec(endpoints, s, es) == s'
  }

  lemma ReachOne(endpoints: seq<string>, s: System, e: Event)
    requires CanStep(endpoints, s, e)
    ensures Reaches(endpoints, s, [e], Step(endpoints, s, e))
  {
    var s' := Step(endpoints, s, e);
    assert Runs(endpoints, s', [e][1..]) && Exec(endpoints, s', [e][1..]) == s';
  }

  lemma {:induction false} ReachJoin(endpoints: seq<string>, s: System, es: seq<Event>, mid: System, fs: seq<Event>, end: System)
    requires Reaches(endpoints, s, es, mid) && Reaches(endpoints, mid, fs, end)
    ensures Reaches(endpoints, s, es + fs, end)
    decreases es
  {
    if es == [] {
      assert es + fs == fs;
    } else {
      assert (es + fs)[1..] == es[1..] + fs;
      ReachJoin(endpoints, Step(endpoints, s, es[0]), es[1..], mid, fs, end);
    }
  }

  /** The attempts of a call after its first n, as events. */
  lemma {:induction false} AttemptsAreARun(endpoints: seq<string>, s: System, slot: nat, kind: Kind, order: seq<string>,
                                           tried: seq<string>, n: nat, reply: nat -> Reply)
    returns (es: seq<Event>, end: System)
    requires slot < |s.slots| && n <= |tried| && Stops(kind, tried, order, reply)
    requires s.slots[slot] == if n == |tried| then Free else Enter(order[n..])
    ensures Reaches(endpoints, s, es, end)
    ensures end.slots == s.slots[slot := Free] && end.attempts == s.attempts + tried[n..]
    ensures forall h :: s.health == ApplyAll(h, CallMarks(kind, tried[..n], reply)) ==>
                          end.health == ApplyAll(h, CallMarks(kind, tried, reply))
    decreases |tried| - n
  {
    if n == |tried| {
      es, end := [], s;
      assert tried[..n] == tried && s.slots[slot := Free] == s.slots;
    } else {
      var e := Attempt(slot, Accepts(kind, reply(n)), reply(n).latency);
      assert order[n..][0] == tried[n] && order[n..][1..] == order[n + 1..];
      var next := Step(endpoints, s, e);
      ReachOne(endpoints, s, e);
      var rest;
      rest, end := AttemptsAreARun(endpoints, next, slot, kind, order, tried, n + 1, reply);
      ReachJoin(endpoints, s, [e], next, rest, end);
      es := [e] + rest;
      assert tried[..n + 1] == tried[..n] + [tried[n]];
      forall h | s.health == ApplyAll(h, CallMarks(kind, tried[..n], reply))
        ensures end.health == ApplyAll(h, CallMarks(kind, tried, reply))
      {
        CallMarksExtend(h, kind, tried[..n], tried[n], reply);
      }
    }
  }

  /** What the failover method proves of its body is a run of the concurrent system in one slot, with the
      same attempts and the same health map at the end. */
  lemma SendIsARun(endpoints: seq<string>, s: System, slot: nat, kind: Kind, order: seq<string>, tried: seq<string>,
                   reply: nat -> Reply)
    returns (es: seq<Event>, end: System)
    requires slot < |s.slots| && s.slots[slot].Free?
    requires IsRoutingOrder(order, endpoints, s.health) && Stops(kind, tried, order, reply)
    ensures Reaches(endpoints, s, es, end)
    ensures end == System(ApplyAll(s.health, CallMarks(kind, tried, reply)), s.slots, s.attempts + tried)
  {
    var e := Begin(slot, order);
    var mid := Step(endpoints, s, e);
    ReachOne(endpoints, s, e);
    assert order[0..] == order && tried[0..] == tried;
    var rest;
    rest, end := AttemptsAreARun(endpoints, mid, slot, kind, order, tried, 0, reply);
    ReachJoin(endpoints, s, [e], mid, rest, end);
    es := [e] + rest;
    assert CallMarks(kind, tried[..0], reply) == [];
    assert end.slots == s.slots;
  }
}
