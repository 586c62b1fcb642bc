/** The cascaded rate limiter of backend/shared/storage/redis/redis.go: three counter tiers in
    Redis, each bumped by one atomic increment-and-expire script, consulted in a fixed order.
    Times are nanoseconds since the epoch (UTC) on one clock shared by the gateway and Redis. */
module RateLimiter {
  import opened Options

  const SECOND: int := 1_000_000_000

  datatype Tier = PerSecond | PerMinute | PerDay

  /** The position of a tier in the cascade. */
  function Rank(t: Tier): (r: nat)
    ensures r < 3
  {
    match t
    case PerSecond => 0
    case PerMinute => 1
    case PerDay => 2
  }

  /** The length of a tier's window. */
  function Window(t: Tier): (w: int)
    ensures w > 0
  {
    match t
    case PerSecond => 1_000_000_000
    case PerMinute => 60_000_000_000
    case PerDay => 86400_000_000_000
  }

  /** The time to live given to a tier's counter when it is created. */
  function Ttl(t: Tier): (w: int)
    ensures w > Window(t)
  {
    match t
    case PerSecond => 2_000_000_000
    case PerMinute => 120_000_000_000
    case PerDay => 90000_000_000_000
  }

  /** The window of tier t that contains the instant now. */
  function WindowOf(t: Tier, now: int): int
  {
    match t
    case PerSecond => now / 1_000_000_000
    case PerMinute => now / 60_000_000_000
    case PerDay => now / 86400_000_000_000
  }

  datatype Quotas = Quotas(rps: int, rpm: int, daily: int)

  function Limit(q: Quotas, t: Tier): int
  {
    match t
    case PerSecond => q.rps
    case PerMinute => q.rpm
    case PerDay => q.daily
  }

  /** A tier whose quota is not positive is switched off. */
  predicate Enabled(q: Quotas, t: Tier)
  {
    Limit(q, t) > 0
  }

  // ----- Redis -----

  datatype Key = Key(tier: Tier, tenant: string, window: int)

  datatype Counter = Counter(count: nat, deadline: int)

  type Store = map<Key, Counter>

  predicate Live(store: Store, k: Key, at: int)
  {
    k in store && at < store[k].deadline
  }

  /** The script: increment the key, and set its expiry only if the increment created it. */
  function Incr(store: Store, k: Key, ttl: int, at: int): (Store, nat)
  {
    if Live(store, k, at) then
      var n := store[k].count + 1;
      (store[k := Counter(n, store[k].deadline)], n)
    else
      (store[k := Counter(1, at + ttl)], 1)
  }

  // ----- One call of CheckRateLimits, as a program counter -----

  datatype Phase =
    | Pending(tier: Tier)                  // about to run this tier's script
    | Admitted
    | Rejected(tripped: Tier)
    | Failed(at: Tier, value: nat)         // the script's reply was an error; value: what the counter came to, 0 if it did not run

  /** What happens to one script execution: a reply, an error before it ran, or an error after. */
  datatype Reply = Replied | NotRun | ReplyLost

  /** A call in phase p has left tier t behind, by clearing it or because it is switched off. */
  predicate Past(p: Phase, t: Tier)
  {
    match p
    case Pending(u) => Rank(t) < Rank(u)
    case Admitted => true
    case Rejected(u) => Rank(t) < Rank(u)
    case Failed(u, _) => Rank(t) < Rank(u)
  }

  datatype Call = Call(tenant: string, quotas: Quotas, now: int, phase: Phase)

  /** The first enabled tier from t on; a call with none left is admitted. */
  function From(q: Quotas, t: Tier): Phase
    decreases 3 - Rank(t), 1
  {
    if Enabled(q, t) then Pending(t) else After(q, t)
  }

  /** Where a call goes once tier t is behind it. */
  function After(q: Quotas, t: Tier): Phase
    decreases 3 - Rank(t), 0
  {
    match t
    case PerSecond => From(q, PerMinute)
    case PerMinute => From(q, PerDay)
    case PerDay => Admitted
  }

  function Arrived(tenant: string, q: Quotas, now: int): Call
  {
    Call(tenant, q, now, From(q, PerSecond))
  }

  function KeyOf(c: Call, t: Tier): Key
  {
    Key(t, c.tenant, WindowOf(t, c.now))
  }

  /** One script execution on behalf of a pending call. */
  function EvalCall(c: Call, store: Store, at: int, reply: Reply): (Call, Store)
    requires c.phase.Pending?
  {
    var t := c.phase.tier;
    var (bumped, count) := Incr(store, KeyOf(c, t), Ttl(t), at);
    match reply
    case NotRun => (c.(phase := Failed(t, 0)), store)
    case ReplyLost => (c.(phase := Failed(t, count)), bumped)
    case Replied =>
      if count > Limit(c.quotas, t) then (c.(phase := Rejected(t)), bumped)
      else (c.(phase := After(c.quotas, t)), bumped)
  }

  // ----- Many calls in flight -----

  /** Every call ever made, in order of arrival, with the store they share. */
  datatype State = State(clock: int, store: Store, calls: seq<Call>)

  datatype Event =
    | Advance(delta: nat)
    | Arrive(tenant: string, quotas: Quotas)
    | Eval(i: nat, reply: Reply)

  predicate CanStep(s: State, e: Event)
  {
    e.Eval? ==> e.i < |s.calls| && s.calls[e.i].phase.Pending?
  }

  function Step(s: State, e: Event): State
    requires CanStep(s, e)
  {
    match e
    case Advance(d) => s.(clock := s.clock + d)
    case Arrive(tenant, q) => s.(calls := s.calls + [Arrived(tenant, q, s.clock)])
    case Eval(i, reply) =>
      var (c, store) := EvalCall(s.calls[i], s.store, s.clock, reply);
      s.(store := store, calls := s.calls[i := c])
  }

  /** A script of tier t runs at most slack after its call read the clock. */
  predicate PromptAt(s: State, e: Event, t: Tier, slack: int)
  {
    e.Eval? && CanStep(s, e) && s.calls[e.i].phase.tier == t ==> s.clock <= s.calls[e.i].now + slack
  }

  /** A run: every event is possible when it happens. */
  predicate Runs(s: State, es: seq<Event>)
    decreases es
  {
    es == [] || (CanStep(s, es[0]) && Runs(Step(s, es[0]), es[1..]))
  }

  function Exec(s: State, es: seq<Event>): State
    requires Runs(s, es)
    decreases es
  {
    if es == [] then s else Exec(Step(s, es[0]), es[1..])
  }

  predicate PromptRun(s: State, es: seq<Event>, t: Tier, slack: int)
    requires Runs(s, es)
    decreases es
  {
    es == [] || (PromptAt(s, es[0], t, slack) && PromptRun(Step(s, es[0]), es[1..], t, slack))
  }

  /** What a tier's time to live leaves after its window. */
  function Margin(t: Tier): (m: int)
    ensures m == (match t case PerSecond => 1_000_000_000 case PerMinute => 60_000_000_000 case PerDay => 3600_000_000_000)
  {
    Ttl(t) - Window(t)
  }

  /** Every script of tier t runs no later than (time to live - window) after its call read the clock. */
  predicate TimelyRun(s: State, es: seq<Event>, t: Tier)
    requires Runs(s, es)
  {
    PromptRun(s, es, t, Margin(t))
  }

  /** Every call of the tenant is made with quotas q. */
  predicate FixedQuotas(es: seq<Event>, tenant: string, q: Quotas)
  {
    forall i :: 0 <= i < |es| && es[i].Arrive? && es[i].tenant == tenant ==> es[i].quotas == q
  }

  function Init(clock: int): State
  {
    State(clock, map[], [])
  }

  // ----- The sequential method -----

  /** The call's turn at tier t: nothing happens unless it is waiting there. */
  function TakeTurn(c: Call, store: Store, t: Tier, at: Tier -> int, reply: Tier -> Reply): (Call, Store)
  {
    if c.phase == Pending(t) then EvalCall(c, store, at(t), reply(t)) else (c, store)
  }

  /** A call run to its end, tier t's script running at time at(t) with fate reply(t). */
  function RunAlone(c: Call, store: Store, at: Tier -> int, reply: Tier -> Reply): (Call, Store)
  {
    var (c1, store1) := TakeTurn(c, store, PerSecond, at, reply);
    var (c2, store2) := TakeTurn(c1, store1, PerMinute, at, reply);
    TakeTurn(c2, store2, PerDay, at, reply)
  }

  /** The call has the minute script's answer: a quota for it, and no end before or instead of the answer. */
  predicate MinuteAnswered(c: Call)
  {
    c.quotas.rpm > 0 && (Past(c.phase, PerMinute) || c.phase == Rejected(PerMinute))
  }

  /** What a counter leaves of a quota. */
  function Left(limit: int, count: nat): (r: nat)
    ensures count <= limit ==> r == limit - count
    ensures count > limit ==> r == 0
  {
    if limit - count < 0 then 0 else limit - count
  }

  /** RateLimitStatus; rejected is None while RejectedLimit is the empty string. */
  datatype Status = Status(limitMinute: int, remainingMinute: int, reset: int, retryAfter: int, rejected: Option<Tier>)

  /** The three results of CheckRateLimits; err names the tier whose script failed. */
  datatype Verdict = Verdict(allowed: bool, status: Status, err: Option<Tier>)

  /** max(1, whole seconds until the deadline), as the source rounds it. */
  function RetrySeconds(deadline: int, wall: int): (r: int)
    ensures r >= 1
    ensures deadline - wall >= SECOND ==> r * SECOND <= deadline - wall < (r + 1) * SECOND
    ensures deadline - wall < SECOND ==> r == 1
  {
    if deadline - wall < 1_000_000_000 then 1 else (deadline - wall) / 1_000_000_000
  }

  /** The first instant of the next minute. */
  function NextMinute(now: int): (m: int)
    ensures now < m <= now + Window(PerMinute) && WindowOf(PerMinute, m) == WindowOf(PerMinute, now) + 1
    ensures m % Window(PerMinute) == 0
  {
    (now / 60_000_000_000 + 1) * 60_000_000_000
  }

  /** Midnight after now. */
  function NextDay(now: int): (d: int)
    ensures now < d <= now + 86400_000_000_000 && d % 86400_000_000_000 == 0
    ensures WindowOf(PerDay, d) == WindowOf(PerDay, now) + 1
  {
    (now / 86400_000_000_000 + 1) * 86400_000_000_000
  }

  /** The retry hint of each kind of rejection; 0 without one. */
  function RetryAfter(rejected: Option<Tier>, minuteReset: int, now: int, wall: int): (r: nat)
    ensures rejected.Some? <==> r >= 1
  {
    match rejected
    case None => 0
    case Some(PerSecond) => 1
    case Some(PerMinute) => RetrySeconds(minuteReset, wall)
    case Some(PerDay) => RetrySeconds(NextDay(now), wall)
  }

  /** What CheckRateLimits returns of a call that has come to its end: whether it was admitted, the tier that
      rejected it or whose script failed, and of the minute tier the quota, unless it is off and was passed,
      and what is left of it, if its script answered. */
  function VerdictOf(c: Call, store: Store, wall: int): Verdict
    requires MinuteAnswered(c) ==> KeyOf(c, PerMinute) in store
  {
    var rejected := if c.phase.Rejected? then Some(c.phase.tripped) else None;
    var limit := if c.quotas.rpm <= 0 && Past(c.phase, PerSecond) then 0 else c.quotas.rpm;
    var left := if MinuteAnswered(c) then Left(c.quotas.rpm, store[KeyOf(c, PerMinute)].count) else 0;
    var reset := NextMinute(c.now);
    Verdict(c.phase.Admitted?, Status(limit, left, reset, RetryAfter(rejected, reset, c.now, wall), rejected),
            if c.phase.Failed? then Some(c.phase.at) else None)
  }

  // ----- What the caller sees -----

  /** The key the call's tier counts on. */
  function TierKey(tenant: string, t: Tier, now: int): Key
  {
    Key(t, tenant, WindowOf(t, now))
  }

  /** One turn: a reply within the quota goes on, one beyond it rejects, no reply fails; no other key changes. */
  ghost predicate Turns(c: Call, store: Store, t: Tier, reply: Tier -> Reply, c': Call, end: Store)
  {
    var k := TierKey(c.tenant, t, c.now);
    && c' == c.(phase := c'.phase)
    && (reply(t) == Replied ==>
          k in end && c'.phase == if end[k].count <= Limit(c.quotas, t) then After(c.quotas, t) else Rejected(t))
    && (reply(t) != Replied ==> c'.phase.Failed? && c'.phase.at == t)
    && forall other :: other != k ==> (other in end <==> other in store) && (other in end ==> end[other] == store[other])
  }

  lemma TurnMeans(c: Call, store: Store, t: Tier, at: Tier -> int, reply: Tier -> Reply)
    requires c.phase == Pending(t)
    ensures var (c', end) := TakeTurn(c, store, t, at, reply);
            Turns(c, store, t, reply, c', end)
  {
  }

  /** Every enabled tier's key is stored with a count within its quota. */
  predicate AllWithin(store: Store, tenant: string, q: Quotas, now: int)
  {
    forall t :: Enabled(q, t) ==>
      TierKey(tenant, t, now) in store && store[TierKey(tenant, t, now)].count <= Limit(q, t)
  }

  /** The tiers before the n-th that the call has a quota for are stored with a count within it. */
  predicate WithinBelow(c: Call, store: Store, n: nat)
  {
    forall u :: Enabled(c.quotas, u) && Rank(u) < n ==>
      TierKey(c.tenant, u, c.now) in store && store[TierKey(c.tenant, u, c.now)].count <= Limit(c.quotas, u)
  }

  /** The tiers from the n-th on are stored as they were. */
  predicate UntouchedFrom(c: Call, store: Store, first: Store, n: nat)
  {
    forall u :: Rank(u) >= n ==>
      var k := TierKey(c.tenant, u, c.now);
      (k in store <==> k in first) && (k in store ==> store[k] == first[k])
  }

  /** Where the call stands after the first n tiers. */
  predicate Stage(c: Call, store: Store, first: Store, reply: Tier -> Reply, n: nat)
  {
    match c.phase
    case Pending(u) =>
      && Rank(u) >= n && (forall v :: n <= Rank(v) < Rank(u) ==> !Enabled(c.quotas, v))
      && WithinBelow(c, store, n) && UntouchedFrom(c, store, first, n)
    case Admitted =>
      && (forall v :: n <= Rank(v) ==> !Enabled(c.quotas, v))
      && WithinBelow(c, store, n) && UntouchedFrom(c, store, first, n)
    case Rejected(t) =>
      && Rank(t) < n && Enabled(c.quotas, t) && WithinBelow(c, store, Rank(t)) && UntouchedFrom(c, store, first, Rank(t) + 1)
      && TierKey(c.tenant, t, c.now) in store && store[TierKey(c.tenant, t, c.now)].count > Limit(c.quotas, t)
    case Failed(t, _) =>
      && Rank(t) < n && Enabled(c.quotas, t) && reply(t) != Replied && UntouchedFrom(c, store, first, Rank(t) + 1)
  }

  /** A call sent on to phase p skips, from the n-th tier on, only tiers that are switched off. */
  predicate SkipsOnlyOff(p: Phase, q: Quotas, n: nat)
  {
    || (p.Pending? && n <= Rank(p.tier) && Enabled(q, p.tier) && forall v :: n <= Rank(v) < Rank(p.tier) ==> !Enabled(q, v))
    || (p.Admitted? && forall v :: n <= Rank(v) ==> !Enabled(q, v))
  }

  lemma FromSkips(q: Quotas, t: Tier)
    ensures SkipsOnlyOff(From(q, t), q, Rank(t))
    decreases 3 - Rank(t)
  {
    if t == PerSecond {
      FromSkips(q, PerMinute);
    } else if t == PerMinute {
      FromSkips(q, PerDay);
    }
  }

  lemma AfterSkips(q: Quotas, t: Tier)
    ensures SkipsOnlyOff(After(q, t), q, Rank(t) + 1)
  {
    if t == PerSecond {
      FromSkips(q, PerMinute);
    } else if t == PerMinute {
      FromSkips(q, PerDay);
    }
  }

  /** A stage, and the tier the call waits at has a quota. */
  predicate Stands(c: Call, store: Store, first: Store, reply: Tier -> Reply, n: nat)
  {
    Stage(c, store, first, reply, n) && (c.phase.Pending? ==> Enabled(c.quotas, c.phase.tier))
  }

  lemma StageTurn(c: Call, store: Store, first: Store, t: Tier, reply: Tier -> Reply, c': Call, end: Store)
    requires Stands(c, store, first, reply, Rank(t)) && c.phase == Pending(t) && Turns(c, store, t, reply, c', end)
    ensures Stands(c', end, first, reply, Rank(t) + 1)
  {
    AfterSkips(c.quotas, t);
    OtherTiersStay(c, store, first, t, reply, c', end);
  }

  lemma OtherTiersStay(c: Call, store: Store, first: Store, t: Tier, reply: Tier -> Reply, c': Call, end: Store)
    requires Turns(c, store, t, reply, c', end)
    ensures WithinBelow(c, store, Rank(t)) ==> WithinBelow(c', end, Rank(t))
    ensures UntouchedFrom(c, store, first, Rank(t)) ==> UntouchedFrom(c', end, first, Rank(t) + 1)
  {
  }

  lemma StageSkip(c: Call, store: Store, first: Store, t: Tier, reply: Tier -> Reply)
    requires Stands(c, store, first, reply, Rank(t)) && c.phase != Pending(t)
    ensures Stands(c, store, first, reply, Rank(t) + 1)
  {
  }

  lemma StageNext(c: Call, store: Store, first: Store, t: Tier, at: Tier -> int, reply: Tier -> Reply)
    requires Stands(c, store, first, reply, Rank(t))
    ensures var (c', end) := TakeTurn(c, store, t, at, reply);
            Stands(c', end, first, reply, Rank(t) + 1) && c' == c.(phase := c'.phase)
  {
    if c.phase == Pending(t) {
      var (c', end) := TakeTurn(c, store, t, at, reply);
      TurnMeans(c, store, t, at, reply);
      StageTurn(c, store, first, t, reply, c', end);
    } else {
      StageSkip(c, store, first, t, reply);
    }
  }

  lemma StageStart(c: Call, store: Store, reply: Tier -> Reply)
    requires c.phase == From(c.quotas, PerSecond)
    ensures Stands(c, store, store, reply, 0)
  {
    FromSkips(c.quotas, PerSecond);
  }

  /** The last two turns. */
  lemma StageRest(c: Call, store: Store, first: Store, at: Tier -> int, reply: Tier -> Reply)
    requires Stands(c, store, first, reply, 1)
    ensures var (c2, store2) := TakeTurn(c, store, PerMinute, at, reply);
            var (c3, end) := TakeTurn(c2, store2, PerDay, at, reply);
            c3 == c.(phase := c3.phase) && Stands(c3, end, first, reply, 3)
  {
    StageNext(c, store, first, PerMinute, at, reply);
    var (c2, store2) := TakeTurn(c, store, PerMinute, at, reply);
    StageNext(c2, store2, first, PerDay, at, reply);
  }

  /** Where a call that ran alone ended, read off the counters it left and the replies it got. */
  lemma EndMeans(c: Call, store: Store, at: Tier -> int, reply: Tier -> Reply)
    requires c.phase == From(c.quotas, PerSecond)
    ensures var (c', end) := RunAlone(c, store, at, reply);
            c' == c.(phase := c'.phase) && Stage(c', end, store, reply, 3) && !c'.phase.Pending?
  {
    StageStart(c, store, reply);
    StageNext(c, store, store, PerSecond, at, reply);
    var (c1, store1) := TakeTurn(c, store, PerSecond, at, reply);
    StageRest(c1, store1, store, at, reply);
  }

  /** The connection to Redis; store is the part of the Redis database it works on. */
  class Client {
    var store: Store

    constructor ()
      ensures store == map[]
    {
      store := map[];
    }

    /** One script execution; count is meaningful only if the reply came back. */
    method EvalScript(k: Key, ttl: int, at: int, reply: Reply) returns (ok: bool, count: nat)
      modifies this
      ensures ok <==> reply == Replied
      ensures store == (if reply == NotRun then old(store) else Incr(old(store), k, ttl, at).0)
      ensures ok ==> count == Incr(old(store), k, ttl, at).1
    {
      ok, count := reply == Replied, 0;
      if reply == NotRun {
        return;
      }
      if k in store && at < store[k].deadline {
        count := store[k].count + 1;
        store := store[k := store[k].(count := count)];
      } else {
        count := 1;
        store := store[k := Counter(1, at + ttl)];
      }
    }

    /** One tier's part of CheckRateLimits up to its script's answer: its key, its script. */
    method RunTier(tenant: string, q: Quotas, now: int, t: Tier, at: Tier -> int, reply: Tier -> Reply)
      returns (ok: bool, current: nat)
      requires Enabled(q, t)
      modifies this
      ensures var (c, end) := TakeTurn(Call(tenant, q, now, Pending(t)), old(store), t, at, reply);
              && store == end && (c.phase.Failed? <==> !ok) && (!ok ==> c.phase.at == t)
              && c == Call(tenant, q, now, if !ok then c.phase
                                           else if current > Limit(q, t) then Rejected(t) else After(q, t))
      ensures var key := Key(t, tenant, WindowOf(t, now));
              && (ok ==> key in store && store[key].count == current)
              && forall k :: k != key ==> (k in store <==> k in old(store)) && (k in store ==> store[k] == old(store)[k])
    {
      var key := Key(t, tenant, WindowOf(t, now));
      ok, current := EvalScript(key, Ttl(t), at(t), reply(t));
    }

    /** The cascade: it takes exactly the steps of RunAlone, and its verdict and every status field read off
        where the call ended. */
    method RunCascade(tenant: string, q: Quotas, now: int, at: Tier -> int, reply: Tier -> Reply, wall: int)
      returns (v: Verdict)
      modifies this
      ensures var (c, end) := RunAlone(Arrived(tenant, q, now), old(store), at, reply);
              && store == end
              && (MinuteAnswered(c) ==> KeyOf(c, PerMinute) in store)
              && v == VerdictOf(c, store, wall)
    {
      ghost var call, redis := Arrived(tenant, q, now), store;
      var minuteReset := NextMinute(now);
      var status := Status(q.rpm, 0, minuteReset, 0, None);

      if q.rps > 0 {
        var ok, current := RunTier(tenant, q, now, PerSecond, at, reply);
        if !ok {
          return Verdict(false, status, Some(PerSecond));
        }
        if current > q.rps {
          status := status.(rejected := Some(PerSecond), retryAfter := 1);
          return Verdict(false, status, None);
        }
      }

      ghost var (call1, redis1) := TakeTurn(call, redis, PerSecond, at, reply);
      assert call1 == Call(tenant, q, now, From(q, PerMinute)) && store == redis1;
      if q.rpm > 0 {
        var ok, current := RunTier(tenant, q, now, PerMinute, at, reply);
        if !ok {
          return Verdict(false, status, Some(PerMinute));
        }
        var remaining := q.rpm - current;
        if remaining < 0 {
          remaining := 0;
        }
        status := status.(remainingMinute := remaining);
        if current > q.rpm {
          status := status.(rejected := Some(PerMinute), retryAfter := RetrySeconds(minuteReset, wall));
          return Verdict(false, status, None);
        }
      } else {
        status := status.(limitMinute := 0, remainingMinute := 0);
      }

      ghost var (call2, redis2) := TakeTurn(call1, redis1, PerMinute, at, reply);
      assert call2 == Call(tenant, q, now, From(q, PerDay)) && store == redis2;
      if q.daily > 0 {
        var ok, current := RunTier(tenant, q, now, PerDay, at, reply);
        if !ok {
          return Verdict(false, status, Some(PerDay));
        }
        if current > q.daily {
          status := status.(rejected := Some(PerDay), retryAfter := RetrySeconds(NextDay(now), wall));
          return Verdict(false, status, None);
        }
      }

      return Verdict(true, status, None);
    }

    /** CheckRateLimits with nothing else running. Without an error the call is allowed if and only if the
        counters it leaves are all within the quotas; a rejection names the first tier whose counter is beyond
        its quota, and touches no later one; an error names the tier whose script gave no reply. */
    method CheckRateLimits(tenant: string, q: Quotas, now: int, at: Tier -> int, reply: Tier -> Reply, wall: int)
      returns (v: Verdict)
      modifies this
      ensures var (c, end) := RunAlone(Arrived(tenant, q, now), old(store), at, reply);
              && store == end
              && (v.allowed <==> c.phase.Admitted?)
              && (forall t :: v.status.rejected == Some(t) <==> c.phase == Rejected(t))
              && (forall t :: v.err == Some(t) <==> c.phase.Failed? && c.phase.at == t)
      ensures v.err.None? ==> (v.allowed <==> AllWithin(store, tenant, q, now))
      ensures v.allowed ==> v.err.None? && v.status.rejected.None?
      ensures v.err.Some? ==> reply(v.err.value) != Replied && Enabled(q, v.err.value) && v.status.rejected.None?
      ensures v.status.rejected.Some? ==>
                var t := v.status.rejected.value;
                && Enabled(q, t) && TierKey(tenant, t, now) in store && store[TierKey(tenant, t, now)].count > Limit(q, t)
                && (forall u :: Enabled(q, u) && Rank(u) < Rank(t) ==>
                      TierKey(tenant, u, now) in store && store[TierKey(tenant, u, now)].count <= Limit(q, u))
                && forall u :: Rank(u) > Rank(t) ==>
                     var k := TierKey(tenant, u, now);
                     (k in store <==> k in old(store)) && (k in store ==> store[k] == old(store)[k])
      ensures now < v.status.reset <= now + 60_000_000_000 && v.status.reset % 60_000_000_000 == 0
      ensures v.status.retryAfter == match v.status.rejected
                                     case None => 0
                                     case Some(PerSecond) => 1
                                     case Some(PerMinute) => RetrySeconds(v.status.reset, wall)
                                     case Some(PerDay) => RetrySeconds(NextDay(now), wall)
      ensures q.rpm > 0 ==> v.status.limitMinute == q.rpm
      ensures v.allowed && q.rpm <= 0 ==> v.status.limitMinute == v.status.remainingMinute == 0
      ensures v.allowed && q.rpm > 0 ==> v.status.remainingMinute == q.rpm - store[TierKey(tenant, PerMinute, now)].count
      ensures v.status.rejected == Some(PerDay) && q.rpm > 0 ==>
                v.status.remainingMinute == q.rpm - store[TierKey(tenant, PerMinute, now)].count
      ensures v.status.rejected == Some(PerSecond) || v.status.rejected == Some(PerMinute) ==> v.status.remainingMinute == 0
    {
      EndMeans(Arrived(tenant, q, now), store, at, reply);
      v := RunCascade(tenant, q, now, at, reply, wall);
    }
  }
}
