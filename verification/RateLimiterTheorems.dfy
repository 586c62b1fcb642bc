/** What the cascade guarantees over every run: any number of calls in flight, interleaved step by
    step, with lost replies and failed scripts. */
module RateLimiterTheorems {
  import opened Counting
  import opened RateLimiter

  // ----- Predicates on calls -----

  /** The call of this tenant whose clock reading falls in the key's window. */
  predicate InWindow(c: Call, k: Key)
  {
    c.tenant == k.tenant && WindowOf(k.tier, c.now) == k.window
  }

  /** The call has incremented tier t's counter. */
  predicate Counted(c: Call, t: Tier)
  {
    Enabled(c.quotas, t) && (Past(c.phase, t) || c.phase == Rejected(t) || (c.phase.Failed? && c.phase.at == t && c.phase.value > 0))
  }

  function CountedAt(k: Key): Call -> bool
  {
    (c: Call) => InWindow(c, k) && Counted(c, k.tier)
  }

  function PastAt(k: Key): Call -> bool
  {
    (c: Call) => InWindow(c, k) && Past(c.phase, k.tier)
  }

  /** The calls that reached tier t: they left every earlier tier behind. */
  predicate Reaches(p: Phase, t: Tier)
  {
    match t
    case PerSecond => true
    case PerMinute => Past(p, PerSecond)
    case PerDay => Past(p, PerMinute)
  }

  function ReachedAt(k: Key): Call -> bool
  {
    (c: Call) => InWindow(c, k) && Reaches(c.phase, k.tier)
  }

  /** The calls whose reply was lost although theirs was among the first `limit` increments of this key. */
  function LostAt(k: Key, limit: int): Call -> bool
  {
    (c: Call) => InWindow(c, k) && c.phase.Failed? && c.phase.at == k.tier && 0 < c.phase.value <= limit
  }

  /** The calls that got past this key's tier with a quota for it. */
  function ClearedAt(k: Key): Call -> bool
  {
    (c: Call) => InWindow(c, k) && Enabled(c.quotas, k.tier) && Past(c.phase, k.tier)
  }

  function AdmittedAt(k: Key): Call -> bool
  {
    (c: Call) => InWindow(c, k) && c.phase.Admitted?
  }

  // ----- Window arithmetic -----

  lemma WindowBounds(t: Tier, now: int)
    ensures WindowOf(t, now) * Window(t) <= now < WindowOf(t, now) * Window(t) + Window(t)
    ensures Window(PerSecond) == 1_000_000_000 && Window(PerMinute) == 60 * Window(PerSecond)
    ensures Window(PerDay) == 24 * 60 * Window(PerMinute)
  {
    match t
    case PerSecond =>
    case PerMinute =>
    case PerDay =>
  }

  /** Windows nest: a second lies in one minute, a minute in one day. */
  lemma WindowsNest(now: int)
    ensures WindowOf(PerMinute, now) == WindowOf(PerSecond, now) / 60
    ensures WindowOf(PerDay, now) == WindowOf(PerMinute, now) / 1440
  {
  }

  // ----- The invariant -----

  /** A call waits at, or stopped at, an enabled tier only. */
  predicate Sound(c: Call)
  {
    match c.phase
    case Pending(t) => Enabled(c.quotas, t)
    case Rejected(t) => Enabled(c.quotas, t)
    case Failed(t, _) => Enabled(c.quotas, t)
    case Admitted => true
  }

  function Min(a: int, b: int): int
  {
    if a < b then a else b
  }

  predicate Base(s: State)
  {
    forall i :: 0 <= i < |s.calls| ==> Sound(s.calls[i]) && s.calls[i].now <= s.clock
  }

  /** The stored counter is the number of calls that incremented it, and it cannot expire while a timely
      script may still use it. */
  predicate Stored(s: State, k: Key)
  {
    var n := Count(s.calls, CountedAt(k));
    && (n == 0 ==> k !in s.store)
    && (n > 0 ==> k in s.store && s.store[k].count == n
                  && s.store[k].deadline >= k.window * Window(k.tier) + Ttl(k.tier))
  }

  /** Call i of the window was made with a quota of at least n. */
  predicate Allows(calls: seq<Call>, k: Key, i: int, n: nat)
  {
    0 <= i < |calls| && InWindow(calls[i], k) && Enabled(calls[i].quotas, k.tier) && n <= Limit(calls[i].quotas, k.tier)
  }

  /** No more calls have cleared the tier than the largest quota a call of the window was made with. */
  ghost predicate Capped(s: State, k: Key)
  {
    var n := Count(s.calls, ClearedAt(k));
    n == 0 || exists i :: Allows(s.calls, k, i, n)
  }

  /** The invariant of one tier, whatever the quotas; it needs nothing of the other tiers. */
  ghost predicate Inv(s: State, t: Tier)
  {
    Base(s) && forall k: Key :: k.tier == t ==> Stored(s, k) && Capped(s, k)
  }

  /** Of the first `limit` calls that incremented the counter, exactly those whose reply was lost did not
      clear the tier. */
  predicate Filled(s: State, q: Quotas, k: Key)
  {
    Enabled(q, k.tier) ==>
      Count(s.calls, ClearedAt(k)) + Count(s.calls, LostAt(k, Limit(q, k.tier))) ==
      Min(Count(s.calls, CountedAt(k)), Limit(q, k.tier))
  }

  /** What holds besides of a tenant whose quotas do not change. */
  ghost predicate Fixed(s: State, tenant: string, q: Quotas, t: Tier)
  {
    && (forall i :: 0 <= i < |s.calls| && s.calls[i].tenant == tenant ==> s.calls[i].quotas == q)
    && (forall k: Key :: k.tenant == tenant && k.tier == t ==> Filled(s, q, k))
  }

  ghost predicate InvAll(s: State, tenant: string, q: Quotas)
  {
    forall t :: Inv(s, t) && Fixed(s, tenant, q, t)
  }

  lemma FromIsSound(q: Quotas, t: Tier)
    ensures From(q, t).Admitted? || (From(q, t).Pending? && Enabled(q, From(q, t).tier))
    ensures forall u :: Enabled(q, u) && Rank(t) <= Rank(u) ==> !Past(From(q, t), u)
    ensures forall u :: Rank(u) < Rank(t) ==> Past(From(q, t), u)
    decreases 3 - Rank(t)
  {
    match t
    case PerSecond => FromIsSound(q, PerMinute);
    case PerMinute => FromIsSound(q, PerDay);
    case PerDay =>
  }

  lemma AfterIsSound(q: Quotas, t: Tier)
    ensures After(q, t).Admitted? || (After(q, t).Pending? && Enabled(q, After(q, t).tier))
    ensures forall u :: Rank(u) <= Rank(t) ==> Past(After(q, t), u)
    ensures forall u :: Enabled(q, u) && Rank(t) < Rank(u) ==> !Past(After(q, t), u)
  {
    match t
    case PerSecond => FromIsSound(q, PerMinute);
    case PerMinute => FromIsSound(q, PerDay);
    case PerDay =>
  }

  /** A new call has neither counted nor cleared anything. */
  lemma ArriveCounts(s: State, e: Event, k: Key, limit: int)
    requires e.Arrive?
    ensures Count(Step(s, e).calls, CountedAt(k)) == Count(s.calls, CountedAt(k))
    ensures Count(Step(s, e).calls, ClearedAt(k)) == Count(s.calls, ClearedAt(k))
    ensures Count(Step(s, e).calls, LostAt(k, limit)) == Count(s.calls, LostAt(k, limit))
    ensures Sound(Arrived(e.tenant, e.quotas, s.clock))
  {
    var c := Arrived(e.tenant, e.quotas, s.clock);
    FromIsSound(e.quotas, PerSecond);
    CountAppend(s.calls, c, CountedAt(k));
    CountAppend(s.calls, c, ClearedAt(k));
    CountAppend(s.calls, c, LostAt(k, limit));
  }

  /** The counter of a pending call's key is still live when its script runs in time. */
  lemma TimelyIsLive(s: State, t: Tier, e: Event)
    requires Inv(s, t) && e.Eval? && CanStep(s, e) && PromptAt(s, e, t, Margin(t)) && s.calls[e.i].phase.tier == t
    ensures var k := KeyOf(s.calls[e.i], t);
            var n := Count(s.calls, CountedAt(k));
            && Incr(s.store, k, Ttl(t), s.clock).1 == n + 1
            && Incr(s.store, k, Ttl(t), s.clock).0[k].deadline >= k.window * Window(t) + Ttl(t)
  {
    var k := KeyOf(s.calls[e.i], t);
    assert Stored(s, k);
    WindowBounds(t, s.calls[e.i].now);
  }

  /** The step is the execution of a script on this key. */
  predicate Touches(s: State, e: Event, k: Key)
  {
    e.Eval? && CanStep(s, e) && k == KeyOf(s.calls[e.i], s.calls[e.i].phase.tier)
  }

  /** How one script execution changes what each key counts. */
  lemma EvalCounts(s: State, e: Event, k: Key, limit: int)
    requires e.Eval? && CanStep(s, e) && Sound(s.calls[e.i])
    ensures var c := s.calls[e.i];
            var (c', store) := EvalCall(c, s.store, s.clock, e.reply);
            var own := Touches(s, e, k);
            && Count(Step(s, e).calls, CountedAt(k)) ==
               Count(s.calls, CountedAt(k)) + (if own && e.reply != NotRun then 1 else 0)
            && Count(Step(s, e).calls, ClearedAt(k)) ==
               Count(s.calls, ClearedAt(k)) + (if own && Past(c'.phase, k.tier) then 1 else 0)
            && Count(Step(s, e).calls, LostAt(k, limit)) ==
               Count(s.calls, LostAt(k, limit)) + (if own && e.reply == ReplyLost && c'.phase.value <= limit then 1 else 0)
            && Sound(c')
  {
    var c := s.calls[e.i];
    var c' := EvalCall(c, s.store, s.clock, e.reply).0;
    AfterIsSound(c.quotas, c.phase.tier);
    CountUpdate(s.calls, e.i, c', CountedAt(k));
    CountUpdate(s.calls, e.i, c', ClearedAt(k));
    CountUpdate(s.calls, e.i, c', LostAt(k, limit));
  }

  /** Where a timely script leaves its call: past the tier if and only if its reply came and the number of
      increments so far, its own included, is within its quota. */
  lemma EvalOutcome(s: State, e: Event, t: Tier)
    requires Inv(s, t) && e.Eval? && CanStep(s, e) && PromptAt(s, e, t, Margin(t)) && s.calls[e.i].phase.tier == t
    ensures var c := s.calls[e.i];
            var c' := EvalCall(c, s.store, s.clock, e.reply).0;
            var n := Count(s.calls, CountedAt(KeyOf(c, t)));
            && (Past(c'.phase, t) <==> e.reply == Replied && n + 1 <= Limit(c.quotas, t))
            && (e.reply == ReplyLost ==> c'.phase == Failed(t, n + 1))
  {
    TimelyIsLive(s, t, e);
    AfterIsSound(s.calls[e.i].quotas, t);
  }

  lemma EvalKeepsStored(s: State, t: Tier, e: Event, k: Key)
    requires Inv(s, t) && e.Eval? && CanStep(s, e) && PromptAt(s, e, t, Margin(t)) && k.tier == t
    ensures Stored(Step(s, e), k)
  {
    EvalCounts(s, e, k, 0);
    assert Stored(s, k);
    if Touches(s, e, k) {
      TimelyIsLive(s, t, e);
    }
  }

  /** Quotas and clock readings of calls never change, so a call that allows n goes on allowing it. */
  lemma AllowsPersists(s: State, e: Event, k: Key, i: int, n: nat)
    requires CanStep(s, e) && Allows(s.calls, k, i, n)
    ensures Allows(Step(s, e).calls, k, i, n)
  {
  }

  lemma StepKeepsCapped(s: State, t: Tier, e: Event, k: Key)
    requires Inv(s, t) && CanStep(s, e) && PromptAt(s, e, t, Margin(t)) && k.tier == t
    ensures Capped(Step(s, e), k)
  {
    var n := Count(s.calls, ClearedAt(k));
    var n' := Count(Step(s, e).calls, ClearedAt(k));
    assert Capped(s, k);
    if e.Arrive? {
      ArriveCounts(s, e, k, 0);
    } else if e.Eval? {
      EvalCounts(s, e, k, 0);
    }
    if n' == n {
      if i :| Allows(s.calls, k, i, n) {
        AllowsPersists(s, e, k, i, n);
      }
    } else {
      EvalOutcome(s, e, t);
      CountMonotone(s.calls, ClearedAt(k), CountedAt(k));
      assert Allows(s.calls, k, e.i, n');
      AllowsPersists(s, e, k, e.i, n');
    }
  }

  lemma StepKeepsBase(s: State, e: Event)
    requires Base(s) && CanStep(s, e)
    ensures Base(Step(s, e))
  {
    if e.Arrive? {
      FromIsSound(e.quotas, PerSecond);
    } else if e.Eval? {
      AfterIsSound(s.calls[e.i].quotas, s.calls[e.i].phase.tier);
    }
  }

  lemma StepKeepsInv(s: State, t: Tier, e: Event)
    requires Inv(s, t) && CanStep(s, e) && PromptAt(s, e, t, Margin(t))
    ensures Inv(Step(s, e), t)
  {
    StepKeepsBase(s, e);
    forall k: Key | k.tier == t
      ensures Stored(Step(s, e), k) && Capped(Step(s, e), k)
    {
      StepKeepsCapped(s, t, e, k);
      assert Stored(s, k);
      if e.Arrive? {
        ArriveCounts(s, e, k, 0);
      } else if e.Eval? {
        EvalKeepsStored(s, t, e, k);
      }
    }
  }

  lemma StepKeepsFilled(s: State, q: Quotas, t: Tier, e: Event, k: Key)
    requires Inv(s, t) && CanStep(s, e) && PromptAt(s, e, t, Margin(t)) && k.tier == t && Filled(s, q, k)
    requires Touches(s, e, k) ==> s.calls[e.i].quotas == q
    ensures Filled(Step(s, e), q, k)
  {
    if e.Arrive? {
      ArriveCounts(s, e, k, Limit(q, t));
    } else if e.Eval? {
      EvalCounts(s, e, k, Limit(q, t));
      if Touches(s, e, k) {
        EvalOutcome(s, e, t);
      }
    }
  }

  lemma StepKeepsFixed(s: State, tenant: string, q: Quotas, t: Tier, e: Event)
    requires Inv(s, t) && Fixed(s, tenant, q, t) && CanStep(s, e) && PromptAt(s, e, t, Margin(t))
    requires e.Arrive? && e.tenant == tenant ==> e.quotas == q
    ensures Fixed(Step(s, e), tenant, q, t)
  {
    forall k: Key | k.tenant == tenant && k.tier == t
      ensures Filled(Step(s, e), q, k)
    {
      StepKeepsFilled(s, q, t, e, k);
    }
  }

  lemma {:induction false} RunKeepsInv(s: State, es: seq<Event>, t: Tier)
    requires Inv(s, t) && Runs(s, es) && TimelyRun(s, es, t)
    ensures Inv(Exec(s, es), t)
    decreases es
  {
    if es != [] {
      StepKeepsInv(s, t, es[0]);
      RunKeepsInv(Step(s, es[0]), es[1..], t);
    }
  }

  lemma {:induction false} RunKeepsFixed(s: State, es: seq<Event>, tenant: string, q: Quotas, t: Tier)
    requires Inv(s, t) && Fixed(s, tenant, q, t) && Runs(s, es) && TimelyRun(s, es, t) && FixedQuotas(es, tenant, q)
    ensures Fixed(Exec(s, es), tenant, q, t)
    decreases es
  {
    if es != [] {
      StepKeepsInv(s, t, es[0]);
      StepKeepsFixed(s, tenant, q, t, es[0]);
      RunKeepsFixed(Step(s, es[0]), es[1..], tenant, q, t);
    }
  }

  lemma InitHolds(clock: int, tenant: string, q: Quotas, t: Tier)
    ensures Inv(Init(clock), t) && Fixed(Init(clock), tenant, q, t)
  {
  }

  lemma Reachable(clock: int, es: seq<Event>, t: Tier)
    requires Runs(Init(clock), es) && TimelyRun(Init(clock), es, t)
    ensures Inv(Exec(Init(clock), es), t)
  {
    InitHolds(clock, "", Quotas(0, 0, 0), t);
    RunKeepsInv(Init(clock), es, t);
  }

  lemma ReachableFixed(clock: int, es: seq<Event>, tenant: string, q: Quotas, t: Tier)
    requires Runs(Init(clock), es) && TimelyRun(Init(clock), es, t) && FixedQuotas(es, tenant, q)
    ensures Inv(Exec(Init(clock), es), t) && Fixed(Exec(Init(clock), es), tenant, q, t)
  {
    Reachable(clock, es, t);
    InitHolds(clock, tenant, q, t);
    RunKeepsFixed(Init(clock), es, tenant, q, t);
  }

  // ----- Over-admission -----

  /** No window is ever over-admitted, whatever fails and however quotas change: in every state reached by
      timely scripts of a tier, however late the others', the calls whose clock reading falls in a window and
      that got past the tier with a quota for it are no more than the largest such quota. */
  lemma NeverOverAdmitsLargest(clock: int, es: seq<Event>, k: Key)
    requires Runs(Init(clock), es) && TimelyRun(Init(clock), es, k.tier)
    ensures var calls := Exec(Init(clock), es).calls;
            var n := Count(calls, ClearedAt(k));
            n > 0 ==> exists i :: Allows(calls, k, i, n)
  {
    Reachable(clock, es, k.tier);
    assert Capped(Exec(Init(clock), es), k);
  }

  /** With an unchanging quota for the tier, the calls past it are those that cleared it. */
  lemma PastIsCleared(calls: seq<Call>, k: Key, q: Quotas)
    requires Enabled(q, k.tier) && forall i :: 0 <= i < |calls| && calls[i].tenant == k.tenant ==> calls[i].quotas == q
    ensures Count(calls, PastAt(k)) == Count(calls, ClearedAt(k))
  {
    CountSame(calls, PastAt(k), ClearedAt(k));
  }

  /** With quotas that do not change, no more calls of a window are past the tier, let alone admitted, than
      its quota. */
  lemma NeverOverAdmits(clock: int, es: seq<Event>, k: Key, q: Quotas)
    requires Runs(Init(clock), es) && TimelyRun(Init(clock), es, k.tier) && FixedQuotas(es, k.tenant, q)
    requires Enabled(q, k.tier)
    ensures var s := Exec(Init(clock), es);
            Count(s.calls, AdmittedAt(k)) <= Count(s.calls, PastAt(k)) <= Limit(q, k.tier)
  {
    ReachableFixed(clock, es, k.tenant, q, k.tier);
    var s := Exec(Init(clock), es);
    assert Filled(s, q, k);
    PastIsCleared(s.calls, k, q);
    CountMonotone(s.calls, AdmittedAt(k), PastAt(k));
  }

  /** Exactly which lost replies leave a quota unused: of the calls that ran a tier's script, min(number, quota)
      get past it, less one for each call whose reply was lost on one of the window's first `quota`
      increments; so none is left unused if and only if there is no such call. */
  lemma LostRepliesFallShort(clock: int, es: seq<Event>, k: Key, q: Quotas)
    requires Runs(Init(clock), es) && TimelyRun(Init(clock), es, k.tier) && FixedQuotas(es, k.tenant, q)
    requires Enabled(q, k.tier)
    ensures var calls := Exec(Init(clock), es).calls;
            var lost := LostAt(k, Limit(q, k.tier));
            var full := Min(Count(calls, CountedAt(k)), Limit(q, k.tier));
            && Count(calls, PastAt(k)) + Count(calls, lost) == full
            && (Count(calls, PastAt(k)) == full <==> forall i :: 0 <= i < |calls| ==> !lost(calls[i]))
  {
    ReachableFixed(clock, es, k.tenant, q, k.tier);
    var s := Exec(Init(clock), es);
    var lost := LostAt(k, Limit(q, k.tier));
    assert Filled(s, q, k);
    PastIsCleared(s.calls, k, q);
    if i :| 0 <= i < |s.calls| && lost(s.calls[i]) {
      CountPositive(s.calls, lost, i);
    } else {
      CountNone(s.calls, lost);
    }
  }

  /** The stored counter is exactly the number of calls that ran its script, and those all got past every
      earlier tier first: a call that was rejected, or failed, at one tier consumes nothing of a later one. */
  lemma CounterIsExact(clock: int, es: seq<Event>, k: Key)
    requires Runs(Init(clock), es) && TimelyRun(Init(clock), es, k.tier)
    ensures var s := Exec(Init(clock), es);
            var stored := if k in s.store then s.store[k].count else 0;
            && stored == Count(s.calls, CountedAt(k))
            && stored <= Count(s.calls, ReachedAt(k))
  {
    Reachable(clock, es, k.tier);
    var s := Exec(Init(clock), es);
    assert Stored(s, k);
    CountMonotone(s.calls, CountedAt(k), ReachedAt(k));
  }

  lemma RunOne(s: State, e: Event, rest: seq<Event>, s': State)
    requires CanStep(s, e) && s' == Step(s, e) && Runs(s', rest)
    ensures Runs(s, [e] + rest) && Exec(s, [e] + rest) == Exec(s', rest)
  {
    assert ([e] + rest)[1..] == rest;
  }

  // ----- How late is too late -----

  /** A run with fixed quotas that leads from s to end, its scripts of tier t at most slack late. */
  ghost predicate Leads(s: State, es: seq<Event>, end: State, tenant: string, q: Quotas, t: Tier, slack: int)
  {
    Runs(s, es) && Exec(s, es) == end && FixedQuotas(es, tenant, q) && PromptRun(s, es, t, slack)
  }

  lemma Prepend(s: State, e: Event, rest: seq<Event>, end: State, tenant: string, q: Quotas, t: Tier, slack: int)
    returns (es: seq<Event>)
    requires CanStep(s, e) && PromptAt(s, e, t, slack) && (e.Arrive? ==> e.quotas == q)
    requires Leads(Step(s, e), rest, end, tenant, q, t, slack)
    ensures Leads(s, es, end, tenant, q, t, slack)
  {
    es := [e] + rest;
    RunOne(s, e, rest, Step(s, e));
    assert es[1..] == rest;
  }

  /** n calls made and admitted at time 0, with only tier t switched on. */
  function Full(tenant: string, q: Quotas, t: Tier, n: nat): State
  {
    State(0, if n == 0 then map[] else map[Key(t, tenant, 0) := Counter(n, Ttl(t))],
          seq(n, _ => Call(tenant, q, 0, Admitted)))
  }

  /** One more call, made at the end of the window, whose script ran when the counter had just expired. */
  function Overfull(tenant: string, q: Quotas, t: Tier, n: nat): State
  {
    State(Ttl(t), map[Key(t, tenant, 0) := Counter(1, 2 * Ttl(t))],
          Full(tenant, q, t, n).calls + [Call(tenant, q, Window(t) - 1, Admitted)])
  }

  predicate OnlyTier(q: Quotas, t: Tier)
  {
    Enabled(q, t) && forall u :: u != t ==> !Enabled(q, u)
  }

  lemma OnlyTierPhases(q: Quotas, t: Tier)
    requires OnlyTier(q, t)
    ensures From(q, PerSecond) == Pending(t) && After(q, t) == Admitted
  {
    FromIsSound(q, PerSecond);
    AfterIsSound(q, t);
  }

  lemma FirstWindow(t: Tier)
    ensures WindowOf(t, 0) == WindowOf(t, Window(t) - 1) == 0
  {
    match t
    case PerSecond =>
    case PerMinute =>
    case PerDay =>
  }

  /** The last call of the over-admitting run. */
  lemma LateCall(tenant: string, q: Quotas, t: Tier, n: nat) returns (es: seq<Event>)
    requires OnlyTier(q, t) && n > 0
    ensures Leads(Full(tenant, q, t, n), es, Overfull(tenant, q, t, n), tenant, q, t, Margin(t) + 1)
  {
    var full, end := Full(tenant, q, t, n), Overfull(tenant, q, t, n);
    var slack := Margin(t) + 1;
    OnlyTierPhases(q, t);
    FirstWindow(t);
    var atEnd := full.(clock := Window(t) - 1);
    var waiting := atEnd.(calls := full.calls + [Call(tenant, q, Window(t) - 1, Pending(t))]);
    var late := waiting.(clock := Ttl(t));
    assert Step(late, Eval(n, Replied)) == end;
    es := Prepend(late, Eval(n, Replied), [], end, tenant, q, t, slack);
    es := Prepend(waiting, Advance(Ttl(t) - Window(t) + 1), es, end, tenant, q, t, slack);
    assert Step(atEnd, Arrive(tenant, q)) == waiting;
    es := Prepend(atEnd, Arrive(tenant, q), es, end, tenant, q, t, slack);
    es := Prepend(full, Advance(Window(t) - 1), es, end, tenant, q, t, slack);
  }

  lemma AdmitOne(tenant: string, q: Quotas, t: Tier, n: nat)
    requires OnlyTier(q, t) && n < Limit(q, t)
    ensures var waiting := Step(Full(tenant, q, t, n), Arrive(tenant, q));
            && CanStep(waiting, Eval(n, Replied)) && PromptAt(waiting, Eval(n, Replied), t, 0)
            && Step(waiting, Eval(n, Replied)) == Full(tenant, q, t, n + 1)
  {
    var full := Full(tenant, q, t, n);
    var waiting := Step(full, Arrive(tenant, q));
    OnlyTierPhases(q, t);
    FirstWindow(t);
    assert waiting.calls == full.calls + [Call(tenant, q, 0, Pending(t))];
    assert waiting.calls[n := Call(tenant, q, 0, Admitted)] == Full(tenant, q, t, n + 1).calls;
  }

  lemma {:induction false} Overfill(tenant: string, q: Quotas, t: Tier, n: nat) returns (es: seq<Event>)
    requires OnlyTier(q, t) && n <= Limit(q, t)
    ensures Leads(Full(tenant, q, t, n), es, Overfull(tenant, q, t, Limit(q, t)), tenant, q, t, Margin(t) + 1)
    decreases Limit(q, t) - n
  {
    if n == Limit(q, t) {
      es := LateCall(tenant, q, t, n);
    } else {
      var end, slack := Overfull(tenant, q, t, Limit(q, t)), Margin(t) + 1;
      var full := Full(tenant, q, t, n);
      AdmitOne(tenant, q, t, n);
      es := Overfill(tenant, q, t, n + 1);
      es := Prepend(Step(full, Arrive(tenant, q)), Eval(n, Replied), es, end, tenant, q, t, slack);
      es := Prepend(full, Arrive(tenant, q), es, end, tenant, q, t, slack);
    }
  }

  lemma {:induction false} CountAll(calls: seq<Call>, p: Call -> bool)
    requires forall i :: 0 <= i < |calls| ==> p(calls[i])
    ensures Count(calls, p) == |calls|
  {
    if calls != [] {
      CountAll(calls[..|calls| - 1], p);
    }
  }

  /** One nanosecond beyond the margin is too late: for every tier, and every quota it may have alone, a run
      whose scripts are at most that late admits one call too many. */
  lemma LateScriptOverAdmits(tenant: string, q: Quotas, t: Tier) returns (es: seq<Event>)
    requires OnlyTier(q, t)
    ensures OverAdmits(0, es, Key(t, tenant, 0), q, Margin(t) + 1)
    ensures Count(Exec(Init(0), es).calls, AdmittedAt(Key(t, tenant, 0))) == Limit(q, t) + 1
  {
    assert Full(tenant, q, t, 0) == Init(0);
    es := Overfill(tenant, q, t, 0);
    FirstWindow(t);
    CountAll(Exec(Init(0), es).calls, AdmittedAt(Key(t, tenant, 0)));
  }

  /** A run with fixed quotas, tier scripts at most slack late, that admits more calls of a window than the
      tier's quota. */
  ghost predicate OverAdmits(clock: int, es: seq<Event>, k: Key, q: Quotas, slack: int)
  {
    && Runs(Init(clock), es) && PromptRun(Init(clock), es, k.tier, slack) && FixedQuotas(es, k.tenant, q)
    && Enabled(q, k.tier) && Count(Exec(Init(clock), es).calls, AdmittedAt(k)) > Limit(q, k.tier)
  }

  lemma {:induction false} PromptWeakens(s: State, es: seq<Event>, t: Tier, slack: int, more: int)
    requires Runs(s, es) && PromptRun(s, es, t, slack) && slack <= more
    ensures PromptRun(s, es, t, more)
    decreases es
  {
    if es != [] {
      PromptWeakens(Step(s, es[0]), es[1..], t, slack, more);
    }
  }

  /** Exactly how late is too late: some run whose scripts of a tier are at most slack late over-admits a
      window of the tier if and only if slack exceeds the tier's time to live less its window. */
  lemma OverAdmissionIff(tenant: string, t: Tier, slack: int)
    ensures (exists clock, es, w, q :: OverAdmits(clock, es, Key(t, tenant, w), q, slack)) <==> slack > Margin(t)
  {
    if slack > Margin(t) {
      var q := match t case PerSecond => Quotas(1, 0, 0) case PerMinute => Quotas(0, 1, 0) case PerDay => Quotas(0, 0, 1);
      var es := LateScriptOverAdmits(tenant, q, t);
      PromptWeakens(Init(0), es, t, Margin(t) + 1, slack);
      assert OverAdmits(0, es, Key(t, tenant, 0), q, slack);
    } else if clock, es, w, q :| OverAdmits(clock, es, Key(t, tenant, w), q, slack) {
      PromptWeakens(Init(clock), es, t, slack, Margin(t));
      NeverOverAdmits(clock, es, Key(t, tenant, w), q);
      assert false;
    }
  }

  // ----- The closed form -----

  /** A quota that is not positive caps nothing. */
  function Cap(limit: int, n: nat): (m: nat)
    ensures limit > 0 ==> m == Min(n, limit)
    ensures limit <= 0 ==> m == n
  {
    if limit > 0 && n > limit then limit else n
  }

  /** The calls of the tenant that arrived in each second. */
  function ArrivalsPerSecond(calls: seq<Call>, tenant: string): int -> nat
  {
    s => Count(calls, c => InWindow(c, Key(PerSecond, tenant, s)))
  }

  function SecondAdmits(arrivals: int -> nat, q: Quotas): int -> nat
  {
    s => Cap(q.rps, arrivals(s))
  }

  function MinuteAdmits(arrivals: int -> nat, q: Quotas): int -> nat
  {
    m => Cap(q.rpm, SumRange(60 * m, 60 * m + 60, SecondAdmits(arrivals, q)))
  }

  function DayAdmits(arrivals: int -> nat, q: Quotas): int -> nat
  {
    d => Cap(q.daily, SumRange(1440 * d, 1440 * d + 1440, MinuteAdmits(arrivals, q)))
  }

  /** Every call of the tenant has run to a verdict, no script having failed. */
  predicate Settled(calls: seq<Call>, tenant: string)
  {
    forall i :: 0 <= i < |calls| && calls[i].tenant == tenant ==> calls[i].phase.Admitted? || calls[i].phase.Rejected?
  }

  /** One tier on settled calls: of the calls that reach a window, min(quota, number) get past it. */
  lemma TierCaps(s: State, tenant: string, q: Quotas, t: Tier, w: int)
    requires Inv(s, t) && Fixed(s, tenant, q, t) && Settled(s.calls, tenant)
    ensures var k := Key(t, tenant, w);
            Count(s.calls, PastAt(k)) == Cap(Limit(q, t), Count(s.calls, ReachedAt(k)))
  {
    var k := Key(t, tenant, w);
    assert Filled(s, q, k);
    if Enabled(q, t) {
      PastIsCleared(s.calls, k, q);
      CountSame(s.calls, CountedAt(k), ReachedAt(k));
      CountNone(s.calls, LostAt(k, Limit(q, t)));
    } else {
      forall i | 0 <= i < |s.calls|
        ensures PastAt(k)(s.calls[i]) == ReachedAt(k)(s.calls[i])
      {
        if InWindow(s.calls[i], k) {
          SkipsDisabled(s.calls[i], t);
        }
      }
      CountSame(s.calls, PastAt(k), ReachedAt(k));
    }
  }

  lemma SkipsDisabled(c: Call, t: Tier)
    requires Sound(c) && !Enabled(c.quotas, t) && (c.phase.Admitted? || c.phase.Rejected?)
    ensures Past(c.phase, t) <==> Reaches(c.phase, t)
  {
    match t
    case PerSecond =>
    case PerMinute =>
    case PerDay =>
  }

  function MinuteIndex(): Call -> int
  {
    (c: Call) => WindowOf(PerMinute, c.now)
  }

  function SecondIndex(): Call -> int
  {
    (c: Call) => WindowOf(PerSecond, c.now)
  }

  /** How many of the tenant's calls are past tier t, window by window. */
  function PastCounts(calls: seq<Call>, t: Tier, tenant: string): int -> nat
  {
    w => Count(calls, PastAt(Key(t, tenant, w)))
  }

  /** The calls that reach a minute are those past the seconds in it. */
  lemma MinuteSplits(calls: seq<Call>, tenant: string, m: int)
    ensures Count(calls, ReachedAt(Key(PerMinute, tenant, m))) ==
            SumRange(60 * m, 60 * m + 60, PastCounts(calls, PerSecond, tenant))
  {
    var p := ReachedAt(Key(PerMinute, tenant, m));
    var f := PastCounts(calls, PerSecond, tenant);
    forall c: Call
      ensures WindowOf(PerMinute, c.now) == WindowOf(PerSecond, c.now) / 60
    {
      WindowsNest(c.now);
    }
    CountByClass(calls, p, SecondIndex(), 60 * m, 60 * m + 60);
    forall s | 60 * m <= s < 60 * m + 60
      ensures ClassSizes(calls, p, SecondIndex())(s) == f(s)
    {
      CountSame(calls, InClass(p, SecondIndex(), s), PastAt(Key(PerSecond, tenant, s)));
    }
    SumRangeSame(60 * m, 60 * m + 60, ClassSizes(calls, p, SecondIndex()), f);
  }

  /** The calls that reach a day are those past the minutes in it. */
  lemma DaySplits(calls: seq<Call>, tenant: string, d: int)
    ensures Count(calls, ReachedAt(Key(PerDay, tenant, d))) ==
            SumRange(1440 * d, 1440 * d + 1440, PastCounts(calls, PerMinute, tenant))
  {
    var p := ReachedAt(Key(PerDay, tenant, d));
    var f := PastCounts(calls, PerMinute, tenant);
    forall c: Call
      ensures WindowOf(PerDay, c.now) == WindowOf(PerMinute, c.now) / 1440
    {
      WindowsNest(c.now);
    }
    CountByClass(calls, p, MinuteIndex(), 1440 * d, 1440 * d + 1440);
    forall m | 1440 * d <= m < 1440 * d + 1440
      ensures ClassSizes(calls, p, MinuteIndex())(m) == f(m)
    {
      CountSame(calls, InClass(p, MinuteIndex(), m), PastAt(Key(PerMinute, tenant, m)));
    }
    SumRangeSame(1440 * d, 1440 * d + 1440, ClassSizes(calls, p, MinuteIndex()), f);
  }

  lemma SecondForm(s: State, tenant: string, q: Quotas, sec: int)
    requires InvAll(s, tenant, q) && Settled(s.calls, tenant)
    ensures Count(s.calls, PastAt(Key(PerSecond, tenant, sec))) ==
            SecondAdmits(ArrivalsPerSecond(s.calls, tenant), q)(sec)
  {
    var k := Key(PerSecond, tenant, sec);
    TierCaps(s, tenant, q, PerSecond, sec);
    CountSame(s.calls, ReachedAt(k), c => InWindow(c, Key(PerSecond, tenant, sec)));
  }

  lemma MinuteForm(s: State, tenant: string, q: Quotas, m: int)
    requires InvAll(s, tenant, q) && Settled(s.calls, tenant)
    ensures Count(s.calls, PastAt(Key(PerMinute, tenant, m))) ==
            MinuteAdmits(ArrivalsPerSecond(s.calls, tenant), q)(m)
  {
    var f := PastCounts(s.calls, PerSecond, tenant);
    var g := SecondAdmits(ArrivalsPerSecond(s.calls, tenant), q);
    forall sec: int
      ensures f(sec) == g(sec)
    {
      SecondForm(s, tenant, q, sec);
    }
    TierCaps(s, tenant, q, PerMinute, m);
    MinuteSplits(s.calls, tenant, m);
    SumRangeSame(60 * m, 60 * m + 60, f, g);
  }

  lemma MinutesForm(s: State, tenant: string, q: Quotas)
    requires InvAll(s, tenant, q) && Settled(s.calls, tenant)
    ensures forall m: int :: PastCounts(s.calls, PerMinute, tenant)(m) == MinuteAdmits(ArrivalsPerSecond(s.calls, tenant), q)(m)
  {
    forall m: int
      ensures PastCounts(s.calls, PerMinute, tenant)(m) == MinuteAdmits(ArrivalsPerSecond(s.calls, tenant), q)(m)
    {
      MinuteForm(s, tenant, q, m);
    }
  }

  lemma DayForm(s: State, tenant: string, q: Quotas, d: int)
    requires InvAll(s, tenant, q) && Settled(s.calls, tenant)
    ensures Count(s.calls, PastAt(Key(PerDay, tenant, d))) ==
            DayAdmits(ArrivalsPerSecond(s.calls, tenant), q)(d)
  {
    var f := PastCounts(s.calls, PerMinute, tenant);
    var g := MinuteAdmits(ArrivalsPerSecond(s.calls, tenant), q);
    MinutesForm(s, tenant, q);
    TierCaps(s, tenant, q, PerDay, d);
    DaySplits(s.calls, tenant, d);
    SumRangeSame(1440 * d, 1440 * d + 1440, f, g);
  }

  /** The closed form of the cascade. However the calls interleaved, a day admits
      min(QD, sum over its minutes of min(QM, sum over the minute's seconds of min(QS, arrivals)));
      a quota that is not positive drops its min. */
  lemma ClosedForm(clock: int, es: seq<Event>, tenant: string, q: Quotas, d: int)
    requires Runs(Init(clock), es) && (forall t :: TimelyRun(Init(clock), es, t)) && FixedQuotas(es, tenant, q)
    requires Settled(Exec(Init(clock), es).calls, tenant)
    ensures var calls := Exec(Init(clock), es).calls;
            Count(calls, AdmittedAt(Key(PerDay, tenant, d))) == DayAdmits(ArrivalsPerSecond(calls, tenant), q)(d)
  {
    forall t {
      ReachableFixed(clock, es, tenant, q, t);
    }
    var s, k := Exec(Init(clock), es), Key(PerDay, tenant, d);
    DayForm(s, tenant, q, d);
    CountSame(s.calls, AdmittedAt(k), PastAt(k));
  }

  /** With one tier switched on, exactly min(arrivals, quota) of a window's calls pass. */
  lemma SingleTierPassesQuota(clock: int, es: seq<Event>, k: Key, q: Quotas)
    requires Runs(Init(clock), es) && TimelyRun(Init(clock), es, k.tier) && FixedQuotas(es, k.tenant, q)
    requires Settled(Exec(Init(clock), es).calls, k.tenant)
    requires OnlyTier(q, k.tier)
    ensures var calls := Exec(Init(clock), es).calls;
            Count(calls, AdmittedAt(k)) == Min(Count(calls, c => InWindow(c, k)), Limit(q, k.tier))
  {
    ReachableFixed(clock, es, k.tenant, q, k.tier);
    var s := Exec(Init(clock), es);
    TierCaps(s, k.tenant, q, k.tier, k.window);
    assert k == Key(k.tier, k.tenant, k.window);
    CountSame(s.calls, ReachedAt(k), c => InWindow(c, k));
    CountSame(s.calls, AdmittedAt(k), PastAt(k));
  }

  // ----- Sliding windows -----

  /** The tenant's admitted calls whose clock reading lies in [from, from + length). */
  function AdmittedWithin(tenant: string, from: int, length: nat): Call -> bool
  {
    (c: Call) => c.tenant == tenant && c.phase.Admitted? && from <= c.now < from + length
  }

  function CeilDiv(a: nat, b: int): (r: nat)
    requires b > 0
    ensures r * b >= a && (r - 1) * b < a
  {
    var r := (a + b - 1) / b;
    assert r * b <= a + b - 1 < (r + 1) * b by {
      assert r * b + (a + b - 1) % b == a + b - 1;
    }
    r
  }

  /** An interval of a given length meets at most ceil(length / window) + 1 windows. */
  lemma WindowsMet(t: Tier, from: int, length: nat)
    requires length > 0
    ensures 0 <= WindowOf(t, from + length - 1) - WindowOf(t, from) <= CeilDiv(length, Window(t))
  {
    var lo, hi := WindowOf(t, from), WindowOf(t, from + length - 1);
    WindowBounds(t, from);
    WindowBounds(t, from + length - 1);
    var n := CeilDiv(length, Window(t));
    match t
    case PerSecond =>
    case PerMinute =>
    case PerDay =>
  }

  function WindowIndex(t: Tier): Call -> int
  {
    (c: Call) => WindowOf(t, c.now)
  }

  /** From fixed-window counters, a sliding bound: any half-open interval sees at most
      (ceil(length / window) + 1) * quota admissions, for every enabled tier and in every run. */
  lemma SlidingWindowBound(clock: int, es: seq<Event>, tenant: string, q: Quotas, t: Tier, from: int, length: nat)
    requires Runs(Init(clock), es) && TimelyRun(Init(clock), es, t) && FixedQuotas(es, tenant, q)
    requires Enabled(q, t)
    ensures Count(Exec(Init(clock), es).calls, AdmittedWithin(tenant, from, length)) <=
            (CeilDiv(length, Window(t)) + 1) * Limit(q, t)
  {
    var calls := Exec(Init(clock), es).calls;
    var p := AdmittedWithin(tenant, from, length);
    if length == 0 {
      CountNone(calls, p);
    } else {
      var lo, hi := WindowOf(t, from), WindowOf(t, from + length - 1) + 1;
      WindowsMet(t, from, length);
      forall c: Call | p(c)
        ensures lo <= WindowOf(t, c.now) < hi
      {
        WindowOrder(t, from, c.now);
        WindowOrder(t, c.now, from + length - 1);
      }
      CountByClass(calls, p, WindowIndex(t), lo, hi);
      forall w | lo <= w < hi
        ensures ClassSizes(calls, p, WindowIndex(t))(w) <= Limit(q, t)
      {
        var k := Key(t, tenant, w);
        NeverOverAdmits(clock, es, k, q);
        CountMonotone(calls, InClass(p, WindowIndex(t), w), AdmittedAt(k));
      }
      SumRangeBound(lo, hi, ClassSizes(calls, p, WindowIndex(t)), Limit(q, t));
      MulMonotone(hi - lo, CeilDiv(length, Window(t)) + 1, Limit(q, t));
    }
  }

  lemma WindowOrder(t: Tier, a: int, b: int)
    requires a <= b
    ensures WindowOf(t, a) <= WindowOf(t, b)
  {
  }

  lemma MulMonotone(a: int, b: int, c: int)
    requires a <= b && c >= 0
    ensures a * c <= b * c
  {
  }

  /** In particular no sixty seconds see more than twice the per-minute quota. */
  lemma AnyMinuteAtMostTwice(clock: int, es: seq<Event>, tenant: string, q: Quotas, from: int)
    requires Runs(Init(clock), es) && TimelyRun(Init(clock), es, PerMinute) && FixedQuotas(es, tenant, q)
    requires q.rpm > 0
    ensures Count(Exec(Init(clock), es).calls, AdmittedWithin(tenant, from, 60_000_000_000)) <= 2 * q.rpm
  {
    SlidingWindowBound(clock, es, tenant, q, PerMinute, from, Window(PerMinute));
    assert CeilDiv(Window(PerMinute), Window(PerMinute)) == 1;
  }

  // ----- The sequential method is one of these runs -----

  lemma {:induction false} RunsJoin(s: State, es: seq<Event>, fs: seq<Event>)
    requires Runs(s, es) && Runs(Exec(s, es), fs)
    ensures Runs(s, es + fs) && Exec(s, es + fs) == Exec(Exec(s, es), fs)
    decreases es
  {
    if es == [] {
      assert es + fs == fs;
    } else {
      assert (es + fs)[1..] == es[1..] + fs;
      RunsJoin(Step(s, es[0]), es[1..], fs);
    }
  }

  /** A call's turn is two events: the wait for its script, and the script. */
  lemma TurnIsARun(s: State, i: nat, t: Tier, at: Tier -> int, reply: Tier -> Reply) returns (es: seq<Event>)
    requires i < |s.calls| && s.clock <= at(t)
    ensures Runs(s, es)
    ensures var (c, store) := TakeTurn(s.calls[i], s.store, t, at, reply);
            Exec(s, es) == State(Exec(s, es).clock, store, s.calls[i := c]) && s.clock <= Exec(s, es).clock <= at(t)
  {
    if s.calls[i].phase == Pending(t) {
      var later := s.(clock := at(t));
      RunOne(later, Eval(i, reply(t)), [], Step(later, Eval(i, reply(t))));
      RunOne(s, Advance(at(t) - s.clock), [Eval(i, reply(t))], later);
      es := [Advance(at(t) - s.clock), Eval(i, reply(t))];
    } else {
      es := [];
      assert s.calls[i := s.calls[i]] == s.calls;
    }
  }

  /** CheckRateLimits run by itself, which is what the method proves of its body, is a run of the
      interleaved system; so everything above holds of the method's verdicts too. */
  lemma SequentialCallIsARun(s: State, tenant: string, q: Quotas, at: Tier -> int, reply: Tier -> Reply)
    returns (es: seq<Event>)
    requires s.clock <= at(PerSecond) <= at(PerMinute) <= at(PerDay)
    ensures Runs(s, es)
    ensures var (c, store) := RunAlone(Arrived(tenant, q, s.clock), s.store, at, reply);
            Exec(s, es).store == store && Exec(s, es).calls == s.calls + [c]
  {
    var arrival := [Arrive(tenant, q)];
    var n := |s.calls|;
    var s0 := Step(s, arrival[0]);
    RunOne(s, arrival[0], [], s0);
    var es1 := TurnIsARun(s0, n, PerSecond, at, reply);
    var s1 := Exec(s0, es1);
    RunsJoin(s, arrival, es1);
    var es2 := TurnIsARun(s1, n, PerMinute, at, reply);
    var s2 := Exec(s1, es2);
    RunsJoin(s, arrival + es1, es2);
    var es3 := TurnIsARun(s2, n, PerDay, at, reply);
    RunsJoin(s, arrival + es1 + es2, es3);
    es := arrival + es1 + es2 + es3;
  }
}
