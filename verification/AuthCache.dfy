/** The tenant cache of backend/gateway/middleware/auth.go in front of the key store: how stale an
    authentication can be. Times are integers on one clock. */
module AuthCache {
  import opened Options
  import opened KeyStore

  datatype Item = Item(tenant: Tenant, expiresAt: int)

  type Items = map<string, Item>

  /** An item still serves at the very instant it expires. */
  function CacheGet(items: Items, key: string, now: int): Option<Tenant>
  {
    if key !in items || now > items[key].expiresAt then None else Some(items[key].tenant)
  }

  // ----- The gateway and the store as a step system -----

  /** A request whose key matched a row, between the lookup's two queries. */
  datatype Matched = Matched(key: string, tenantID: string, at: int)

  /** A request whose tenant was read, between that and its Set. */
  datatype Pending = Pending(key: string, tenant: Tenant, matchedAt: int, readAt: int)

  /** A request passed on as authenticated. */
  datatype Grant = Grant(time: int, key: string, tenant: Tenant)

  datatype State = State(clock: int, db: DB, items: Items, matched: seq<Matched>, pending: seq<Pending>, grants: seq<Grant>)

  datatype Event =
    | Advance(delta: nat)
    | Database(op: Op)          // create, rotate, update or delete
    | Hit(key: string)          // the cache answers a request
    | Miss(key: string)         // the store is asked whose key it is
    | Read(i: nat)              // and for that tenant's row
    | Admit(i: nat)             // Set, and the request goes on

  /** The cache's time to live, and the longest a request takes from its key query to its Set. */
  datatype Timing = Timing(ttl: nat, delay: nat)

  const START: State := State(0, EMPTY, map[], [], [], [])

  /** A request that reaches its Set in time. */
  predicate Admits(tm: Timing, s: State, e: Event)
  {
    e.Admit? && e.i < |s.pending| && s.clock <= s.pending[e.i].matchedAt + tm.delay
  }

  /** One event; one that cannot happen in the state changes nothing. A key that does not resolve is
      answered 401 and leaves no trace. */
  ghost function Step(tm: Timing, s: State, e: Event): State
  {
    match e
    case Advance(d) => s.(clock := s.clock + d)
    case Database(op) => if Fresh(s.db, op) then s.(db := Apply(s.db, op)) else s
    case Hit(key) =>
      var found := CacheGet(s.items, key, s.clock);
      if found.Some? then s.(grants := s.grants + [Grant(s.clock, key, found.value)]) else s
    case Miss(key) =>
      var found := Owner(s.db, key);
      if found.Some? then s.(matched := s.matched + [Matched(key, found.value, s.clock)]) else s
    case Read(i) =>
      if i < |s.matched| then
        var m := s.matched[i];
        var found := TenantById(s.db, m.tenantID);
        s.(matched := s.matched[..i] + s.matched[i + 1..],
           pending := s.pending + if found.Some? then [Pending(m.key, found.value, m.at, s.clock)] else [])
      else s
    case Admit(i) =>
      if Admits(tm, s, e) then
        var p := s.pending[i];
        s.(items := s.items[p.key := Item(p.tenant, s.clock + tm.ttl)],
           pending := s.pending[..i] + s.pending[i + 1..], grants := s.grants + [Grant(s.clock, p.key, p.tenant)])
      else s
  }

  ghost function Exec(tm: Timing, es: seq<Event>): State
  {
    if es == [] then START else Step(tm, Exec(tm, es[..|es| - 1]), es[|es| - 1])
  }

  // ----- Bounded staleness -----

  /** At some moment of the run, when the clock read u, the key was the tenant's. */
  ghost predicate OwnedAt(tm: Timing, es: seq<Event>, n: nat, u: int, key: string, tenantID: string)
  {
    n <= |es| && Exec(tm, es[..n]).clock == u && Owner(Exec(tm, es[..n]).db, key) == Some(tenantID)
  }

  /** When the clock read u the key was this tenant's, and at that or a later moment, when it read w, this was
      the tenant's row. */
  ghost predicate Vouched(tm: Timing, es: seq<Event>, u: int, w: int, key: string, tenant: Tenant)
  {
    exists n: nat, m: nat :: n <= m <= |es| && OwnedAt(tm, es, n, u, key, tenant.id)
                             && Exec(tm, es[..m]).clock == w && TenantById(Exec(tm, es[..m]).db, tenant.id) == Some(tenant)
  }

  ghost predicate MatchedBacked(tm: Timing, es: seq<Event>, x: Matched)
  {
    x.at <= Exec(tm, es).clock && exists n: nat :: OwnedAt(tm, es, n, x.at, x.key, x.tenantID)
  }

  ghost predicate PendingBacked(tm: Timing, es: seq<Event>, p: Pending)
  {
    p.matchedAt <= p.readAt <= Exec(tm, es).clock && Vouched(tm, es, p.matchedAt, p.readAt, p.key, p.tenant)
  }

  ghost predicate ItemBacked(tm: Timing, es: seq<Event>, key: string, item: Item)
  {
    exists u, w :: u <= w <= Exec(tm, es).clock && item.expiresAt <= u + tm.ttl + tm.delay
                   && Vouched(tm, es, u, w, key, item.tenant)
  }

  ghost predicate GrantBacked(tm: Timing, es: seq<Event>, g: Grant)
  {
    exists u, w :: g.time - tm.ttl - tm.delay <= u <= w <= g.time && Vouched(tm, es, u, w, g.key, g.tenant)
  }

  ghost predicate AllMatchedBacked(tm: Timing, es: seq<Event>, matched: seq<Matched>)
  {
    forall i :: 0 <= i < |matched| ==> MatchedBacked(tm, es, matched[i])
  }

  ghost predicate AllPendingBacked(tm: Timing, es: seq<Event>, pending: seq<Pending>)
  {
    forall i :: 0 <= i < |pending| ==> PendingBacked(tm, es, pending[i])
  }

  ghost predicate AllItemsBacked(tm: Timing, es: seq<Event>, items: Items)
  {
    forall key :: key in items ==> ItemBacked(tm, es, key, items[key])
  }

  ghost predicate AllGrantsBacked(tm: Timing, es: seq<Event>, grants: seq<Grant>)
  {
    forall i :: 0 <= i < |grants| ==> GrantBacked(tm, es, grants[i])
  }

  ghost predicate Backed(tm: Timing, es: seq<Event>)
  {
    && AllMatchedBacked(tm, es, Exec(tm, es).matched)
    && AllPendingBacked(tm, es, Exec(tm, es).pending)
    && AllItemsBacked(tm, es, Exec(tm, es).items)
    && AllGrantsBacked(tm, es, Exec(tm, es).grants)
  }

  /** A longer run only adds moments. */
  lemma OwnedAtGrows(tm: Timing, es: seq<Event>, e: Event, n: nat, u: int, key: string, tenantID: string)
    requires OwnedAt(tm, es, n, u, key, tenantID)
    ensures OwnedAt(tm, es + [e], n, u, key, tenantID)
  {
    assert (es + [e])[..n] == es[..n];
  }

  lemma VouchedGrows(tm: Timing, es: seq<Event>, e: Event, u: int, w: int, key: string, tenant: Tenant)
    requires Vouched(tm, es, u, w, key, tenant)
    ensures Vouched(tm, es + [e], u, w, key, tenant)
  {
    var n: nat, m: nat :| n <= m <= |es| && OwnedAt(tm, es, n, u, key, tenant.id)
                          && Exec(tm, es[..m]).clock == w && TenantById(Exec(tm, es[..m]).db, tenant.id) == Some(tenant);
    OwnedAtGrows(tm, es, e, n, u, key, tenant.id);
    assert (es + [e])[..m] == es[..m];
  }

  lemma ExecLast(tm: Timing, es: seq<Event>, e: Event)
    ensures Exec(tm, es + [e]) == Step(tm, Exec(tm, es), e)
    ensures Exec(tm, es + [e]).clock >= Exec(tm, es).clock
  {
    assert (es + [e])[..|es|] == es;
  }

  lemma MatchedGrows(tm: Timing, es: seq<Event>, e: Event, x: Matched)
    requires MatchedBacked(tm, es, x)
    ensures MatchedBacked(tm, es + [e], x)
  {
    ExecLast(tm, es, e);
    var n: nat :| OwnedAt(tm, es, n, x.at, x.key, x.tenantID);
    OwnedAtGrows(tm, es, e, n, x.at, x.key, x.tenantID);
  }

  lemma PendingGrows(tm: Timing, es: seq<Event>, e: Event, p: Pending)
    requires PendingBacked(tm, es, p)
    ensures PendingBacked(tm, es + [e], p)
  {
    ExecLast(tm, es, e);
    VouchedGrows(tm, es, e, p.matchedAt, p.readAt, p.key, p.tenant);
  }

  lemma ItemGrows(tm: Timing, es: seq<Event>, e: Event, key: string, item: Item)
    requires ItemBacked(tm, es, key, item)
    ensures ItemBacked(tm, es + [e], key, item)
  {
    ExecLast(tm, es, e);
    var u, w :| u <= w <= Exec(tm, es).clock && item.expiresAt <= u + tm.ttl + tm.delay
                && Vouched(tm, es, u, w, key, item.tenant);
    VouchedGrows(tm, es, e, u, w, key, item.tenant);
  }

  lemma GrantGrows(tm: Timing, es: seq<Event>, e: Event, g: Grant)
    requires GrantBacked(tm, es, g)
    ensures GrantBacked(tm, es + [e], g)
  {
    var u, w :| g.time - tm.ttl - tm.delay <= u <= w <= g.time && Vouched(tm, es, u, w, g.key, g.tenant);
    VouchedGrows(tm, es, e, u, w, g.key, g.tenant);
  }

  lemma OldEntriesStayBacked(tm: Timing, es: seq<Event>, e: Event)
    requires Backed(tm, es)
    ensures AllMatchedBacked(tm, es + [e], Exec(tm, es).matched)
    ensures AllPendingBacked(tm, es + [e], Exec(tm, es).pending)
    ensures AllItemsBacked(tm, es + [e], Exec(tm, es).items)
    ensures AllGrantsBacked(tm, es + [e], Exec(tm, es).grants)
  {
    var s := Exec(tm, es);
    forall i | 0 <= i < |s.matched| { MatchedGrows(tm, es, e, s.matched[i]); }
    forall i | 0 <= i < |s.pending| { PendingGrows(tm, es, e, s.pending[i]); }
    forall key | key in s.items { ItemGrows(tm, es, e, key, s.items[key]); }
    forall i | 0 <= i < |s.grants| { GrantGrows(tm, es, e, s.grants[i]); }
  }

  /** A cache hit is backed by what backs the item. */
  lemma HitIsBacked(tm: Timing, es: seq<Event>, e: Event)
    requires Backed(tm, es) && Serves(Exec(tm, es), e)
    ensures GrantBacked(tm, es + [e], Grant(Exec(tm, es).clock, e.key, Exec(tm, es).items[e.key].tenant))
  {
    var s := Exec(tm, es);
    var item := s.items[e.key];
    assert ItemBacked(tm, es, e.key, item);
    var u, w :| u <= w <= s.clock && item.expiresAt <= u + tm.ttl + tm.delay && Vouched(tm, es, u, w, e.key, item.tenant);
    VouchedGrows(tm, es, e, u, w, e.key, item.tenant);
  }

  /** An admitted request, and the item it leaves, are backed by its own lookup. */
  lemma AdmitIsBacked(tm: Timing, es: seq<Event>, e: Event)
    requires Backed(tm, es) && Admits(tm, Exec(tm, es), e)
    ensures var s := Exec(tm, es);
            var p := s.pending[e.i];
            && GrantBacked(tm, es + [e], Grant(s.clock, p.key, p.tenant))
            && ItemBacked(tm, es + [e], p.key, Item(p.tenant, s.clock + tm.ttl))
  {
    var p := Exec(tm, es).pending[e.i];
    assert PendingBacked(tm, es, p);
    ExecLast(tm, es, e);
    VouchedGrows(tm, es, e, p.matchedAt, p.readAt, p.key, p.tenant);
  }

  lemma MissIsBacked(tm: Timing, es: seq<Event>, e: Event)
    requires e.Miss? && Owner(Exec(tm, es).db, e.key).Some?
    ensures MatchedBacked(tm, es + [e], Matched(e.key, Owner(Exec(tm, es).db, e.key).value, Exec(tm, es).clock))
  {
    ExecLast(tm, es, e);
    assert (es + [e])[..|es|] == es;
    assert OwnedAt(tm, es + [e], |es|, Exec(tm, es).clock, e.key, Owner(Exec(tm, es).db, e.key).value);
  }

  predicate Finds(s: State, e: Event)
  {
    e.Read? && e.i < |s.matched| && s.matched[e.i].tenantID in s.db.tenants
  }

  /** The request that a successful read makes pending. */
  function Found(s: State, e: Event): Pending
    requires Finds(s, e)
  {
    var x := s.matched[e.i];
    Pending(x.key, s.db.tenants[x.tenantID], x.at, s.clock)
  }

  /** The row that is read is that of the tenant whose key it was. */
  lemma ReadIsBacked(tm: Timing, es: seq<Event>, e: Event)
    requires Backed(tm, es) && Finds(Exec(tm, es), e)
    ensures PendingBacked(tm, es + [e], Found(Exec(tm, es), e))
  {
    var s := Exec(tm, es);
    var x := s.matched[e.i];
    assert MatchedBacked(tm, es, x);
    var n: nat :| OwnedAt(tm, es, n, x.at, x.key, x.tenantID);
    OwnedAtGrows(tm, es, e, n, x.at, x.key, x.tenantID);
    StoreIsValid(tm, es);
    ExecLast(tm, es, e);
    assert (es + [e])[..|es|] == es;
    assert Vouched(tm, es + [e], x.at, s.clock, x.key, s.db.tenants[x.tenantID]);
  }

  lemma StepKeepsMatched(tm: Timing, es: seq<Event>, e: Event)
    requires Backed(tm, es)
    ensures AllMatchedBacked(tm, es + [e], Step(tm, Exec(tm, es), e).matched)
  {
    OldEntriesStayBacked(tm, es, e);
    if e.Miss? && Owner(Exec(tm, es).db, e.key).Some? {
      MissIsBacked(tm, es, e);
    }
  }

  lemma PendingChanges(tm: Timing, es: seq<Event>, ps: seq<Pending>, i: nat, p: Pending)
    requires AllPendingBacked(tm, es, ps)
    ensures PendingBacked(tm, es, p) ==> AllPendingBacked(tm, es, ps + [p])
    ensures i < |ps| ==> AllPendingBacked(tm, es, ps[..i] + ps[i + 1..])
  {
  }

  lemma OnlyTheseMovePending(tm: Timing, s: State, e: Event)
    ensures Finds(s, e) ==> Step(tm, s, e).pending == s.pending + [Found(s, e)]
    ensures Admits(tm, s, e) ==> Step(tm, s, e).pending == s.pending[..e.i] + s.pending[e.i + 1..]
    ensures !Finds(s, e) && !Admits(tm, s, e) ==> Step(tm, s, e).pending == s.pending
  {
  }

  lemma StepKeepsPending(tm: Timing, es: seq<Event>, e: Event)
    requires Backed(tm, es)
    ensures AllPendingBacked(tm, es + [e], Step(tm, Exec(tm, es), e).pending)
  {
    var s := Exec(tm, es);
    OnlyTheseMovePending(tm, s, e);
    OldEntriesStayBacked(tm, es, e);
    if Finds(s, e) {
      ReadIsBacked(tm, es, e);
      PendingChanges(tm, es + [e], s.pending, 0, Found(s, e));
    } else if Admits(tm, s, e) {
      PendingChanges(tm, es + [e], s.pending, e.i, s.pending[e.i]);
    }
  }

  lemma ItemsUpdate(tm: Timing, es: seq<Event>, items: Items, key: string, item: Item)
    requires AllItemsBacked(tm, es, items) && ItemBacked(tm, es, key, item)
    ensures AllItemsBacked(tm, es, items[key := item])
  {
  }

  lemma OnlyAdmitSets(tm: Timing, s: State, e: Event)
    ensures Admits(tm, s, e) ==> var p := s.pending[e.i];
                                 Step(tm, s, e).items == s.items[p.key := Item(p.tenant, s.clock + tm.ttl)]
    ensures !Admits(tm, s, e) ==> Step(tm, s, e).items == s.items
  {
  }

  lemma StepKeepsItems(tm: Timing, es: seq<Event>, e: Event)
    requires Backed(tm, es)
    ensures AllItemsBacked(tm, es + [e], Step(tm, Exec(tm, es), e).items)
  {
    var s := Exec(tm, es);
    OnlyAdmitSets(tm, s, e);
    OldEntriesStayBacked(tm, es, e);
    if Admits(tm, s, e) {
      var p := s.pending[e.i];
      AdmitIsBacked(tm, es, e);
      ItemsUpdate(tm, es + [e], s.items, p.key, Item(p.tenant, s.clock + tm.ttl));
    }
  }

  lemma OneMoreGrant(tm: Timing, es: seq<Event>, gs: seq<Grant>, g: Grant)
    requires AllGrantsBacked(tm, es, gs) && GrantBacked(tm, es, g)
    ensures AllGrantsBacked(tm, es, gs + [g])
  {
  }

  predicate Serves(s: State, e: Event)
  {
    e.Hit? && CacheGet(s.items, e.key, s.clock).Some?
  }

  lemma OnlyTheseGrant(tm: Timing, s: State, e: Event)
    ensures Serves(s, e) ==> Step(tm, s, e).grants == s.grants + [Grant(s.clock, e.key, s.items[e.key].tenant)]
    ensures Admits(tm, s, e) ==> var p := s.pending[e.i];
                                 Step(tm, s, e).grants == s.grants + [Grant(s.clock, p.key, p.tenant)]
    ensures !Serves(s, e) && !Admits(tm, s, e) ==> Step(tm, s, e).grants == s.grants
  {
  }

  lemma StepKeepsGrants(tm: Timing, es: seq<Event>, e: Event)
    requires Backed(tm, es)
    ensures AllGrantsBacked(tm, es + [e], Step(tm, Exec(tm, es), e).grants)
  {
    var s := Exec(tm, es);
    OnlyTheseGrant(tm, s, e);
    OldEntriesStayBacked(tm, es, e);
    if Serves(s, e) {
      HitIsBacked(tm, es, e);
      OneMoreGrant(tm, es + [e], s.grants, Grant(s.clock, e.key, s.items[e.key].tenant));
    } else if Admits(tm, s, e) {
      AdmitIsBacked(tm, es, e);
      OneMoreGrant(tm, es + [e], s.grants, Grant(s.clock, s.pending[e.i].key, s.pending[e.i].tenant));
    }
  }

  lemma StepKeepsBacked(tm: Timing, es: seq<Event>, e: Event)
    requires Backed(tm, es)
    ensures Backed(tm, es + [e])
  {
    ExecLast(tm, es, e);
    StepKeepsMatched(tm, es, e);
    StepKeepsPending(tm, es, e);
    StepKeepsItems(tm, es, e);
    StepKeepsGrants(tm, es, e);
  }

  lemma {:induction false} RunIsBacked(tm: Timing, es: seq<Event>)
    ensures Backed(tm, es)
  {
    if es != [] {
      RunIsBacked(tm, es[..|es| - 1]);
      StepKeepsBacked(tm, es[..|es| - 1], es[|es| - 1]);
      assert es == es[..|es| - 1] + [es[|es| - 1]];
    }
  }

  lemma {:induction false} StoreIsValid(tm: Timing, es: seq<Event>)
    ensures Valid(Exec(tm, es).db)
  {
    if es != [] {
      StoreIsValid(tm, es[..|es| - 1]);
      var s, e := Exec(tm, es[..|es| - 1]), es[|es| - 1];
      if e.Database? && Fresh(s.db, e.op) {
        ApplyKeepsValid(s.db, e.op);
      }
    }
  }

  /** Bounded staleness: over every run, with any operations between a lookup's two queries, each
      authenticated request carries a tenant whose key it was, and whose row this was at that or a later
      moment, both no more than ttl + delay before it. */
  lemma AuthenticationIsFresh(tm: Timing, es: seq<Event>, i: nat)
    requires i < |Exec(tm, es).grants|
    ensures var g := Exec(tm, es).grants[i];
            exists u, w :: g.time - tm.ttl - tm.delay <= u <= w <= g.time && Vouched(tm, es, u, w, g.key, g.tenant)
  {
    RunIsBacked(tm, es);
    assert GrantBacked(tm, es, Exec(tm, es).grants[i]);
  }

  // ----- Revocation -----

  lemma {:induction false} ClockAndDeathPersist(tm: Timing, es: seq<Event>, n: nat, m: nat, key: string)
    requires n <= m <= |es|
    ensures Exec(tm, es[..n]).clock <= Exec(tm, es[..m]).clock
    ensures Dead(Exec(tm, es[..n]).db, key) ==> Dead(Exec(tm, es[..m]).db, key)
    decreases m
  {
    if n < m {
      ClockAndDeathPersist(tm, es, n, m - 1, key);
      var s, e := Exec(tm, es[..m - 1]), es[m - 1];
      assert es[..m] == es[..m - 1] + [e];
      ExecLast(tm, es[..m - 1], e);
      if Dead(s.db, key) && e.Database? && Fresh(s.db, e.op) {
        ApplyKeepsDead(s.db, e.op, key);
      }
    }
  }

  /** Revocation takes effect within ttl + delay: a key dead after the first n events
      authenticates nothing later than that moment plus ttl plus delay, in any continuation of the run. */
  lemma RevokedKeyExpires(tm: Timing, es: seq<Event>, n: nat, i: nat)
    requires n <= |es| && i < |Exec(tm, es).grants|
    requires Dead(Exec(tm, es[..n]).db, Exec(tm, es).grants[i].key)
    ensures Exec(tm, es).grants[i].time <= Exec(tm, es[..n]).clock + tm.ttl + tm.delay
  {
    var g := Exec(tm, es).grants[i];
    AuthenticationIsFresh(tm, es, i);
    var u, w :| g.time - tm.ttl - tm.delay <= u <= w <= g.time && Vouched(tm, es, u, w, g.key, g.tenant);
    var k: nat, m: nat :| k <= m <= |es| && OwnedAt(tm, es, k, u, g.key, g.tenant.id)
                          && Exec(tm, es[..m]).clock == w && TenantById(Exec(tm, es[..m]).db, g.tenant.id) == Some(g.tenant);
    if k < n {
      ClockAndDeathPersist(tm, es, k, n, g.key);
    } else {
      ClockAndDeathPersist(tm, es, n, k, g.key);
      assert false;
    }
  }

  /** So a key whose tenant's key is rotated, or whose tenant is deleted, by the run's n-th event authenticates
      nothing later than that event plus ttl plus delay. */
  lemma RotatedKeyExpires(tm: Timing, es: seq<Event>, n: nat, i: nat)
    requires n < |es| && i < |Exec(tm, es).grants|
    requires var db, key := Exec(tm, es[..n]).db, Exec(tm, es).grants[i].key;
             && es[n].Database? && Fresh(db, es[n].op)
             && Owner(db, key).Some? && Revokes(es[n].op, Owner(db, key).value)
    ensures Exec(tm, es).grants[i].time <= Exec(tm, es[..n]).clock + tm.ttl + tm.delay
  {
    StoreIsValid(tm, es[..n]);
    RevocationKills(Exec(tm, es[..n]).db, es[n].op, Exec(tm, es).grants[i].key);
    AfterOperation(tm, es, n);
    RevokedKeyExpires(tm, es, n + 1, i);
  }

  lemma AfterOperation(tm: Timing, es: seq<Event>, n: nat)
    requires n < |es| && es[n].Database? && Fresh(Exec(tm, es[..n]).db, es[n].op)
    ensures Exec(tm, es[..n + 1]).db == Apply(Exec(tm, es[..n]).db, es[n].op)
    ensures Exec(tm, es[..n + 1]).clock == Exec(tm, es[..n]).clock
  {
    assert es[..n + 1] == es[..n] + [es[n]];
    ExecLast(tm, es[..n], es[n]);
  }

  // ----- The bound is exact -----

  /** In the run a committed rotation is the n-th event, and the i-th grant, made after it, is of the key that
      was the tenant's until then, x after the rotation. */
  ghost predicate Outlives(tm: Timing, es: seq<Event>, n: nat, i: nat, x: int)
  {
    && n < |es| && es[n].Database? && es[n].op.Rotate? && Fresh(Exec(tm, es[..n]).db, es[n].op)
    && |Exec(tm, es[..n + 1]).grants| <= i < |Exec(tm, es).grants|
    && var db, g := Exec(tm, es[..n]).db, Exec(tm, es).grants[i];
       && Owner(db, g.key).Some? && Revokes(es[n].op, Owner(db, g.key).value)
       && g.time == Exec(tm, es[..n]).clock + x
  }

  /** The store of the run below before its rotation, and after it. */
  function Before(t: Tenant, key: string): DB
  {
    Apply(EMPTY, Create(t, "1", key, true))
  }

  function Rotation(t: Tenant, newKey: string): Op
  {
    Rotate(t.id, "2", newKey, true)
  }

  lemma BeforeResolves(t: Tenant, key: string)
    requires t.id != "" && t.plan != ""
    ensures Valid(Before(t, key)) && Owner(Before(t, key), key) == Some(t.id) && TenantById(Before(t, key), t.id) == Some(t)
  {
    var op := Create(t, "1", key, true);
    assert Valid(EMPTY) && Fresh(EMPTY, op);
    ApplyKeepsValid(EMPTY, op);
    assert Matches(Before(t, key), "1", key);
    OwnerIs(Before(t, key), "1", key);
  }

  lemma Extend(tm: Timing, es: seq<Event>, e: Event, s: State)
    requires Step(tm, Exec(tm, es), e) == s
    ensures Exec(tm, es + [e]) == s && (es + [e])[..|es|] == es
  {
    ExecLast(tm, es, e);
  }

  /** A request that has finished its lookup. */
  function LookedUp(t: Tenant, key: string): State
  {
    State(0, Before(t, key), map[], [], [Pending(key, t, 0, 0)], [])
  }

  lemma Lookup(tm: Timing, t: Tenant, key: string) returns (es: seq<Event>)
    requires t.id != "" && t.plan != ""
    ensures |es| == 3 && Exec(tm, es) == LookedUp(t, key)
  {
    var created := START.(db := Before(t, key));
    var matched := created.(matched := [Matched(key, t.id, 0)]);
    BeforeResolves(t, key);
    es := [Database(Create(t, "1", key, true))];
    Extend(tm, [], es[0], created);
    Extend(tm, es, Miss(key), matched);
    es := es + [Miss(key)];
    assert Step(tm, matched, Read(0)) == LookedUp(t, key);
    Extend(tm, es, Read(0), LookedUp(t, key));
    es := es + [Read(0)];
  }

  /** The request's Set, wait after its lookup. */
  lemma SetLater(tm: Timing, es: seq<Event>, db: DB, t: Tenant, key: string, wait: nat) returns (all: seq<Event>)
    requires Exec(tm, es) == State(0, db, map[], [], [Pending(key, t, 0, 0)], []) && wait <= tm.delay
    ensures es <= all
    ensures Exec(tm, all) == State(wait, db, map[key := Item(t, wait + tm.ttl)], [], [], [Grant(wait, key, t)])
  {
    var waited := Exec(tm, es).(clock := wait);
    Extend(tm, es, Advance(wait), waited);
    all := es + [Advance(wait)];
    ExecLast(tm, all, Admit(0));
    all := all + [Admit(0)];
  }

  /** A cache hit, more after the Set. */
  lemma HitLater(tm: Timing, es: seq<Event>, s: State, key: string, more: nat) returns (all: seq<Event>)
    requires Exec(tm, es) == s && key in s.items && s.clock + more <= s.items[key].expiresAt
    ensures es <= all
    ensures Exec(tm, all).grants == s.grants + [Grant(s.clock + more, key, s.items[key].tenant)]
  {
    Extend(tm, es, Advance(more), s.(clock := s.clock + more));
    all := es + [Advance(more)];
    ExecLast(tm, all, Hit(key));
    all := all + [Hit(key)];
  }

  /** The rotation comes between the lookup and the Set. */
  lemma RotateNext(tm: Timing, es: seq<Event>, t: Tenant, key: string, newKey: string)
    requires Exec(tm, es) == LookedUp(t, key) && Fresh(Before(t, key), Rotation(t, newKey))
    ensures Exec(tm, es + [Database(Rotation(t, newKey))]) ==
            LookedUp(t, key).(db := Apply(Before(t, key), Rotation(t, newKey)))
  {
    ExecLast(tm, es, Database(Rotation(t, newKey)));
  }

  /** A run in which a key, looked up just before its rotation, is set wait after it, and hit more later. */
  lemma RotatedKeyServes(tm: Timing, t: Tenant, key: string, newKey: string, wait: nat, more: nat) returns (es: seq<Event>)
    requires t.id != "" && t.plan != "" && key != newKey && wait <= tm.delay && more <= tm.ttl
    ensures Outlives(tm, es, 3, 1, wait + more)
  {
    var e := Database(Rotation(t, newKey));
    var lookup := Lookup(tm, t, key);
    RotateNext(tm, lookup, t, key, newKey);
    var rotated := lookup + [e];
    var cached := SetLater(tm, rotated, Exec(tm, rotated).db, t, key, wait);
    es := HitLater(tm, cached, Exec(tm, cached), key, more);
    assert rotated <= cached <= es;
    BeforeResolves(t, key);
    Served(tm, lookup, e, es, t, key, wait + more);
  }

  lemma Served(tm: Timing, lookup: seq<Event>, e: Event, es: seq<Event>, t: Tenant, key: string, x: int)
    requires |lookup| == 3 && Exec(tm, lookup) == LookedUp(t, key) && lookup + [e] <= es
    requires e.Database? && e.op.Rotate? && Revokes(e.op, t.id) && Fresh(Before(t, key), e.op)
    requires Owner(Before(t, key), key) == Some(t.id)
    requires Exec(tm, lookup + [e]).grants == [] && |Exec(tm, es).grants| == 2
    requires Exec(tm, es).grants[1].key == key && Exec(tm, es).grants[1].time == x
    ensures Outlives(tm, es, 3, 1, x)
  {
    assert es[..4] == lookup + [e] && es[..3] == lookup && es[3] == (lookup + [e])[3];
  }

  /** Exactly how long a rotated key can go on authenticating: x after its rotation, in some run, if and only
      if x is at most ttl + delay. */
  lemma RotatedKeyServesIff(tm: Timing, x: nat)
    ensures (exists es, n: nat, i: nat :: Outlives(tm, es, n, i, x)) <==> x <= tm.ttl + tm.delay
  {
    if x <= tm.ttl + tm.delay {
      var wait := if x <= tm.delay then x else tm.delay;
      var es := RotatedKeyServes(tm, Tenant("t", "", "", 0, 0, 0, "free"), "old", "new", wait, x - wait);
      assert Outlives(tm, es, 3, 1, x);
    } else if es, n: nat, i: nat :| Outlives(tm, es, n, i, x) {
      RotatedKeyExpires(tm, es, n, i);
      assert false;
    }
  }

  // ----- The methods -----

  const BEARER: string := "Bearer "

  class TenantCache {
    var items: Items
    const ttl: nat

    constructor (ttl: nat)
      ensures this.ttl == ttl && items == map[]
    {
      this.ttl, this.items := ttl, map[];
    }

    method Get(key: string, now: int) returns (r: Option<Tenant>)
      ensures r == if key in items && now <= items[key].expiresAt then Some(items[key].tenant) else None
    {
      if key !in items || now > items[key].expiresAt {
        return None;
      }
      return Some(items[key].tenant);
    }

    method Set(key: string, tenant: Tenant, now: int)
      modifies this
      ensures items == old(items)[key := Item(tenant, now + ttl)]
    {
      items := items[key := Item(tenant, now + ttl)];
    }

    /** Auth for one request: the tenant it goes on with, or None for 401. lookup is the key store's answer,
        asked only on a miss; a failed lookup is not cached. */
    method Auth(header: string, now: int, lookup: string -> Option<Tenant>, later: int) returns (r: Option<Tenant>)
      modifies this
      ensures !("Bearer " <= header) ==> r == None && items == old(items)
      ensures "Bearer " <= header ==>
                var key := header[7..];
                if key in old(items) && now <= old(items)[key].expiresAt then r == Some(old(items)[key].tenant) && items == old(items)
                else r == lookup(key)
                     && items == if r.Some? then old(items)[key := Item(r.value, later + ttl)] else old(items)
    {
      if !(BEARER <= header) {
        return None;
      }
      var key := header[|BEARER|..];
      r := Get(key, now);
      if r.Some? {
        return r;
      }
      r := lookup(key);
      if r.None? {
        return None;
      }
      Set(key, r.value, later);
    }
  }
}
