/** Configuration reconciliation of backend/gateway/manager.go: reload makes the running clients those of
    the enabled configurations, deciding by a string signature which of them to keep. */
module Manager {
  import opened Options
  import opened Counting
  import opened Strings

  datatype Config = Config(id: string, rpcEndpoint1: string, rpcEndpoint2: string, enabled: bool)

  function Flag(enabled: bool): string
  {
    if enabled then "true" else "false"
  }

  function Signature(c: Config): string
  {
    c.rpcEndpoint1 + "|" + c.rpcEndpoint2 + "|" + Flag(c.enabled)
  }

  /** The endpoint list reload builds a client with. */
  function Endpoints(c: Config): (es: seq<string>)
    ensures |es| == (if c.rpcEndpoint2 == "" then 1 else 2) && es[0] == c.rpcEndpoint1
    ensures c.rpcEndpoint2 != "" ==> es[1] == c.rpcEndpoint2
  {
    if c.rpcEndpoint2 != "" then [c.rpcEndpoint1, c.rpcEndpoint2] else [c.rpcEndpoint1]
  }

  predicate PipeFree(c: Config)
  {
    '|' !in c.rpcEndpoint1 && '|' !in c.rpcEndpoint2
  }

  // ----- The signature -----

  /** A separator that neither head contains splits a string in one way only. */
  lemma SplitOnce(a: string, b: string, x: string, y: string, sep: char)
    requires sep !in a && sep !in b
    requires a + [sep] + x == b + [sep] + y
    ensures a == b && x == y
  {
    assert a + [sep] + x == a + ([sep] + x) && b + [sep] + y == b + ([sep] + y);
    SplitAt(a, b, [sep] + x, [sep] + y, sep);
    assert ([sep] + x)[1..] == x && ([sep] + y)[1..] == y;
  }

  function IsPipe(): char -> bool
  {
    (c: char) => c == '|'
  }

  /** A signature has the pipes of its endpoints, and two of its own. */
  lemma SignaturePipes(c: Config)
    ensures Count(Signature(c), IsPipe()) == Count(c.rpcEndpoint1, IsPipe()) + Count(c.rpcEndpoint2, IsPipe()) + 2
  {
    CountConcat(c.rpcEndpoint1 + "|" + c.rpcEndpoint2 + "|", Flag(c.enabled), IsPipe());
    CountAppend(c.rpcEndpoint1 + "|" + c.rpcEndpoint2, '|', IsPipe());
    CountConcat(c.rpcEndpoint1 + "|", c.rpcEndpoint2, IsPipe());
    CountAppend(c.rpcEndpoint1, '|', IsPipe());
    CountNone(Flag(c.enabled), IsPipe());
  }

  lemma PipeFreeIffNoPipes(c: Config)
    ensures PipeFree(c) <==> Count(c.rpcEndpoint1, IsPipe()) + Count(c.rpcEndpoint2, IsPipe()) == 0
  {
    if PipeFree(c) {
      CountNone(c.rpcEndpoint1, IsPipe());
      CountNone(c.rpcEndpoint2, IsPipe());
    } else if i :| 0 <= i < |c.rpcEndpoint1| && c.rpcEndpoint1[i] == '|' {
      CountPositive(c.rpcEndpoint1, IsPipe(), i);
    } else {
      var i :| 0 <= i < |c.rpcEndpoint2| && c.rpcEndpoint2[i] == '|';
      CountPositive(c.rpcEndpoint2, IsPipe(), i);
    }
  }

  lemma PipeFreeSpreads(a: Config, b: Config)
    requires PipeFree(a) && Signature(a) == Signature(b)
    ensures PipeFree(b)
  {
    SignaturePipes(a);
    SignaturePipes(b);
    PipeFreeIffNoPipes(a);
    PipeFreeIffNoPipes(b);
  }

  /** A pipe-free configuration shares its signature exactly with the configurations of the same endpoints and
      the same switch, whatever their identifiers. */
  lemma SignatureDecides(a: Config, b: Config)
    requires PipeFree(a)
    ensures Signature(a) == Signature(b) <==>
            a.rpcEndpoint1 == b.rpcEndpoint1 && a.rpcEndpoint2 == b.rpcEndpoint2 && a.enabled == b.enabled
  {
    if Signature(a) == Signature(b) {
      SignatureInjective(a, b);
    }
  }

  lemma SignatureInjective(a: Config, b: Config)
    requires PipeFree(a) && Signature(a) == Signature(b)
    ensures a.rpcEndpoint1 == b.rpcEndpoint1 && a.rpcEndpoint2 == b.rpcEndpoint2 && a.enabled == b.enabled
  {
    PipeFreeSpreads(a, b);
    var fa, fb := Flag(a.enabled), Flag(b.enabled);
    var ra, rb := a.rpcEndpoint2 + ['|'] + fa, b.rpcEndpoint2 + ['|'] + fb;
    assert Signature(a) == a.rpcEndpoint1 + ['|'] + ra && Signature(b) == b.rpcEndpoint1 + ['|'] + rb;
    SplitOnce(a.rpcEndpoint1, b.rpcEndpoint1, ra, rb, '|');
    SplitOnce(a.rpcEndpoint2, b.rpcEndpoint2, fa, fb, '|');
    assert "true"[0] == 't' && "false"[0] == 'f';
  }

  /** Moving the pipe of an endpoint to the separator's place gives the same signature for other endpoints. */
  lemma AmbiguousPartner(a: Config) returns (b: Config)
    requires !PipeFree(a)
    ensures b.id == a.id && b.enabled == a.enabled && Signature(b) == Signature(a) && Endpoints(b) != Endpoints(a)
  {
    var flag := Flag(a.enabled);
    if '|' in a.rpcEndpoint1 {
      var head, tail := FirstSeparator(a.rpcEndpoint1, '|');
      b := Config(a.id, head, tail + "|" + a.rpcEndpoint2, a.enabled);
      assert Signature(b) == head + "|" + tail + "|" + a.rpcEndpoint2 + "|" + flag;
      assert Signature(a) == head + "|" + tail + "|" + a.rpcEndpoint2 + "|" + flag;
      assert Endpoints(b)[0] == head && Endpoints(a)[0] == a.rpcEndpoint1;
    } else {
      var head, tail := FirstSeparator(a.rpcEndpoint2, '|');
      b := Config(a.id, a.rpcEndpoint1 + "|" + head, tail, a.enabled);
      assert Signature(b) == a.rpcEndpoint1 + "|" + head + "|" + tail + "|" + flag;
      assert Signature(a) == a.rpcEndpoint1 + "|" + head + "|" + tail + "|" + flag;
      assert Endpoints(b)[0] == a.rpcEndpoint1 + "|" + head && Endpoints(a)[0] == a.rpcEndpoint1;
    }
  }

  /** Exactly when a signature decides the endpoints: some other configuration shares it, with different
      endpoints, if and only if one of the configuration's own endpoints contains a '|'. */
  lemma SignatureIsAmbiguousIff(a: Config)
    ensures (exists b :: Signature(b) == Signature(a) && Endpoints(b) != Endpoints(a)) <==> !PipeFree(a)
  {
    if !PipeFree(a) {
      var b := AmbiguousPartner(a);
      assert Signature(b) == Signature(a);
    } else if b :| Signature(b) == Signature(a) && Endpoints(b) != Endpoints(a) {
      SignatureInjective(a, b);
    }
  }

  // ----- The manager's state -----

  predicate UniqueIds(configs: seq<Config>)
  {
    forall i, j :: 0 <= i < j < |configs| ==> configs[i].id != configs[j].id
  }

  /** The identifiers of the enabled configurations. */
  function EnabledIds(configs: seq<Config>): set<string>
  {
    set i | 0 <= i < |configs| && configs[i].enabled :: configs[i].id
  }

  /** A reference to a client: serial is the object's identity, source the configuration it was built from. */
  datatype Ref = Ref(serial: nat, networkID: string, endpoints: seq<string>, source: Config)

  /** The two maps; the clients whose health checker has a live context, the others' goroutines ending by
      themselves; the clients on which StopHealthChecks was called; how many were ever created; and whether
      the manager's health context, the parent of every checker's, has been cancelled. */
  datatype State = State(
    clients: map<string, Ref>, sigs: map<string, string>, running: set<nat>, stopped: set<nat>, created: nat, cancelled: bool)

  const EMPTY: State := State(map[], map[], {}, {}, 0, false)

  function Serials(clients: map<string, Ref>): set<nat>
  {
    set id | id in clients :: clients[id].serial
  }

  function Build(serial: nat, cfg: Config): Ref
  {
    Ref(serial, cfg.id, Endpoints(cfg), cfg)
  }

  /** reload's treatment of one listed configuration. A checker started under a cancelled context ends. */
  function Visit(s: State, cfg: Config): State
  {
    if !cfg.enabled || (cfg.id in s.sigs && s.sigs[cfg.id] == Signature(cfg)) then s
    else
      var replaced := if cfg.id in s.clients then {s.clients[cfg.id].serial} else {};
      State(s.clients[cfg.id := Build(s.created, cfg)], s.sigs[cfg.id := Signature(cfg)],
            s.running - replaced + (if s.cancelled then {} else {s.created}), s.stopped + replaced, s.created + 1,
            s.cancelled)
  }

  function VisitAll(s: State, configs: seq<Config>): State
  {
    if configs == [] then s else Visit(VisitAll(s, configs[..|configs| - 1]), configs[|configs| - 1])
  }

  function Outside(clients: map<string, Ref>, desired: set<string>): map<string, Ref>
  {
    map id | id in clients && id !in desired :: clients[id]
  }

  /** Stop and forget the clients of every identifier outside desired. */
  function Prune(s: State, desired: set<string>): State
  {
    State(map id | id in s.clients && id in desired :: s.clients[id],
          map id | id in s.sigs && (id in desired || id !in s.clients) :: s.sigs[id],
          s.running - Serials(Outside(s.clients, desired)),
          s.stopped + Serials(Outside(s.clients, desired)),
          s.created, s.cancelled)
  }

  /** reload, given what listing the configurations returned; None is an error. */
  function Reconciled(s: State, listing: Option<seq<Config>>): State
  {
    if listing.None? then s else Prune(VisitAll(s, listing.value), EnabledIds(listing.value))
  }

  /** Stop's first statement, which takes no lock: the context of every checker ends. */
  function Cancel(s: State): State
  {
    s.(running := {}, cancelled := true)
  }

  /** The rest of Stop, under the lock. */
  function Clear(s: State): State
  {
    State(map[], map[], s.running - Serials(s.clients), s.stopped + Serials(s.clients), s.created, s.cancelled)
  }

  // ----- What every reload keeps -----

  predicate DistinctSerials(clients: map<string, Ref>)
  {
    forall id, id' :: id in clients && id' in clients && id != id' ==> clients[id].serial != clients[id'].serial
  }

  predicate IsBuilt(c: Ref, id: string)
  {
    c == Build(c.serial, c.source) && c.networkID == id
  }

  /** Each client in the map has its own identity, built from the configuration whose signature is recorded. */
  predicate Recorded(s: State)
  {
    && s.clients.Keys == s.sigs.Keys
    && (forall id :: id in s.clients ==> IsBuilt(s.clients[id], id) && s.clients[id].serial < s.created
                                         && s.sigs[id] == Signature(s.clients[id].source))
    && DistinctSerials(s.clients)
  }

  /** No client is leaked or lost: until the cancellation the running ones are exactly those in the map,
      after it there are none; and of all clients ever created, those outside the map, and no others, have
      been stopped. */
  ghost predicate Accounted(s: State)
  {
    && s.running == (if s.cancelled then {} else Serials(s.clients))
    && forall n: nat :: n in s.stopped <==> n < s.created && n !in Serials(s.clients)
  }

  ghost predicate Valid(s: State)
  {
    Recorded(s) && Accounted(s)
  }

  lemma SerialsAdd(clients: map<string, Ref>, id: string, c: Ref)
    requires id !in clients
    ensures Serials(clients[id := c]) == Serials(clients) + {c.serial}
  {
    var more := clients[id := c];
    assert more[id].serial in Serials(more);
    forall n | n in Serials(clients)
      ensures n in Serials(more)
    {
      var i :| i in clients && clients[i].serial == n;
      assert more[i].serial == n;
    }
  }

  /** Putting a client in the place of another one. */
  lemma SerialsReplace(clients: map<string, Ref>, id: string, c: Ref)
    requires DistinctSerials(clients) && c.serial !in Serials(clients)
    ensures Serials(clients[id := c]) ==
            Serials(clients) - (if id in clients then {clients[id].serial} else {}) + {c.serial}
  {
    var rest := clients - {id};
    assert rest[id := c] == clients[id := c];
    SerialsAdd(rest, id, c);
    if id in clients {
      assert rest[id := clients[id]] == clients;
      SerialsAdd(rest, id, clients[id]);
    } else {
      assert rest == clients;
    }
  }

  lemma VisitKeepsRecorded(s: State, cfg: Config)
    requires Recorded(s)
    ensures Recorded(Visit(s, cfg))
  {
    if Visit(s, cfg) != s {
      DistinctAdd(s.clients, cfg.id, Build(s.created, cfg));
    }
  }

  lemma DistinctAdd(clients: map<string, Ref>, id: string, c: Ref)
    requires DistinctSerials(clients) && forall i :: i in clients ==> clients[i].serial < c.serial
    ensures DistinctSerials(clients[id := c])
  {
  }

  /** The same on the serials alone: replaced ones stop, and one is created. */
  lemma ReplacementAccounts(serials: set<nat>, stopped: set<nat>, created: nat, replaced: set<nat>)
    requires forall n: nat :: n in stopped <==> n < created && n !in serials
    requires replaced <= serials && forall n :: n in serials ==> n < created
    ensures forall n: nat :: n in stopped + replaced <==> n < created + 1 && n !in serials - replaced + {created}
  {
  }

  lemma VisitKeepsAccounted(s: State, cfg: Config)
    requires Recorded(s) && Accounted(s)
    ensures Accounted(Visit(s, cfg))
  {
    if Visit(s, cfg) != s {
      var c := Build(s.created, cfg);
      assert forall n :: n in Serials(s.clients) ==> n < s.created;
      SerialsReplace(s.clients, cfg.id, c);
      var replaced := if cfg.id in s.clients then {s.clients[cfg.id].serial} else {};
      assert replaced <= Serials(s.clients);
      ReplacementAccounts(Serials(s.clients), s.stopped, s.created, replaced);
    }
  }

  lemma VisitKeepsValid(s: State, cfg: Config)
    requires Valid(s)
    ensures Valid(Visit(s, cfg))
  {
    VisitKeepsRecorded(s, cfg);
    VisitKeepsAccounted(s, cfg);
  }

  lemma {:induction false} VisitAllKeepsValid(s: State, configs: seq<Config>)
    requires Valid(s)
    ensures Valid(VisitAll(s, configs))
  {
    if configs != [] {
      VisitAllKeepsValid(s, configs[..|configs| - 1]);
      VisitKeepsValid(VisitAll(s, configs[..|configs| - 1]), configs[|configs| - 1]);
    }
  }

  /** Pruning splits the clients into those it keeps and those it stops. */
  lemma PruneSplits(s: State, desired: set<string>)
    requires DistinctSerials(s.clients)
    ensures Serials(Prune(s, desired).clients) == Serials(s.clients) - Serials(Outside(s.clients, desired))
  {
    var kept, gone := Prune(s, desired).clients, Outside(s.clients, desired);
    forall n: nat
      ensures n in Serials(kept) <==> n in Serials(s.clients) && n !in Serials(gone)
    {
      if id :| id in s.clients && s.clients[id].serial == n {
        if id in desired {
          assert kept[id].serial == n;
        } else {
          assert gone[id].serial == n;
        }
      }
    }
  }

  /** Keeping everything prunes nothing. */
  lemma PruneNone(s: State, keep: set<string>)
    requires s.clients.Keys <= keep
    ensures Prune(s, keep) == s
  {
    assert Outside(s.clients, keep) == map[];
    assert Prune(s, keep).clients == s.clients && Prune(s, keep).sigs == s.sigs;
  }

  /** Pruning forgets and stops exactly the clients outside the ones kept. */
  lemma PruneMeans(s: State, keep: set<string>)
    ensures var t := Prune(s, keep);
            && (forall id :: id in t.clients <==> id in s.clients && id in keep)
            && (forall id :: id in t.clients ==> t.clients[id] == s.clients[id])
            && forall n :: n in t.stopped <==> n in s.stopped || exists id :: id in s.clients && id !in keep && s.clients[id].serial == n
  {
    var gone := Outside(s.clients, keep);
    forall n: nat
      ensures n in Serials(gone) <==> exists id :: id in s.clients && id !in keep && s.clients[id].serial == n
    {
      if id :| id in s.clients && id !in keep && s.clients[id].serial == n {
        assert gone[id].serial == n;
      }
    }
  }

  /** One more identifier to prune is one more client stopped and forgotten. */
  lemma PruneOne(s: State, keep: set<string>, id: string)
    requires id in s.clients && id in keep
    ensures var t := Prune(s, keep);
            Prune(s, keep - {id}) == State(t.clients - {id}, t.sigs - {id}, t.running - {s.clients[id].serial},
                                           t.stopped + {s.clients[id].serial}, t.created, t.cancelled)
  {
    var t, t' := Prune(s, keep), Prune(s, keep - {id});
    assert Outside(s.clients, keep - {id}) == Outside(s.clients, keep)[id := s.clients[id]];
    SerialsAdd(Outside(s.clients, keep), id, s.clients[id]);
    assert t'.clients == t.clients - {id} && t'.sigs == t.sigs - {id};
  }

  lemma PruneKeepsValid(s: State, desired: set<string>)
    requires Valid(s)
    ensures Valid(Prune(s, desired))
  {
    PruneSplits(s, desired);
  }

  lemma ReloadKeepsValid(s: State, listing: Option<seq<Config>>)
    requires Valid(s)
    ensures Valid(Reconciled(s, listing))
  {
    if listing.Some? {
      VisitAllKeepsValid(s, listing.value);
      PruneKeepsValid(VisitAll(s, listing.value), EnabledIds(listing.value));
    }
  }

  // ----- Reconciliation is exact -----

  predicate Untouched(s: State, t: State, id: string)
  {
    && (id in t.clients <==> id in s.clients) && (id in t.clients ==> t.clients[id] == s.clients[id])
    && (id in t.sigs <==> id in s.sigs) && (id in t.sigs ==> t.sigs[id] == s.sigs[id])
  }

  /** What one pass over the configurations does to each identifier. */
  lemma {:induction false} VisitAllResult(s: State, configs: seq<Config>)
    requires UniqueIds(configs)
    ensures var t := VisitAll(s, configs);
            && t.clients.Keys >= s.clients.Keys && s.created <= t.created
            && (forall id :: id !in EnabledIds(configs) ==> Untouched(s, t, id))
            && (forall i :: 0 <= i < |configs| && configs[i].enabled ==> Settled(s, t, configs[i]))
    decreases |configs|
  {
    if configs != [] {
      var n := |configs| - 1;
      var init := configs[..n];
      VisitAllResult(s, init);
      EnabledIdsStep(configs);
      forall i | 0 <= i < n && configs[i].enabled
        ensures Settled(s, VisitAll(s, configs), configs[i])
      {
        assert init[i] == configs[i];
        assert Settled(s, VisitAll(s, init), init[i]);
        VisitSparesOthers(s, VisitAll(s, init), configs[n], configs[i]);
      }
      assert configs[n].id !in EnabledIds(init);
      VisitSettles(s, VisitAll(s, init), configs[n]);
    }
  }

  lemma VisitSparesOthers(s: State, v: State, cfg: Config, other: Config)
    requires Settled(s, v, other) && other.id != cfg.id
    ensures Settled(s, Visit(v, cfg), other)
  {
  }

  lemma VisitSettles(s: State, v: State, cfg: Config)
    requires Untouched(s, v, cfg.id) && s.created <= v.created
    ensures cfg.enabled ==> Settled(s, Visit(v, cfg), cfg)
    ensures forall id :: Untouched(s, v, id) && (id != cfg.id || !cfg.enabled) ==> Untouched(s, Visit(v, cfg), id)
  {
  }

  lemma EnabledIdsStep(configs: seq<Config>)
    requires configs != []
    ensures var n := |configs| - 1;
            EnabledIds(configs) == EnabledIds(configs[..n]) + (if configs[n].enabled then {configs[n].id} else {})
  {
    var n := |configs| - 1;
    forall id | id in EnabledIds(configs[..n])
      ensures id in EnabledIds(configs)
    {
      var i :| 0 <= i < n && configs[..n][i].enabled && configs[..n][i].id == id;
      assert configs[i].id == id;
    }
    forall id | id in EnabledIds(configs)
      ensures id in EnabledIds(configs[..n]) || (configs[n].enabled && id == configs[n].id)
    {
      var i :| 0 <= i < |configs| && configs[i].enabled && configs[i].id == id;
      assert i < n ==> configs[..n][i].id == id;
    }
  }

  predicate Changed(s: State, cfg: Config)
  {
    cfg.id !in s.sigs || s.sigs[cfg.id] != Signature(cfg)
  }

  /** After the pass the configuration has its signature recorded, and the client it had before if that
      signature is unchanged, otherwise a new one built from it. */
  predicate Settled(s: State, t: State, cfg: Config)
  {
    && cfg.id in t.sigs && t.sigs[cfg.id] == Signature(cfg)
    && (Changed(s, cfg) ==> cfg.id in t.clients && t.clients[cfg.id] == Build(t.clients[cfg.id].serial, cfg)
                            && s.created <= t.clients[cfg.id].serial < t.created)
    && (!Changed(s, cfg) ==> (cfg.id in t.clients <==> cfg.id in s.clients)
                             && (cfg.id in s.clients ==> t.clients[cfg.id] == s.clients[cfg.id]))
  }

  /** The client is the configuration's: its identifier, its first endpoint and, if there is one, its second. */
  predicate Uses(c: Ref, cfg: Config)
  {
    && c.networkID == cfg.id
    && |c.endpoints| == (if cfg.rpcEndpoint2 == "" then 1 else 2)
    && c.endpoints[0] == cfg.rpcEndpoint1
    && (cfg.rpcEndpoint2 != "" ==> c.endpoints[1] == cfg.rpcEndpoint2)
  }

  /** A successful reload leaves exactly the enabled identifiers in both maps, each with its current
      signature; unchanged signatures keep their client's identity, the others get a new client; and every
      client whose configuration is free of '|' has that configuration's endpoints. */
  lemma ReloadIsExact(s: State, configs: seq<Config>)
    requires Valid(s) && UniqueIds(configs)
    ensures var t := Reconciled(s, Some(configs));
            && t.clients.Keys == t.sigs.Keys == EnabledIds(configs)
            && (forall id :: id in t.clients <==> exists i :: 0 <= i < |configs| && configs[i].enabled && configs[i].id == id)
            && forall i :: 0 <= i < |configs| && configs[i].enabled ==>
                 && Settled(s, t, configs[i])
                 && (PipeFree(configs[i]) ==> Uses(t.clients[configs[i].id], configs[i]))
  {
    ReloadSettles(s, configs);
    ReloadKeepsValid(s, Some(configs));
    forall i | 0 <= i < |configs| && configs[i].enabled
      ensures PipeFree(configs[i]) ==> Uses(Reconciled(s, Some(configs)).clients[configs[i].id], configs[i])
    {
      assert Settled(s, Reconciled(s, Some(configs)), configs[i]);
      EndpointsMatch(Reconciled(s, Some(configs)), configs[i]);
    }
  }

  lemma ReloadSettles(s: State, configs: seq<Config>)
    requires Valid(s) && UniqueIds(configs)
    ensures var t := Reconciled(s, Some(configs));
            && t.clients.Keys == t.sigs.Keys == EnabledIds(configs)
            && forall i :: 0 <= i < |configs| && configs[i].enabled ==> configs[i].id in t.clients && Settled(s, t, configs[i])
  {
    var v, t := VisitAll(s, configs), Reconciled(s, Some(configs));
    VisitAllResult(s, configs);
    VisitAllKeepsValid(s, configs);
    EnabledAreClients(s, v, configs);
    forall i | 0 <= i < |configs| && configs[i].enabled
      ensures configs[i].id in t.clients && Settled(s, t, configs[i])
    {
      assert configs[i].id in EnabledIds(configs);
      PruneSettles(s, v, configs[i], EnabledIds(configs));
    }
    PruneKeys(v, EnabledIds(configs));
  }

  lemma PruneKeys(v: State, desired: set<string>)
    requires v.clients.Keys == v.sigs.Keys && desired <= v.clients.Keys
    ensures Prune(v, desired).clients.Keys == Prune(v, desired).sigs.Keys == desired
  {
  }

  lemma PruneSettles(s: State, v: State, cfg: Config, desired: set<string>)
    requires Settled(s, v, cfg) && cfg.id in v.clients && cfg.id in desired
    ensures cfg.id in Prune(v, desired).clients && Settled(s, Prune(v, desired), cfg)
  {
  }

  lemma EnabledAreClients(s: State, v: State, configs: seq<Config>)
    requires Valid(s) && Valid(v)
    requires forall i :: 0 <= i < |configs| && configs[i].enabled ==> Settled(s, v, configs[i])
    ensures EnabledIds(configs) <= v.clients.Keys
  {
    forall id | id in EnabledIds(configs)
      ensures id in v.clients
    {
      var i :| 0 <= i < |configs| && configs[i].enabled && configs[i].id == id;
      assert Settled(s, v, configs[i]);
    }
  }

  lemma EndpointsMatch(t: State, cfg: Config)
    requires Valid(t) && cfg.id in t.clients && t.sigs[cfg.id] == Signature(cfg)
    ensures PipeFree(cfg) ==> Uses(t.clients[cfg.id], cfg) && t.clients[cfg.id].endpoints == Endpoints(cfg)
  {
    if PipeFree(cfg) {
      SignatureInjective(cfg, t.clients[cfg.id].source);
    }
  }

  /** A second reload of the same configurations creates and stops nothing: it changes no part of the state. */
  lemma ReloadIsIdempotent(s: State, configs: seq<Config>)
    requires Valid(s) && UniqueIds(configs)
    ensures Reconciled(Reconciled(s, Some(configs)), Some(configs)) == Reconciled(s, Some(configs))
  {
    var t := Reconciled(s, Some(configs));
    ReloadIsExact(s, configs);
    ReloadKeepsValid(s, Some(configs));
    NothingToVisit(t, configs);
    PruneNone(t, EnabledIds(configs));
  }

  lemma {:induction false} NothingToVisit(t: State, configs: seq<Config>)
    requires forall i :: 0 <= i < |configs| && configs[i].enabled ==> !Changed(t, configs[i])
    ensures VisitAll(t, configs) == t
  {
    if configs != [] {
      NothingToVisit(t, configs[..|configs| - 1]);
    }
  }

  // ----- Runs -----

  /** reload with its listing, and the two parts of Stop, which other goroutines' reloads may separate. */
  datatype Event = Reloaded(listing: Option<seq<Config>>) | Cancelled | Cleared

  function Step(s: State, e: Event): State
  {
    match e
    case Reloaded(listing) => Reconciled(s, listing)
    case Cancelled => Cancel(s)
    case Cleared => Clear(s)
  }

  function Exec(s: State, es: seq<Event>): State
  {
    if es == [] then s else Step(Exec(s, es[..|es| - 1]), es[|es| - 1])
  }

  lemma {:induction false} VisitAllKeepsContext(s: State, configs: seq<Config>)
    ensures VisitAll(s, configs).cancelled == s.cancelled
    ensures VisitAll(Cancel(s), configs) == Cancel(VisitAll(s, configs))
  {
    if configs != [] {
      VisitAllKeepsContext(s, configs[..|configs| - 1]);
    }
  }

  /** The cancellation takes no lock, so it may fall between any two steps of a reload; it leaves the same
      state wherever it falls, which is why a reload can be one event. */
  lemma CancelMomentIsIrrelevant(s: State, before: seq<Config>, after: seq<Config>, desired: set<string>)
    ensures var sooner := Prune(VisitAll(VisitAll(Cancel(s), before), after), desired);
            var midway := Prune(VisitAll(Cancel(VisitAll(s, before)), after), desired);
            sooner == midway == Cancel(Prune(VisitAll(VisitAll(s, before), after), desired))
  {
    VisitAllKeepsContext(s, before);
    VisitAllKeepsContext(VisitAll(s, before), after);
  }

  lemma {:induction false} RunIsValid(es: seq<Event>)
    ensures Valid(Exec(EMPTY, es)) && (Exec(EMPTY, es).cancelled <==> Cancelled in es)
  {
    RunKeepsContext(es);
    if es != [] {
      var before := Exec(EMPTY, es[..|es| - 1]);
      RunIsValid(es[..|es| - 1]);
      var e := es[|es| - 1];
      if e.Reloaded? {
        ReloadKeepsValid(before, e.listing);
      }
    }
  }

  /** Over every run, no health checker is leaked or lost: while the context lives, the running checkers are
      exactly those of the clients in the map, and from its cancellation on there are none, whatever reloads
      follow; of all the clients ever created, each is in the map or has been stopped, never both. */
  lemma NoCheckerIsLeaked(es: seq<Event>)
    ensures var s := Exec(EMPTY, es);
            && (forall n: nat :: n in s.running <==> Cancelled !in es && exists id :: id in s.clients && s.clients[id].serial == n)
            && (forall n: nat :: n in s.stopped <==> n < s.created && forall id :: id in s.clients ==> s.clients[id].serial != n)
            && (forall id, id' :: id in s.clients && id' in s.clients && id != id' ==> s.clients[id].serial != s.clients[id'].serial)
  {
    RunIsValid(es);
  }

  lemma {:induction false} RunKeepsContext(es: seq<Event>)
    ensures Exec(EMPTY, es).cancelled <==> Cancelled in es
  {
    if es != [] {
      var init, e := es[..|es| - 1], es[|es| - 1];
      RunKeepsContext(init);
      assert es == init + [e];
      if e.Reloaded? && e.listing.Some? {
        VisitAllKeepsContext(Exec(EMPTY, init), e.listing.value);
      }
    }
  }

  /** A reload that had listed its configurations before Stop leaves clients whose checkers have already
      ended and that nobody has stopped: exactly those of its enabled configurations. */
  lemma ReloadAfterStop(es: seq<Event>, configs: seq<Config>)
    requires Cancelled in es && UniqueIds(configs)
    ensures var s := Exec(EMPTY, es + [Cleared, Reloaded(Some(configs))]);
            && s.running == {} && s.clients.Keys == EnabledIds(configs)
            && forall id :: id in s.clients ==> s.clients[id].serial !in s.stopped
  {
    var cleared := es + [Cleared];
    var run := es + [Cleared, Reloaded(Some(configs))];
    assert run[..|run| - 1] == cleared && Cancelled in cleared && Cancelled in run;
    RunIsValid(cleared);
    RunIsValid(run);
    ReloadSettles(Exec(EMPTY, cleared), configs);
    CancelledMeans(Exec(EMPTY, run));
  }

  lemma CancelledMeans(s: State)
    requires Valid(s) && s.cancelled
    ensures s.running == {} && forall id :: id in s.clients ==> s.clients[id].serial !in s.stopped
  {
  }

  /** After any run that ends in a successful reload, possibly followed by failed ones, the clients are
      exactly those of that reload's enabled configurations, with their endpoints. */
  lemma {:induction false} LastListingWins(es: seq<Event>, configs: seq<Config>, failures: nat)
    requires UniqueIds(configs)
    ensures var s := Exec(EMPTY, es + [Reloaded(Some(configs))] + seq(failures, _ => Reloaded(None)));
            && s.clients.Keys == s.sigs.Keys == EnabledIds(configs)
            && forall i :: 0 <= i < |configs| && configs[i].enabled && PipeFree(configs[i]) ==>
                 Uses(s.clients[configs[i].id], configs[i])
    decreases failures
  {
    var run := es + [Reloaded(Some(configs))] + seq(failures, _ => Reloaded(None));
    if failures == 0 {
      assert run[..|run| - 1] == es && run[|run| - 1] == Reloaded(Some(configs));
      RunIsValid(es);
      ReloadIsExact(Exec(EMPTY, es), configs);
    } else {
      var shorter := es + [Reloaded(Some(configs))] + seq(failures - 1, _ => Reloaded(None));
      assert run[..|run| - 1] == shorter && run[|run| - 1] == Reloaded(None);
      LastListingWins(es, configs, failures - 1);
    }
  }

  // ----- Truncated listings -----

  /** A listing query that breaks off after n rows returns them without an error, and reload prunes the
      networks it did not list: it leaves the clients of the table's enabled configurations if and only if
      none of those is among the rows that did not arrive. */
  lemma TruncatedListingIff(s: State, configs: seq<Config>, n: nat)
    requires Valid(s) && UniqueIds(configs) && n <= |configs|
    ensures Reconciled(s, Some(configs[..n])).clients.Keys == EnabledIds(configs)
            <==> forall i :: n <= i < |configs| ==> !configs[i].enabled
  {
    ReloadIsExact(s, configs[..n]);
    assert forall i :: 0 <= i < n ==> configs[..n][i] == configs[i];
    if i :| n <= i < |configs| && configs[i].enabled {
      assert configs[i].id in EnabledIds(configs) && configs[i].id !in EnabledIds(configs[..n]);
    } else {
      forall id
        ensures id in EnabledIds(configs) <==> id in EnabledIds(configs[..n])
      {
        if i :| 0 <= i < |configs| && configs[i].enabled && configs[i].id == id {
          assert configs[..n][i].id == id;
        }
        if i :| 0 <= i < n && configs[..n][i].enabled && configs[..n][i].id == id {
          assert configs[i].id == id;
        }
      }
    }
  }

  // ----- Stale clients -----

  /** Reloading b over the reloaded a leaves a client with other endpoints than b's. */
  predicate Stale(s: State, a: Config, b: Config)
  {
    var t := Reconciled(Reconciled(s, Some([a])), Some([b]));
    b.id == a.id && b.enabled && b.id in t.clients && t.clients[b.id].endpoints != Endpoints(b)
  }

  /** A change of configuration can leave a stale client, in whatever state the first of the two is loaded,
      if and only if one of its endpoints contains a '|'. */
  lemma StaleClientIff(s: State, a: Config)
    requires Valid(s) && a.enabled
    ensures (exists b :: Stale(s, a, b)) <==> !PipeFree(a)
  {
    var before := Reconciled(s, Some([a]));
    ReloadIsExact(s, [a]);
    ReloadKeepsValid(s, Some([a]));
    assert Settled(s, before, [a][0]);
    if PipeFree(a) {
      forall b
        ensures !Stale(s, a, b)
      {
        NotStale(s, a, b);
      }
    } else {
      var b := AmbiguousPartner(a);
      KeepsClient(before, b);
      KeepsClient(before, a);
      assert Stale(s, a, a) || Stale(s, a, b);
    }
  }

  /** A reload keeps the client of a configuration whose signature is recorded. */
  lemma KeepsClient(t: State, b: Config)
    requires Valid(t) && b.enabled && b.id in t.clients && t.sigs[b.id] == Signature(b)
    ensures var t' := Reconciled(t, Some([b]));
            b.id in t'.clients && t'.clients[b.id] == t.clients[b.id]
  {
    ReloadIsExact(t, [b]);
    assert Settled(t, Reconciled(t, Some([b])), [b][0]);
  }

  lemma NotStale(s: State, a: Config, b: Config)
    requires Valid(s) && a.enabled && PipeFree(a)
    ensures !Stale(s, a, b)
  {
    var before := Reconciled(s, Some([a]));
    ReloadIsExact(s, [a]);
    ReloadKeepsValid(s, Some([a]));
    assert Settled(s, before, [a][0]);
    if b.id == a.id && b.enabled {
      ReloadIsExact(before, [b]);
      assert Settled(before, Reconciled(before, Some([b])), [b][0]);
      if !Changed(before, b) {
        SignatureInjective(a, b);
      }
    }
  }

  // ----- The methods -----

  class Manager {
    var clients: map<string, Ref>
    var sigs: map<string, string>
    var running: set<nat>
    ghost var stopped: set<nat>
    var created: nat
    var cancelled: bool

    ghost function View(): State
      reads this
    {
      State(clients, sigs, running, stopped, created, cancelled)
    }

    constructor ()
      ensures View() == EMPTY
    {
      clients, sigs, running, stopped, created, cancelled := map[], map[], {}, {}, 0, false;
    }

    /** blockchain.New, SetNetworkID and StartHealthChecks. */
    method NewClient(cfg: Config) returns (client: Ref)
      modifies this`running, this`created
      ensures client == Build(old(created), cfg) && Uses(client, cfg) && client.serial == old(created)
      ensures running == old(running) + (if cancelled then {} else {client.serial}) && created == old(created) + 1
    {
      var endpoints := [cfg.rpcEndpoint1];
      if cfg.rpcEndpoint2 != "" {
        endpoints := endpoints + [cfg.rpcEndpoint2];
      }
      client := Ref(created, cfg.id, endpoints, cfg);
      if !cancelled {
        running := running + {created};
      }
      created := created + 1;
    }

    method StopHealthChecks(client: Ref)
      modifies this`running, this`stopped
      ensures running == old(running) - {client.serial} && stopped == old(stopped) + {client.serial}
    {
      running, stopped := running - {client.serial}, stopped + {client.serial};
    }

    /** reload's loop over the listed configurations. */
    method VisitConfigs(configs: seq<Config>) returns (desired: set<string>)
      modifies this
      ensures View() == VisitAll(old(View()), configs)
      ensures desired == EnabledIds(configs)
    {
      desired := {};
      for i := 0 to |configs|
        invariant View() == VisitAll(old(View()), configs[..i])
        invariant desired == EnabledIds(configs[..i])
      {
        var cfg := configs[i];
        assert configs[..i + 1][..i] == configs[..i];
        EnabledIdsStep(configs[..i + 1]);
        if !cfg.enabled {
          continue;
        }
        desired := desired + {cfg.id};
        var sig := Signature(cfg);
        if cfg.id in sigs && sigs[cfg.id] == sig {
          continue;
        }
        if cfg.id in clients {
          StopHealthChecks(clients[cfg.id]);
        }
        var client := NewClient(cfg);
        clients := clients[cfg.id := client];
        sigs := sigs[cfg.id := sig];
      }
      assert configs[..|configs|] == configs;
    }

    /** What that loop does with a client outside the desired ones. */
    method Forget(id: string)
      requires id in clients
      modifies this
      ensures View() == State(old(clients) - {id}, old(sigs) - {id}, old(running) - {old(clients)[id].serial},
                              old(stopped) + {old(clients)[id].serial}, old(created), old(cancelled))
    {
      StopHealthChecks(clients[id]);
      clients := clients - {id};
      sigs := sigs - {id};
    }

    /** reload's loop over the clients map, deleting as it goes. */
    method PruneClients(desired: set<string>)
      modifies this
      ensures View() == Prune(old(View()), desired)
      ensures forall id :: id in clients <==> id in old(clients) && id in desired
      ensures forall id :: id in clients ==> clients[id] == old(clients)[id]
      ensures forall n :: n in stopped <==>
                n in old(stopped) || exists id :: id in old(clients) && id !in desired && old(clients)[id].serial == n
    {
      var todo := clients.Keys;
      PruneNone(View(), desired + todo);
      while todo != {}
        invariant todo <= clients.Keys && todo <= old(clients).Keys
        invariant View() == Prune(old(View()), desired + todo)
        decreases |todo|
      {
        var id :| id in todo;
        if id in desired {
          assert desired + todo == desired + (todo - {id});
        } else {
          assert desired + todo - {id} == desired + (todo - {id});
          PruneOne(old(View()), desired + todo, id);
          Forget(id);
        }
        todo := todo - {id};
      }
      assert desired + todo == desired;
      PruneMeans(old(View()), desired);
    }

    method Reload(listing: Option<seq<Config>>) returns (ok: bool)
      modifies this
      ensures ok <==> listing.Some?
      ensures View() == Reconciled(old(View()), listing)
    {
      if listing.None? {
        return false;
      }
      var desired := VisitConfigs(listing.value);
      PruneClients(desired);
      return true;
    }

    method Get(networkID: string) returns (client: Option<Ref>)
      ensures client == if networkID in clients then Some(clients[networkID]) else None
    {
      client := if networkID in clients then Some(clients[networkID]) else None;
    }

    /** Stop's loop over the clients map. */
    method StopAll()
      modifies this`running, this`stopped
      ensures running == old(running) - Serials(clients) && stopped == old(stopped) + Serials(clients)
    {
      var todo := clients.Keys;
      while todo != {}
        invariant todo <= clients.Keys
        invariant running == old(running) - Serials(Outside(clients, todo))
        invariant stopped == old(stopped) + Serials(Outside(clients, todo))
        decreases |todo|
      {
        var id :| id in todo;
        assert Outside(clients, todo - {id}) == Outside(clients, todo)[id := clients[id]];
        SerialsAdd(Outside(clients, todo), id, clients[id]);
        todo := todo - {id};
        StopHealthChecks(clients[id]);
      }
      assert Outside(clients, todo) == clients;
    }

    method Stop()
      modifies this
      ensures View() == Clear(Cancel(old(View())))
      ensures clients == map[] && sigs == map[] && running == {} && cancelled && created == old(created)
      ensures forall n :: n in stopped <==> n in old(stopped) || exists id :: id in old(clients) && old(clients)[id].serial == n
    {
      running, cancelled := {}, true;
      StopAll();
      clients, sigs := map[], map[];
    }
  }
}
