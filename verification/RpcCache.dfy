/** The response cache of backend/gateway/proxy/proxy.go: its keys, its per-method times to live, and
    where every cached answer came from. Times are seconds on one clock. */
module RpcCache {
  import opened Json
  import opened Options
  import opened Strings

  /** cachePolicies */
  function Policy(rpc: string): (ttl: Option<nat>)
  {
    if rpc == "eth_chainId" then Some(86400)
    else if rpc == "eth_blockNumber" then Some(2)
    else if rpc == "eth_getBalance" then Some(30)
    else if rpc == "eth_gasPrice" then Some(15)
    else if rpc == "eth_maxPriorityFeePerGas" then Some(15)
    else None
  }

  /** What a cached answer answers; params is the JSON text of the parameters, empty if there are none. */
  datatype Request = Request(network: string, rpc: string, params: string)

  function CacheKey(q: Request): string
  {
    "rpc:" + q.network + ":" + q.rpc + (if q.params != "" then ":" + q.params else "")
  }

  // ----- The key is injective -----

  /** The parameters are the JSON text that json.Marshal makes, or empty. */
  predicate Sane(q: Request)
  {
    Closed(q.params)
  }

  function Tail(q: Request): string
  {
    if q.params != "" then ":" + q.params else ""
  }

  /** What the key says after the network. */
  function AfterNetwork(q: Request): string
  {
    ":" + q.rpc + Tail(q)
  }

  /** Nothing below the letters: no colon, no quotation mark. */
  predicate NoPunctuationIn(s: string)
  {
    forall i :: 0 <= i < |s| ==> s[i] >= 'A'
  }

  lemma ShortNames()
    ensures NoPunctuationIn("eth_chainId") && NoPunctuationIn("eth_gasPrice")
  {
  }

  lemma LongNames()
    ensures NoPunctuationIn("eth_blockNumber") && NoPunctuationIn("eth_getBalance")
  {
  }

  lemma LongestName()
    ensures NoPunctuationIn("eth_maxPriorityFeePerGas")
  {
  }

  lemma CacheableHasNone(rpc: string)
    requires Policy(rpc).Some?
    ensures NoPunctuationIn(rpc)
  {
    ShortNames();
    LongNames();
    LongestName();
  }

  lemma NoBackslash(rpc: string)
    requires Policy(rpc).Some?
    ensures '\\' !in rpc
  {
  }

  lemma CacheableWords(rpc: string)
    requires Policy(rpc).Some?
    ensures ':' !in rpc && '"' !in rpc && '\\' !in rpc && '_' in rpc
  {
    CacheableHasNone(rpc);
    NoBackslash(rpc);
    assert rpc[3] == '_';
  }

  lemma KeyShape(q: Request)
    ensures CacheKey(q)[4..] == q.network + AfterNetwork(q)
    ensures AfterNetwork(q)[1..] == q.rpc + Tail(q)
    ensures q.params != "" ==> Tail(q)[1..] == q.params
  {
    assert CacheKey(q) == "rpc:" + (q.network + AfterNetwork(q));
  }

  lemma SameRest(p: Request, q: Request)
    requires Policy(p.rpc).Some? && Policy(q.rpc).Some?
    requires p.rpc + Tail(p) == q.rpc + Tail(q)
    ensures p.rpc == q.rpc && Tail(p) == Tail(q)
  {
    CacheableWords(p.rpc);
    CacheableWords(q.rpc);
    SplitAt(p.rpc, q.rpc, Tail(p), Tail(q), ':');
  }

  /** Where networks of different lengths would share a key, the parameters of the shorter one would end
      in the method, and parameters, of the longer one. */
  lemma Overlap(p: Request, q: Request) returns (front: string)
    requires Policy(p.rpc).Some? && |p.network| < |q.network|
    requires p.network + AfterNetwork(p) == q.network + AfterNetwork(q)
    ensures p.params == front + q.rpc + Tail(q)
  {
    var left := q.network[|p.network|..];
    CutLater(p.network, q.network, AfterNetwork(p), AfterNetwork(q));
    assert (left + AfterNetwork(q))[1..] == left[1..] + AfterNetwork(q);
    KeyShape(p);
    KeyShape(q);
    CacheableWords(p.rpc);
    front := SeparatorComesFirst(p.rpc, left[1..], Tail(p), AfterNetwork(q), ':');
    Associate(front, q.rpc, Tail(q));
  }

  lemma Associate(a: string, b: string, c: string)
    ensures a + (b + c) == a + b + c
  {
  }

  lemma LongerNetworkDiffers(p: Request, q: Request)
    requires Sane(p) && Sane(q) && Policy(p.rpc).Some? && Policy(q.rpc).Some?
    requires |p.network| < |q.network|
    ensures CacheKey(p) != CacheKey(q)
  {
    KeyShape(p);
    KeyShape(q);
    if CacheKey(p) == CacheKey(q) {
      var front := Overlap(p, q);
      CacheableWords(q.rpc);
      NoSuchSuffix(front, q.rpc, Tail(q));
    }
  }

  /** Two cacheable requests share a key only if they are the same request: no answer of one method,
      network or parameter list is ever served for another, whatever characters a network identifier has. */
  lemma CacheKeyInjective(p: Request, q: Request)
    requires Sane(p) && Sane(q)
    requires Policy(p.rpc).Some? && Policy(q.rpc).Some?
    requires CacheKey(p) == CacheKey(q)
    ensures p == q
  {
    if |p.network| < |q.network| {
      LongerNetworkDiffers(p, q);
    } else if |q.network| < |p.network| {
      LongerNetworkDiffers(q, p);
    }
    KeyShape(p);
    KeyShape(q);
    var whole := p.network + AfterNetwork(p);
    assert p.network == whole[..|p.network|] == q.network;
    assert AfterNetwork(p) == whole[|p.network|..] == AfterNetwork(q);
    SameRest(p, q);
  }

  // ----- The shared cache and the requests in flight -----

  datatype Entry = Entry(body: string, deadline: int)

  type Store = map<string, Entry>

  predicate Live(store: Store, key: string, now: int)
  {
    key in store && now < store[key].deadline
  }

  /** A cached answer is served if it is live and not empty. */
  function Cached(store: Store, q: Request, now: int): Option<string>
  {
    var key := CacheKey(q);
    if Policy(q.rpc).Some? && Live(store, key, now) && store[key].body != "" then Some(store[key].body) else None
  }

  /** An upstream answer that is not an RPC error, on its way to the cache. */
  datatype Answer = Answer(request: Request, body: string)

  datatype Hit = Hit(time: int, request: Request, body: string)

  datatype State = State(clock: int, store: Store, answers: seq<Answer>, hits: seq<Hit>)

  datatype Event =
    | Advance(delta: nat)
    | Ask(request: Request)                                       // the cache is consulted
    | Return(request: Request, body: string, rpcError: bool)      // the upstream answered
    | Fill(i: nat, ok: bool)                                      // SET, which may fail unnoticed
    | Evict(key: string)                                          // Redis may forget a key at any time

  const START: State := State(0, map[], [], [])

  /** One event; a Fill of no answer in flight changes nothing. An RPC error is passed on, not cached. */
  function Step(s: State, e: Event): State
  {
    match e
    case Advance(d) => s.(clock := s.clock + d)
    case Ask(q) =>
      var found := Cached(s.store, q, s.clock);
      if found.Some? then s.(hits := s.hits + [Hit(s.clock, q, found.value)]) else s
    case Return(q, body, rpcError) => if rpcError then s else s.(answers := s.answers + [Answer(q, body)])
    case Fill(i, ok) =>
      if i >= |s.answers| then s
      else
        var a := s.answers[i];
        var policy := Policy(a.request.rpc);
        s.(answers := s.answers[..i] + s.answers[i + 1..],
           store := if ok && policy.Some? then s.store[CacheKey(a.request) := Entry(a.body, s.clock + policy.value)] else s.store)
    case Evict(key) => s.(store := s.store - {key})
  }

  function Exec(es: seq<Event>): State
  {
    if es == [] then START else Step(Exec(es[..|es| - 1]), es[|es| - 1])
  }

  /** Every request of the run has JSON parameters. */
  predicate SaneRun(es: seq<Event>)
  {
    forall i :: 0 <= i < |es| ==> (es[i].Ask? || es[i].Return? ==> Sane(es[i].request))
  }

  // ----- Provenance -----

  /** The upstream answered exactly this request with exactly this body, not an RPC error, in the run. */
  predicate CameFromUpstream(es: seq<Event>, q: Request, body: string)
  {
    exists i :: 0 <= i < |es| && es[i] == Return(q, body, false)
  }

  /** A successful SET, at a moment of the run when the clock read u, stored this request's body. */
  ghost predicate StoredAt(es: seq<Event>, u: int, q: Request, body: string)
  {
    exists n :: 0 <= n < |es| && es[n].Fill? && es[n].ok && es[n].i < |Exec(es[..n]).answers|
                && Exec(es[..n]).answers[es[n].i] == Answer(q, body) && Exec(es[..n]).clock == u
  }

  ghost predicate EntryFrom(es: seq<Event>, key: string, entry: Entry, q: Request)
  {
    && key == CacheKey(q) && Sane(q) && Policy(q.rpc).Some?
    && entry.deadline - Policy(q.rpc).value <= Exec(es).clock
    && StoredAt(es, entry.deadline - Policy(q.rpc).value, q, entry.body)
    && CameFromUpstream(es, q, entry.body)
  }

  ghost predicate HitFrom(es: seq<Event>, h: Hit)
  {
    && Policy(h.request.rpc).Some? && CameFromUpstream(es, h.request, h.body)
    && exists u :: h.time - Policy(h.request.rpc).value < u <= h.time && StoredAt(es, u, h.request, h.body)
  }

  ghost predicate HasSource(es: seq<Event>, key: string, entry: Entry)
  {
    exists q :: EntryFrom(es, key, entry, q)
  }

  predicate AnswersFrom(es: seq<Event>, answers: seq<Answer>)
  {
    forall i :: 0 <= i < |answers| ==>
      Sane(answers[i].request) && CameFromUpstream(es, answers[i].request, answers[i].body)
  }

  ghost predicate StoreFrom(es: seq<Event>, store: Store)
  {
    forall key :: key in store ==> HasSource(es, key, store[key])
  }

  ghost predicate HitsFrom(es: seq<Event>, hits: seq<Hit>)
  {
    forall i :: 0 <= i < |hits| ==> HitFrom(es, hits[i])
  }

  ghost predicate Sourced(es: seq<Event>)
  {
    AnswersFrom(es, Exec(es).answers) && StoreFrom(es, Exec(es).store) && HitsFrom(es, Exec(es).hits)
  }

  lemma ExecLast(es: seq<Event>, e: Event)
    ensures Exec(es + [e]) == Step(Exec(es), e)
    ensures Exec(es + [e]).clock >= Exec(es).clock
  {
    assert (es + [e])[..|es|] == es;
  }

  lemma FactsGrow(es: seq<Event>, e: Event, u: int, q: Request, body: string)
    ensures CameFromUpstream(es, q, body) ==> CameFromUpstream(es + [e], q, body)
    ensures StoredAt(es, u, q, body) ==> StoredAt(es + [e], u, q, body)
  {
    var longer := es + [e];
    assert forall i :: 0 <= i < |es| ==> longer[i] == es[i];
    if CameFromUpstream(es, q, body) {
      var i :| 0 <= i < |es| && es[i] == Return(q, body, false);
      assert longer[i] == Return(q, body, false);
    }
    if StoredAt(es, u, q, body) {
      var n :| 0 <= n < |es| && es[n].Fill? && es[n].ok && es[n].i < |Exec(es[..n]).answers|
               && Exec(es[..n]).answers[es[n].i] == Answer(q, body) && Exec(es[..n]).clock == u;
      assert longer[..n] == es[..n] && longer[n] == es[n];
    }
  }

  lemma EntryGrows(es: seq<Event>, e: Event, key: string, entry: Entry, q: Request)
    requires EntryFrom(es, key, entry, q)
    ensures EntryFrom(es + [e], key, entry, q)
  {
    ExecLast(es, e);
    FactsGrow(es, e, entry.deadline - Policy(q.rpc).value, q, entry.body);
  }

  lemma HitGrows(es: seq<Event>, e: Event, h: Hit)
    requires HitFrom(es, h)
    ensures HitFrom(es + [e], h)
  {
    var u :| h.time - Policy(h.request.rpc).value < u <= h.time && StoredAt(es, u, h.request, h.body);
    FactsGrow(es, e, u, h.request, h.body);
  }

  lemma SourceGrows(es: seq<Event>, e: Event, key: string, entry: Entry)
    requires HasSource(es, key, entry)
    ensures HasSource(es + [e], key, entry)
  {
    var q :| EntryFrom(es, key, entry, q);
    EntryGrows(es, e, key, entry, q);
  }

  lemma OldFactsStay(es: seq<Event>, e: Event)
    requires Sourced(es)
    ensures AnswersFrom(es + [e], Exec(es).answers)
    ensures StoreFrom(es + [e], Exec(es).store)
    ensures HitsFrom(es + [e], Exec(es).hits)
  {
    var s := Exec(es);
    forall i | 0 <= i < |s.answers| { FactsGrow(es, e, 0, s.answers[i].request, s.answers[i].body); }
    forall key | key in s.store { SourceGrows(es, e, key, s.store[key]); }
    forall i | 0 <= i < |s.hits| { HitGrows(es, e, s.hits[i]); }
  }

  /** A live entry under a request's key is that very request's: here the key's injectivity is used. */
  lemma EntryIsOwn(es: seq<Event>, q: Request, entry: Entry)
    requires HasSource(es, CacheKey(q), entry) && Sane(q) && Policy(q.rpc).Some?
    ensures EntryFrom(es, CacheKey(q), entry, q)
  {
    var other :| EntryFrom(es, CacheKey(q), entry, other);
    CacheKeyInjective(q, other);
  }

  predicate Serves(s: State, e: Event)
  {
    e.Ask? && Cached(s.store, e.request, s.clock).Some?
  }

  /** The hit that an Ask the cache serves records. */
  function Served(s: State, e: Event): Hit
    requires Serves(s, e)
  {
    Hit(s.clock, e.request, s.store[CacheKey(e.request)].body)
  }

  lemma AskAppends(s: State, e: Event)
    ensures Step(s, e).hits == if Serves(s, e) then s.hits + [Served(s, e)] else s.hits
  {
  }

  lemma AskIsSourced(es: seq<Event>, e: Event)
    requires StoreFrom(es, Exec(es).store) && Serves(Exec(es), e) && Sane(e.request)
    ensures HitFrom(es + [e], Served(Exec(es), e))
  {
    var entry := Exec(es).store[CacheKey(e.request)];
    EntryIsOwn(es, e.request, entry);
    FactsGrow(es, e, entry.deadline - Policy(e.request.rpc).value, e.request, entry.body);
  }

  /** The entry a successful Fill of a cacheable answer leaves. */
  function Filled(a: Answer, clock: int): Entry
    requires Policy(a.request.rpc).Some?
  {
    Entry(a.body, clock + Policy(a.request.rpc).value)
  }

  predicate Fills(s: State, e: Event)
  {
    e.Fill? && e.i < |s.answers| && e.ok && Policy(s.answers[e.i].request.rpc).Some?
  }

  lemma FillIsSourced(es: seq<Event>, e: Event)
    requires AnswersFrom(es, Exec(es).answers) && Fills(Exec(es), e)
    ensures var a := Exec(es).answers[e.i];
            EntryFrom(es + [e], CacheKey(a.request), Filled(a, Exec(es).clock), a.request)
  {
    var s := Exec(es);
    var a := s.answers[e.i];
    ExecLast(es, e);
    FactsGrow(es, e, 0, a.request, a.body);
    assert (es + [e])[..|es|] == es && (es + [e])[|es|] == e;
    assert StoredAt(es + [e], s.clock, a.request, a.body);
  }

  lemma FillUpdates(s: State, e: Event)
    requires e.Fill?
    ensures Fills(s, e) ==>
              Step(s, e).store == s.store[CacheKey(s.answers[e.i].request) := Filled(s.answers[e.i], s.clock)]
    ensures !Fills(s, e) ==> Step(s, e).store == s.store
  {
  }

  lemma ReturnIsSourced(es: seq<Event>, e: Event)
    requires e.Return? && !e.rpcError
    ensures CameFromUpstream(es + [e], e.request, e.body)
  {
    assert (es + [e])[|es|] == Return(e.request, e.body, false);
  }

  lemma StoreFromUpdate(es: seq<Event>, store: Store, key: string, entry: Entry, q: Request)
    requires StoreFrom(es, store) && EntryFrom(es, key, entry, q)
    ensures StoreFrom(es, store[key := entry])
  {
    assert HasSource(es, key, entry);
  }

  lemma AnswersFromRemove(es: seq<Event>, answers: seq<Answer>, i: nat)
    requires AnswersFrom(es, answers) && i < |answers|
    ensures AnswersFrom(es, answers[..i] + answers[i + 1..])
  {
  }

  lemma StepKeepsStore(es: seq<Event>, e: Event)
    requires Sourced(es)
    ensures StoreFrom(es + [e], Step(Exec(es), e).store)
  {
    OldFactsStay(es, e);
    if e.Fill? {
      FillUpdates(Exec(es), e);
      if Fills(Exec(es), e) {
        FillIsSourced(es, e);
        var a := Exec(es).answers[e.i];
        StoreFromUpdate(es + [e], Exec(es).store, CacheKey(a.request), Filled(a, Exec(es).clock), a.request);
      }
    }
  }

  lemma StepKeepsAnswers(es: seq<Event>, e: Event)
    requires Sourced(es) && (e.Return? ==> Sane(e.request))
    ensures AnswersFrom(es + [e], Step(Exec(es), e).answers)
  {
    OldFactsStay(es, e);
    if e.Fill? && e.i < |Exec(es).answers| {
      AnswersFromRemove(es + [e], Exec(es).answers, e.i);
    } else if e.Return? && !e.rpcError {
      ReturnIsSourced(es, e);
    }
  }

  lemma StepKeepsHits(es: seq<Event>, e: Event)
    requires Sourced(es) && (e.Ask? ==> Sane(e.request))
    ensures HitsFrom(es + [e], Step(Exec(es), e).hits)
  {
    OldFactsStay(es, e);
    AskAppends(Exec(es), e);
    if Serves(Exec(es), e) {
      AskIsSourced(es, e);
      OneMoreHit(es + [e], Exec(es).hits, Served(Exec(es), e));
    }
  }

  lemma OneMoreHit(es: seq<Event>, hits: seq<Hit>, h: Hit)
    requires HitsFrom(es, hits) && HitFrom(es, h)
    ensures HitsFrom(es, hits + [h])
  {
  }

  lemma StepKeepsSourced(es: seq<Event>, e: Event)
    requires Sourced(es) && SaneRun(es + [e])
    ensures Sourced(es + [e])
  {
    assert (es + [e])[|es|] == e;
    ExecLast(es, e);
    StepKeepsStore(es, e);
    StepKeepsAnswers(es, e);
    StepKeepsHits(es, e);
  }

  lemma {:induction false} RunIsSourced(es: seq<Event>)
    requires SaneRun(es)
    ensures Sourced(es)
  {
    if es != [] {
      var init := es[..|es| - 1];
      assert es == init + [es[|es| - 1]];
      RunIsSourced(init);
      StepKeepsSourced(init, es[|es| - 1]);
    }
  }

  /** Provenance: in every run, with any number of requests in flight, each cached answer served was
      returned by the upstream for the same network, method and parameters, was not an RPC error, and was
      stored less than its method's time to live ago. */
  lemma HitsAreGenuineAndFresh(es: seq<Event>, i: nat)
    requires SaneRun(es) && i < |Exec(es).hits|
    ensures var h := Exec(es).hits[i];
            && Policy(h.request.rpc).Some?
            && CameFromUpstream(es, h.request, h.body)
            && exists u :: h.time - Policy(h.request.rpc).value < u <= h.time && StoredAt(es, u, h.request, h.body)
  {
    RunIsSourced(es);
    assert HitFrom(es, Exec(es).hits[i]);
  }

  /** In particular no hit is as old as its method's lifetime in seconds. */
  lemma HitAges(es: seq<Event>, i: nat)
    requires SaneRun(es) && i < |Exec(es).hits|
    ensures var h := Exec(es).hits[i];
            exists u :: StoredAt(es, u, h.request, h.body) && u <= h.time < u + Lifetime(h.request.rpc)
  {
    HitsAreGenuineAndFresh(es, i);
    PolicyIs(Exec(es).hits[i].request.rpc);
  }

  function Lifetime(rpc: string): nat
  {
    match rpc
    case "eth_chainId" => 24 * 60 * 60
    case "eth_blockNumber" => 2
    case "eth_getBalance" => 30
    case "eth_gasPrice" => 15
    case "eth_maxPriorityFeePerGas" => 15
    case _ => 0
  }

  // ----- Cached answers are served -----

  /** The event does not write to or remove the key. */
  predicate LeavesAlone(s: State, e: Event, key: string)
  {
    && (e.Evict? ==> e.key != key)
    && (e.Fill? && e.i < |s.answers| ==> CacheKey(s.answers[e.i].request) != key)
  }

  /** The events after the first n leave the key alone. */
  predicate LeftAlone(es: seq<Event>, n: nat, key: string)
  {
    forall m :: n <= m < |es| ==> LeavesAlone(Exec(es[..m]), es[m], key)
  }

  lemma {:induction false} EntryStays(es: seq<Event>, n: nat, key: string)
    requires n <= |es| && key in Exec(es[..n]).store && LeftAlone(es, n, key)
    ensures key in Exec(es).store && Exec(es).store[key] == Exec(es[..n]).store[key]
    decreases |es|
  {
    if n == |es| {
      assert es[..n] == es;
    } else {
      var init := es[..|es| - 1];
      assert init[..n] == es[..n];
      assert forall m :: n <= m < |init| ==> init[..m] == es[..m] && init[m] == es[m];
      EntryStays(init, n, key);
      assert LeavesAlone(Exec(init), es[|es| - 1], key);
    }
  }

  /** A cacheable, non-empty answer that was stored at a moment when the clock read u is served to every later
      request for the same network, method and parameters before u plus the method's lifetime, as long as
      Redis keeps the key and nothing newer overwrites it. */
  lemma StoredAnswerIsServed(es: seq<Event>, n: nat, a: Answer, e: Event)
    requires n < |es| && es[n].Fill? && es[n].ok && es[n].i < |Exec(es[..n]).answers| && Exec(es[..n]).answers[es[n].i] == a
    requires Policy(a.request.rpc).Some? && a.body != "" && LeftAlone(es, n + 1, CacheKey(a.request))
    requires Exec(es).clock < Exec(es[..n]).clock + Policy(a.request.rpc).value && e == Ask(a.request)
    ensures Exec(es + [e]).hits == Exec(es).hits + [Hit(Exec(es).clock, a.request, a.body)]
  {
    var key := CacheKey(a.request);
    assert es[..n + 1] == es[..n] + [es[n]];
    ExecLast(es[..n], es[n]);
    FillUpdates(Exec(es[..n]), es[n]);
    EntryStays(es, n + 1, key);
    ExecLast(es, e);
    AskAppends(Exec(es), e);
  }

  /** The cacheable methods are the five that have a lifetime, and that is how long they may be served. */
  lemma PolicyIs(rpc: string)
    ensures Policy(rpc) == if Lifetime(rpc) == 0 then None else Some(Lifetime(rpc))
    ensures Policy("eth_chainId") == Some(86400) && Policy("eth_blockNumber") == Some(2)
    ensures Policy("eth_getBalance") == Some(30) && Policy("eth_gasPrice") == Policy("eth_maxPriorityFeePerGas") == Some(15)
  {
  }

  // ----- The method -----

  /** What bc.Call came to. */
  datatype Upstream = Failed | Replied(body: string, rpcError: bool)

  datatype Outcome = BadGateway | RpcError(body: string) | Miss(body: string) | HitBody(body: string)

  class Proxy {
    var cache: Store

    constructor ()
      ensures cache == map[]
    {
      cache := map[];
    }

    /** ServeHTTP from the cache key on, for one request: now is when the cache is read, later when it is
        filled; readOk and writeOk say whether Redis answered. */
    method Serve(q: Request, now: int, later: int, readOk: bool, upstream: Upstream, writeOk: bool) returns (r: Outcome)
      modifies this
      ensures if readOk && Cached(old(cache), q, now).Some? then r == HitBody(Cached(old(cache), q, now).value)
              else match upstream
                   case Failed => r == BadGateway
                   case Replied(body, rpcError) => r == if rpcError then RpcError(body) else Miss(body)
      ensures r.HitBody? <==>
                && readOk && Policy(q.rpc).Some?
                && CacheKey(q) in old(cache) && now < old(cache)[CacheKey(q)].deadline && old(cache)[CacheKey(q)].body != ""
      ensures cache == if r.Miss? && writeOk && Policy(q.rpc).Some?
                       then old(cache)[CacheKey(q) := Entry(r.body, later + Policy(q.rpc).value)] else old(cache)
    {
      var cacheKey := "rpc:" + q.network + ":" + q.rpc;
      if |q.params| > 0 {
        cacheKey := cacheKey + (":" + q.params);
      }
      assert cacheKey == CacheKey(q);
      if Policy(q.rpc).Some? {
        if readOk && cacheKey in cache && now < cache[cacheKey].deadline && cache[cacheKey].body != "" {
          return HitBody(cache[cacheKey].body);
        }
      }
      if upstream.Failed? {
        return BadGateway;
      }
      if upstream.rpcError {
        return RpcError(upstream.body);
      }
      if Policy(q.rpc).Some? && writeOk {
        cache := cache[cacheKey := Entry(upstream.body, later + Policy(q.rpc).value)];
      }
      return Miss(upstream.body);
    }
  }
}
