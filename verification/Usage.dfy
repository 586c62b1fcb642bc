/** Usage metering: what proxy.go's recordOutcome submits, and the usage table of
    backend/shared/storage/postgres/usage_store.go that the written jobs build up. */
module Usage {
  import opened Counting
  import opened Options

  /** A usage job, and a row of the listing; periods are minutes since the epoch (UTC). */
  datatype Entry = Entry(tenant: string, rpc: string, count: int, bytesIn: int, period: int)

  /** The primary key of the usage table. */
  datatype Key = Key(tenant: string, rpc: string, period: int)

  datatype Amount = Amount(count: int, bytesIn: int)

  type Table = map<Key, Amount>

  function KeyOf(u: Entry): Key
  {
    Key(u.tenant, u.rpc, u.period)
  }

  /** INSERT ... ON CONFLICT DO UPDATE */
  function Upsert(t: Table, u: Entry): Table
  {
    var k := KeyOf(u);
    t[k := if k in t then Amount(t[k].count + u.count, t[k].bytesIn + u.bytesIn) else Amount(u.count, u.bytesIn)]
  }

  /** The table after the jobs, written in this order. */
  function Written(us: seq<Entry>): Table
  {
    if us == [] then map[] else Upsert(Written(us[..|us| - 1]), us[|us| - 1])
  }

  function CountOf(): Entry -> int
  {
    (u: Entry) => u.count
  }

  function BytesOf(): Entry -> int
  {
    (u: Entry) => u.bytesIn
  }

  function KeyFn(): Entry -> Key
  {
    (u: Entry) => KeyOf(u)
  }

  // ----- The table is an order-independent aggregate -----

  /** A row exists exactly for the keys written, and holds the sums of count and bytes over their jobs. */
  lemma {:induction false} RowIsSum(us: seq<Entry>, k: Key)
    ensures k in Written(us) <==> exists i :: 0 <= i < |us| && KeyOf(us[i]) == k
    ensures k in Written(us) ==>
              Written(us)[k] == Amount(SumIf(us, GroupIs(KeyFn(), k), CountOf()), SumIf(us, GroupIs(KeyFn(), k), BytesOf()))
    ensures k !in Written(us) ==>
              SumIf(us, GroupIs(KeyFn(), k), CountOf()) == 0 && SumIf(us, GroupIs(KeyFn(), k), BytesOf()) == 0
  {
    if us != [] {
      var n := |us| - 1;
      RowIsSum(us[..n], k);
      if KeyOf(us[n]) != k && k in Written(us) {
        var i :| 0 <= i < |us[..n]| && KeyOf(us[..n][i]) == k;
        assert KeyOf(us[i]) == k;
      }
      if i :| 0 <= i < |us| && KeyOf(us[i]) == k && KeyOf(us[n]) != k {
        assert KeyOf(us[..n][i]) == k;
      }
    }
  }

  lemma {:induction false} SumIfPermutation(xs: seq<Entry>, ys: seq<Entry>, p: Entry -> bool, w: Entry -> int)
    requires multiset(xs) == multiset(ys)
    ensures SumIf(xs, p, w) == SumIf(ys, p, w)
    decreases |xs|
  {
    if xs == [] {
      assert |multiset(ys)| == 0;
    } else {
      var n := |xs| - 1;
      var init, last := xs[..n], xs[n];
      assert xs == init + [last];
      var head, tail := SplitAround(init, last, ys);
      SumIfMiddle(head, last, tail, p, w);
      SumIfAppend(init, last, p, w);
      SumIfPermutation(init, head + tail, p, w);
    }
  }

  /** Where the last element of one order stands in another. */
  lemma SplitAround(init: seq<Entry>, last: Entry, ys: seq<Entry>) returns (head: seq<Entry>, tail: seq<Entry>)
    requires multiset(init + [last]) == multiset(ys)
    ensures ys == head + [last] + tail && multiset(init) == multiset(head + tail)
  {
    assert last in multiset(init + [last]);
    assert last in multiset(ys);
    var k :| 0 <= k < |ys| && ys[k] == last;
    head, tail := ys[..k], ys[k + 1..];
    assert ys == head + [last] + tail;
    SameRest(init, head, last, tail);
  }

  lemma SameRest(init: seq<Entry>, head: seq<Entry>, last: Entry, tail: seq<Entry>)
    requires multiset(init + [last]) == multiset(head + [last] + tail)
    ensures multiset(init) == multiset(head + tail)
  {
    assert multiset(init) == multiset(init + [last]) - multiset{last};
    assert multiset(head + tail) == multiset(head + [last] + tail) - multiset{last};
  }

  lemma SumIfMiddle(head: seq<Entry>, y: Entry, tail: seq<Entry>, p: Entry -> bool, w: Entry -> int)
    ensures SumIf(head + [y] + tail, p, w) == SumIf(head + tail, p, w) + (if p(y) then w(y) else 0)
  {
    SumIfConcat(head + [y], tail, p, w);
    SumIfAppend(head, y, p, w);
    SumIfConcat(head, tail, p, w);
  }

  lemma SameRow(us: seq<Entry>, vs: seq<Entry>, k: Key)
    requires multiset(us) == multiset(vs)
    ensures k in Written(us) <==> k in Written(vs)
    ensures k in Written(us) ==> Written(us)[k] == Written(vs)[k]
  {
    RowIsSum(us, k);
    RowIsSum(vs, k);
    SumIfPermutation(us, vs, GroupIs(KeyFn(), k), CountOf());
    SumIfPermutation(us, vs, GroupIs(KeyFn(), k), BytesOf());
    if i :| 0 <= i < |us| && KeyOf(us[i]) == k {
      SameElement(us, vs, i);
    }
    if i :| 0 <= i < |vs| && KeyOf(vs[i]) == k {
      SameElement(vs, us, i);
    }
  }

  lemma SameElement(xs: seq<Entry>, ys: seq<Entry>, i: nat)
    requires multiset(xs) == multiset(ys) && i < |xs|
    ensures exists j :: 0 <= j < |ys| && ys[j] == xs[i]
  {
    assert xs[i] in multiset(xs);
    assert xs[i] in multiset(ys);
  }

  /** Any order of the same jobs builds the same table. */
  lemma WriteOrderIsIrrelevant(us: seq<Entry>, vs: seq<Entry>)
    requires multiset(us) == multiset(vs)
    ensures Written(us) == Written(vs)
  {
    forall k: Key
      ensures k in Written(us) <==> k in Written(vs)
      ensures k in Written(us) ==> Written(us)[k] == Written(vs)[k]
    {
      SameRow(us, vs, k);
    }
  }

  // ----- Outcomes -----

  /** The part of a finished request that metering reads; rpc is empty for batches and unreadable requests. */
  datatype Outcome = Outcome(tenant: string, rpc: string, minute: int, bytesIn: int)

  /** The usage jobs of a sequence of outcomes: one of count 1 for each with a method name. */
  function UsageJobs(os: seq<Outcome>): seq<Entry>
  {
    if os == [] then []
    else
      var o := os[|os| - 1];
      UsageJobs(os[..|os| - 1]) + (if o.rpc != "" then [Entry(o.tenant, o.rpc, 1, o.bytesIn, o.minute)] else [])
  }

  function ReadBytes(): Outcome -> int
  {
    (o: Outcome) => o.bytesIn
  }

  lemma {:induction false} JobsAreOutcomes(os: seq<Outcome>, k: Key)
    requires k.rpc != ""
    ensures SumIf(UsageJobs(os), GroupIs(KeyFn(), k), CountOf()) == Count(os, IsOutcome(k))
    ensures SumIf(UsageJobs(os), GroupIs(KeyFn(), k), BytesOf()) == SumIf(os, IsOutcome(k), ReadBytes())
  {
    if os != [] {
      var before, o := UsageJobs(os[..|os| - 1]), os[|os| - 1];
      JobsAreOutcomes(os[..|os| - 1], k);
      if o.rpc != "" {
        var u := Entry(o.tenant, o.rpc, 1, o.bytesIn, o.minute);
        SumIfAppend(before, u, GroupIs(KeyFn(), k), CountOf());
        SumIfAppend(before, u, GroupIs(KeyFn(), k), BytesOf());
        assert UsageJobs(os) == before + [u];
      } else {
        assert UsageJobs(os) == before;
      }
    }
  }

  lemma {:induction false} JobsCountOne(os: seq<Outcome>)
    ensures forall i :: 0 <= i < |UsageJobs(os)| ==> UsageJobs(os)[i].count == 1
  {
    if os != [] {
      JobsCountOne(os[..|os| - 1]);
    }
  }

  /** The outcomes that a row of the table stands for. */
  function IsOutcome(k: Key): Outcome -> bool
  {
    (o: Outcome) => o.tenant == k.tenant && o.rpc == k.rpc && o.minute == k.period
  }

  /** Every row meters its own outcomes: when the jobs of a sequence of outcomes have been written, in any order,
      there is a row for a tenant, method and minute exactly if there was such an outcome, with their number and
      the bytes they read. */
  lemma RowsMeterOutcomes(os: seq<Outcome>, us: seq<Entry>, tenant: string, rpc: string, minute: int)
    requires multiset(us) == multiset(UsageJobs(os)) && rpc != ""
    ensures var mine := (o: Outcome) => o.tenant == tenant && o.rpc == rpc && o.minute == minute;
            var t, k := Written(us), Key(tenant, rpc, minute);
            && (k in t <==> Count(os, mine) > 0)
            && (k in t ==> t[k].count == Count(os, mine) && t[k].bytesIn == SumIf(os, mine, (o: Outcome) => o.bytesIn))
  {
    var mine := (o: Outcome) => o.tenant == tenant && o.rpc == rpc && o.minute == minute;
    var k := Key(tenant, rpc, minute);
    WriteOrderIsIrrelevant(us, UsageJobs(os));
    RowIsSum(UsageJobs(os), k);
    JobsAreOutcomes(os, k);
    JobsCountOne(os);
    SumIfPositive(UsageJobs(os), GroupIs(KeyFn(), k), CountOf());
    CountSame(os, IsOutcome(k), mine);
    SumIfSame(os, IsOutcome(k), mine, ReadBytes(), (o: Outcome) => o.bytesIn);
  }

  /** DATE(period), as a day number. */
  function DayOf(period: int): (d: int)
    ensures 1440 * d <= period < 1440 * d + 1440
  {
    period / 1440
  }

  function Matches(tenant: string, day: int): Key -> bool
  {
    (k: Key) => k.tenant == tenant && DayOf(k.period) == day
  }

  function EntryMatches(tenant: string, day: int): Entry -> bool
  {
    (u: Entry) => u.tenant == tenant && DayOf(u.period) == day
  }

  function Metered(tenant: string, day: int): Outcome -> bool
  {
    (o: Outcome) => o.rpc != "" && o.tenant == tenant && DayOf(o.minute) == day
  }

  /** The rows of one tenant and day, each once, in any order. */
  predicate IsListing(out: seq<Entry>, t: Table, tenant: string, day: int)
  {
    && (forall i, j :: 0 <= i < j < |out| ==> KeyOf(out[i]) != KeyOf(out[j]))
    && (forall i :: 0 <= i < |out| ==> KeyOf(out[i]) in t && Matches(tenant, day)(KeyOf(out[i]))
                                       && t[KeyOf(out[i])] == Amount(out[i].count, out[i].bytesIn))
    && (forall k :: k in t && Matches(tenant, day)(k) ==> exists i :: 0 <= i < |out| && KeyOf(out[i]) == k)
  }

  function RowOf(t: Table, k: Key): Entry
    requires k in t
  {
    Entry(k.tenant, k.rpc, t[k].count, t[k].bytesIn, k.period)
  }

  /** The listing as far as the keys outside todo go. */
  predicate ListedSoFar(out: seq<Entry>, t: Table, todo: set<Key>, tenant: string, day: int)
  {
    && (forall i, j :: 0 <= i < j < |out| ==> KeyOf(out[i]) != KeyOf(out[j]))
    && (forall i :: 0 <= i < |out| ==> KeyOf(out[i]) in t && KeyOf(out[i]) !in todo && Matches(tenant, day)(KeyOf(out[i]))
                                       && t[KeyOf(out[i])] == Amount(out[i].count, out[i].bytesIn))
    && (forall k :: k in t && k !in todo && Matches(tenant, day)(k) ==> exists i :: 0 <= i < |out| && KeyOf(out[i]) == k)
  }

  lemma ListOneMore(out: seq<Entry>, t: Table, todo: set<Key>, k: Key, tenant: string, day: int)
    requires ListedSoFar(out, t, todo, tenant, day) && k in todo && k in t
    ensures ListedSoFar(if Matches(tenant, day)(k) then out + [RowOf(t, k)] else out, t, todo - {k}, tenant, day)
  {
    if Matches(tenant, day)(k) {
      var more := out + [RowOf(t, k)];
      assert forall i :: 0 <= i < |out| ==> more[i] == out[i];
      assert KeyOf(more[|out|]) == k;
    }
  }

  lemma ListingSize(out: seq<Entry>, t: Table, tenant: string, day: int)
    requires IsListing(out, t, tenant, day)
    ensures |out| == |set k | k in t && Matches(tenant, day)(k)|
  {
    var ks := KeysOf(out);
    forall k | k in t && Matches(tenant, day)(k)
      ensures k in ks
    {
      var i :| 0 <= i < |out| && KeyOf(out[i]) == k;
      assert ks[i] == k;
    }
    NoRepeatsCover(ks, set k | k in t && Matches(tenant, day)(k));
  }

  /** Listings that agree on all but one row each agree on that one. */
  lemma LastRowIsForced(rest: seq<Entry>, a: Entry, b: Entry, t: Table, tenant: string, day: int)
    requires IsListing(rest + [a], t, tenant, day) && IsListing(rest + [b], t, tenant, day)
    ensures a == b
  {
    var n := |rest|;
    var out, result := rest + [a], rest + [b];
    assert KeyOf(result[n]) in t;
    assert forall j :: 0 <= j < n ==> result[j] == out[j];
    var i :| 0 <= i < |out| && KeyOf(out[i]) == KeyOf(result[n]);
    assert i == n && out[n] == a;
  }

  /** A listing cut short, its last row possibly spoiled, is still a listing only if nothing was lost. */
  lemma CutListingIff(result: seq<Entry>, out: seq<Entry>, n: nat, t: Table, tenant: string, day: int)
    requires IsListing(result, t, tenant, day)
    requires n <= |out| <= n + 1 && |out| <= |result| && out[..n] == result[..n]
    ensures IsListing(out, t, tenant, day) <==> out == result
  {
    if IsListing(out, t, tenant, day) {
      ListingSize(result, t, tenant, day);
      ListingSize(out, t, tenant, day);
      if |out| == n {
        assert out == out[..n] && result == result[..n];
      } else {
        assert out == out[..n] + [out[n]] && result == out[..n] + [result[n]];
        LastRowIsForced(out[..n], out[n], result[n], t, tenant, day);
      }
    }
  }

  lemma {:induction false} MeteredJobs(os: seq<Outcome>, tenant: string, day: int)
    ensures SumIf(UsageJobs(os), EntryMatches(tenant, day), CountOf()) == Count(os, Metered(tenant, day))
  {
    if os != [] {
      MeteredJobs(os[..|os| - 1], tenant, day);
      var o := os[|os| - 1];
      if o.rpc != "" {
        SumIfAppend(UsageJobs(os[..|os| - 1]), Entry(o.tenant, o.rpc, 1, o.bytesIn, o.minute), EntryMatches(tenant, day), CountOf());
      } else {
        assert UsageJobs(os) == UsageJobs(os[..|os| - 1]);
      }
    }
  }

  function KeysOf(out: seq<Entry>): (ks: seq<Key>)
    ensures |ks| == |out|
    ensures forall i :: 0 <= i < |out| ==> ks[i] == KeyOf(out[i])
  {
    seq(|out|, i requires 0 <= i < |out| => KeyOf(out[i]))
  }

  lemma {:induction false} SumOverListing(out: seq<Entry>, sums: Key -> int)
    requires forall i :: 0 <= i < |out| ==> out[i].count == sums(KeyOf(out[i]))
    ensures SumIf(out, All(), CountOf()) == SumIf(KeysOf(out), All(), sums)
  {
    if out != [] {
      var n := |out| - 1;
      assert KeysOf(out)[..n] == KeysOf(out[..n]);
      SumOverListing(out[..n], sums);
    }
  }

  /** Metering adds up end to end: when every usage job of a sequence of outcomes has been written, in any
      order, the counts of a tenant's daily listing sum to the number of its outcomes of that day that had
      a method name. */
  lemma DailyUsageCountsOutcomes(os: seq<Outcome>, us: seq<Entry>, out: seq<Entry>, tenant: string, day: int)
    requires multiset(us) == multiset(UsageJobs(os))
    requires IsListing(out, Written(us), tenant, day)
    ensures SumIf(out, All(), CountOf()) == Count(os, Metered(tenant, day))
  {
    var ks := KeysOf(out);
    forall i | 0 <= i < |out|
      ensures out[i].count == GroupSums(us, KeyFn(), CountOf())(KeyOf(out[i]))
    {
      RowIsSum(us, KeyOf(out[i]));
    }
    SumOverListing(out, GroupSums(us, KeyFn(), CountOf()));
    SumByGroups(us, KeyFn(), ks, All(), CountOf());
    forall i | 0 <= i < |us|
      ensures InGroups(KeyFn(), ks, All())(us[i]) == EntryMatches(tenant, day)(us[i])
    {
      RowIsSum(us, KeyOf(us[i]));
      if EntryMatches(tenant, day)(us[i]) {
        var j :| 0 <= j < |out| && KeyOf(out[j]) == KeyOf(us[i]);
        assert ks[j] == KeyOf(us[i]);
      }
    }
    SumIfSame(us, InGroups(KeyFn(), ks, All()), EntryMatches(tenant, day), CountOf(), CountOf());
    SumIfPermutation(us, UsageJobs(os), EntryMatches(tenant, day), CountOf());
    MeteredJobs(os, tenant, day);
  }

  // ----- The store -----

  class UsageStore {
    var rows: Table

    constructor ()
      ensures rows == Written([])
    {
      rows := map[];
    }

    method RecordUsage(u: Entry)
      modifies this
      ensures rows == Upsert(old(rows), u)
      ensures var k := Key(u.tenant, u.rpc, u.period);
              rows == if k in old(rows) then old(rows)[k := Amount(old(rows)[k].count + u.count, old(rows)[k].bytesIn + u.bytesIn)]
                      else old(rows)[k := Amount(u.count, u.bytesIn)]
    {
      var k := KeyOf(u);
      if k !in rows {
        rows := rows[k := Amount(u.count, u.bytesIn)];
      } else {
        rows := rows[k := rows[k].(count := rows[k].count + u.count, bytesIn := rows[k].bytesIn + u.bytesIn)];
      }
    }

    /** GetDailyUsage: the query's rows, and the loop that collects them. The query may break off after
        delivered rows, and the columns of the next row may not scan, which leaves an entry with what was
        scanned of it and ends the rows; neither is reported. So the listing is right if and only if it is
        all of the query's result. */
    method GetDailyUsage(tenant: string, day: int, delivered: nat, spoiled: Option<Entry>)
      returns (out: seq<Entry>, ghost result: seq<Entry>)
      ensures IsListing(result, rows, tenant, day)
      ensures out == Delivered(result, delivered) + (if delivered < |result| && spoiled.Some? then [spoiled.value] else [])
      ensures IsListing(out, rows, tenant, day) <==> out == result
      ensures forall i :: 0 <= i < |result| ==>
                var u := result[i];
                u.tenant == tenant && 1440 * day <= u.period < 1440 * day + 1440 && Key(u.tenant, u.rpc, u.period) in rows
    {
      var found := QueryDay(tenant, day);
      result := found;
      out := [];
      var i := 0;
      while i < |found| && i < delivered
        invariant 0 <= i <= |found| && i <= delivered
        invariant out == found[..i]
      {
        out := out + [found[i]];
        i := i + 1;
      }
      if i < |found| && spoiled.Some? {
        out := out + [spoiled.value];
      }
      assert i == |found| ==> found[..i] == found;
      CutListingIff(result, out, i, rows, tenant, day);
    }

    /** SELECT ... WHERE tenant_id = $1 AND DATE(period) = DATE($2) */
    method QueryDay(tenant: string, day: int) returns (out: seq<Entry>)
      ensures IsListing(out, rows, tenant, day)
    {
      out := [];
      var todo := rows.Keys;
      while todo != {}
        invariant todo <= rows.Keys && ListedSoFar(out, rows, todo, tenant, day)
        decreases |todo|
      {
        var k :| k in todo;
        ListOneMore(out, rows, todo, k, tenant, day);
        todo := todo - {k};
        if k.tenant == tenant && DayOf(k.period) == day {
          out := out + [RowOf(rows, k)];
        }
      }
    }
  }
}
