/** Tenants and their API keys, as backend/shared/storage/postgres/tenant_store.go keeps them: create,
    rotate, update and delete as atomic transactions, and the prefix-indexed lookup. */
module KeyStore {
  import opened Options

  datatype Tenant = Tenant(id: string, name: string, network: string, quotaRPM: int, quotaRPS: int, quotaDaily: int, plan: string)

  /** An ideal password hash: it verifies against the key it was made of and no other. */
  datatype Hash = Hash(of: string)

  function HashAPIKey(key: string): Hash
  {
    Hash(key)
  }

  predicate VerifyAPIKey(key: string, h: Hash)
  {
    h.of == key
  }

  /** The indexed part of a key: its first twelve characters. */
  function APIKeyPrefix(key: string): (p: string)
    ensures |p| <= 12 && p <= key
    ensures |key| <= 12 ==> p == key
    ensures |key| > 12 ==> |p| == 12
  {
    if |key| > 12 then key[..12] else key
  }

  datatype KeyRow = KeyRow(tenantID: string, name: string, hash: Hash, prefix: string, revoked: bool)

  /** The two tables by primary key; issued is history: every plain key ever handed to the store. */
  datatype DB = DB(tenants: map<string, Tenant>, keys: map<string, KeyRow>, issued: set<string>)

  const EMPTY: DB := DB(map[], map[], {})

  // ----- Operations -----

  /** commits is false when a statement or the commit fails, and the transaction rolls back. Identifiers of
      new rows are generated by the database, keys by the caller. */
  datatype Op =
    | Create(tenant: Tenant, keyID: string, key: string, commits: bool)
    | Rotate(tenantID: string, keyID: string, key: string, commits: bool)
    | Update(tenant: Tenant, commits: bool)
    | Delete(tenantID: string, commits: bool)

  /** Generated identifiers and keys are new. */
  predicate Fresh(db: DB, op: Op)
  {
    match op
    case Create(t, keyID, key, _) => t.id != "" && t.id !in db.tenants && keyID !in db.keys && key !in db.issued
    case Rotate(_, keyID, key, _) => keyID !in db.keys && key !in db.issued
    case Update(_, _) => true
    case Delete(_, _) => true
  }

  function Revoked(keys: map<string, KeyRow>, tenantID: string): map<string, KeyRow>
  {
    map id | id in keys :: if keys[id].tenantID == tenantID then keys[id].(revoked := true) else keys[id]
  }

  function NewRow(tenantID: string, name: string, key: string): KeyRow
  {
    KeyRow(tenantID, name, HashAPIKey(key), APIKeyPrefix(key), false)
  }

  /** CreateTenantWithKey replaces an empty plan. */
  function WithPlan(t: Tenant): Tenant
  {
    if t.plan == "" then t.(plan := "free") else t
  }

  /** A rotation for a tenant that does not exist violates the foreign key and rolls back. */
  function Apply(db: DB, op: Op): DB
  {
    match op
    case Create(t, keyID, key, commits) =>
      if !commits then db.(issued := db.issued + {key})
      else DB(db.tenants[t.id := WithPlan(t)], db.keys[keyID := NewRow(t.id, "default", key)], db.issued + {key})
    case Rotate(tenantID, keyID, key, commits) =>
      if !commits || tenantID !in db.tenants then db.(issued := db.issued + {key})
      else DB(db.tenants, Revoked(db.keys, tenantID)[keyID := NewRow(tenantID, "rotated", key)], db.issued + {key})
    case Update(t, commits) =>
      if !commits || t.id !in db.tenants then db else db.(tenants := db.tenants[t.id := t])
    case Delete(tenantID, commits) =>
      if !commits then db
      else db.(tenants := db.tenants - {tenantID},
               keys := map id | id in db.keys && db.keys[id].tenantID != tenantID :: db.keys[id])
  }

  /** Any sequence of operations; one whose generated values are not new does not happen. */
  function Exec(db: DB, ops: seq<Op>): DB
  {
    if ops == [] then db
    else
      var before := Exec(db, ops[..|ops| - 1]);
      if Fresh(before, ops[|ops| - 1]) then Apply(before, ops[|ops| - 1]) else before
  }

  // ----- The lookup -----

  predicate Matches(db: DB, id: string, key: string)
  {
    id in db.keys && !db.keys[id].revoked && VerifyAPIKey(key, db.keys[id].hash)
  }

  /** Whose key it is: what verifying it against every unrevoked row finds. */
  ghost function Owner(db: DB, key: string): Option<string>
  {
    if id :| Matches(db, id, key) then Some(db.keys[id].tenantID) else None
  }

  function TenantById(db: DB, id: string): Option<Tenant>
  {
    if id in db.tenants then Some(db.tenants[id]) else None
  }

  /** The tenant of the key, both queries at one moment. */
  ghost function Resolve(db: DB, key: string): Option<Tenant>
  {
    if Owner(db, key).Some? then TenantById(db, Owner(db, key).value) else None
  }

  /** The rows that the indexed query returns. */
  function Candidates(db: DB, prefix: string): set<string>
  {
    set id | id in db.keys && db.keys[id].prefix == prefix && !db.keys[id].revoked
  }

  // ----- The invariant -----

  /** Every key row belongs to a tenant and was made from an issued key. */
  predicate SoundRows(db: DB)
  {
    && "" !in db.tenants
    && (forall t :: t in db.tenants ==> db.tenants[t].id == t)
    && (forall id :: id in db.keys ==> db.keys[id].tenantID in db.tenants && db.keys[id].hash.of in db.issued
                                       && db.keys[id].prefix == APIKeyPrefix(db.keys[id].hash.of))
  }

  predicate DistinctKeys(db: DB)
  {
    forall i, j :: i in db.keys && j in db.keys && i != j ==> db.keys[i].hash != db.keys[j].hash
  }

  predicate LiveRow(db: DB, id: string, tenantID: string)
  {
    id in db.keys && db.keys[id].tenantID == tenantID && !db.keys[id].revoked
  }

  ghost predicate AtMostOneLive(db: DB)
  {
    forall i, j, t :: LiveRow(db, i, t) && LiveRow(db, j, t) ==> i == j
  }

  ghost predicate AtLeastOneLive(db: DB)
  {
    forall t :: t in db.tenants ==> exists id :: LiveRow(db, id, t)
  }

  ghost predicate Valid(db: DB)
  {
    SoundRows(db) && DistinctKeys(db) && AtMostOneLive(db) && AtLeastOneLive(db)
  }

  lemma ApplyKeepsSoundRows(db: DB, op: Op)
    requires SoundRows(db) && Fresh(db, op)
    ensures SoundRows(Apply(db, op))
  {
    var after := Apply(db, op);
    assert op.Rotate? ==> after.tenants == db.tenants;
    forall id | id in after.keys
      ensures after.keys[id].tenantID in after.tenants && after.keys[id].hash.of in after.issued
              && after.keys[id].prefix == APIKeyPrefix(after.keys[id].hash.of)
    {
      assert id in db.keys ==> db.keys[id].tenantID in db.tenants;
    }
  }

  lemma ApplyKeepsDistinctKeys(db: DB, op: Op)
    requires SoundRows(db) && DistinctKeys(db) && Fresh(db, op)
    ensures DistinctKeys(Apply(db, op))
  {
    var after := Apply(db, op);
    forall i, j | i in after.keys && j in after.keys && i != j
      ensures after.keys[i].hash != after.keys[j].hash
    {
      assert i in db.keys ==> after.keys[i].hash == db.keys[i].hash;
      assert j in db.keys ==> after.keys[j].hash == db.keys[j].hash;
    }
  }

  lemma ApplyKeepsAtMostOne(db: DB, op: Op)
    requires SoundRows(db) && AtMostOneLive(db) && Fresh(db, op)
    ensures AtMostOneLive(Apply(db, op))
  {
    var after := Apply(db, op);
    forall i, j, t | LiveRow(after, i, t) && LiveRow(after, j, t)
      ensures i == j
    {
      assert i in db.keys ==> LiveRow(db, i, t);
      assert j in db.keys ==> LiveRow(db, j, t);
    }
  }

  lemma ApplyKeepsAtLeastOne(db: DB, op: Op)
    requires AtLeastOneLive(db) && Fresh(db, op)
    ensures AtLeastOneLive(Apply(db, op))
  {
    var after := Apply(db, op);
    forall t | t in after.tenants
      ensures exists id :: LiveRow(after, id, t)
    {
      if (op.Create? && t !in db.tenants) || (op.Rotate? && op.commits && t == op.tenantID) {
        assert LiveRow(after, op.keyID, t);
      } else {
        var id :| LiveRow(db, id, t);
        assert LiveRow(after, id, t);
      }
    }
  }

  lemma ApplyKeepsValid(db: DB, op: Op)
    requires Valid(db) && Fresh(db, op)
    ensures Valid(Apply(db, op))
  {
    ApplyKeepsSoundRows(db, op);
    ApplyKeepsDistinctKeys(db, op);
    ApplyKeepsAtMostOne(db, op);
    ApplyKeepsAtLeastOne(db, op);
  }

  /** In every state reached by operations, failed ones included, each tenant has exactly one unrevoked
      key, every key row belongs to a tenant, and no two rows hold the same key. */
  lemma {:induction false} OneLiveKeyPerTenant(ops: seq<Op>)
    ensures Valid(Exec(EMPTY, ops))
  {
    if ops != [] {
      var before := Exec(EMPTY, ops[..|ops| - 1]);
      OneLiveKeyPerTenant(ops[..|ops| - 1]);
      if Fresh(before, ops[|ops| - 1]) {
        ApplyKeepsValid(before, ops[|ops| - 1]);
      }
    }
  }

  // ----- Resolution -----

  /** The matching row is unique, so the lookup does not depend on the order of rows. */
  lemma OwnerIs(db: DB, id: string, key: string)
    requires Valid(db) && Matches(db, id, key)
    ensures Owner(db, key) == Some(db.keys[id].tenantID)
    ensures db.keys[id].tenantID in db.tenants && Resolve(db, key) == Some(db.tenants[db.keys[id].tenantID])
  {
  }

  /** The key is spent: it was issued, and resolves no more. */
  ghost predicate Dead(db: DB, key: string)
  {
    key in db.issued && forall id :: !Matches(db, id, key)
  }

  lemma ApplyKeepsDead(db: DB, op: Op, key: string)
    requires Dead(db, key) && Fresh(db, op)
    ensures Dead(Apply(db, op), key)
  {
    var after := Apply(db, op);
    forall id
      ensures !Matches(after, id, key)
    {
      assert !Matches(db, id, key);
    }
  }

  /** A key that has stopped resolving never resolves again, whatever happens to the store: no later
      operation, not even deleting its tenant, brings it back. */
  lemma {:induction false} DeadKeysStayDead(db: DB, ops: seq<Op>, key: string)
    requires Dead(db, key)
    ensures Dead(Exec(db, ops), key) && Resolve(Exec(db, ops), key) == None
  {
    if ops != [] {
      var before := Exec(db, ops[..|ops| - 1]);
      DeadKeysStayDead(db, ops[..|ops| - 1], key);
      if Fresh(before, ops[|ops| - 1]) {
        ApplyKeepsDead(before, ops[|ops| - 1], key);
      }
    }
  }

  /** A committed rotation or deletion of a tenant. */
  predicate Revokes(op: Op, tenantID: string)
  {
    (op.Rotate? || op.Delete?) && op.tenantID == tenantID && op.commits
  }

  /** It kills the tenant's key. */
  lemma RevocationKills(db: DB, op: Op, key: string)
    requires Valid(db) && Fresh(db, op)
    requires Owner(db, key).Some? && Revokes(op, Owner(db, key).value)
    ensures Dead(Apply(db, op), key)
  {
    var id :| Matches(db, id, key);
    OwnerIs(db, id, key);
    KillsRow(db, op, id, key);
  }

  lemma KillsRow(db: DB, op: Op, id: string, key: string)
    requires SoundRows(db) && DistinctKeys(db) && Fresh(db, op)
    requires Matches(db, id, key) && Revokes(op, db.keys[id].tenantID)
    ensures Dead(Apply(db, op), key)
  {
    forall k
      ensures !Matches(Apply(db, op), k, key)
    {
      if k != id && k in db.keys {
        assert db.keys[k].hash != db.keys[id].hash;
      }
    }
  }

  /** A committed rotation kills the tenant's old key and makes the new one resolve to the tenant. */
  lemma RotationReplacesTheKey(db: DB, op: Op, previous: string)
    requires Valid(db) && op.Rotate? && Fresh(db, op) && op.commits
    requires Resolve(db, previous).Some? && Resolve(db, previous).value.id == op.tenantID
    ensures Dead(Apply(db, op), previous)
    ensures Resolve(Apply(db, op), op.key) == Some(db.tenants[op.tenantID])
  {
    var id :| Matches(db, id, previous);
    OwnerIs(db, id, previous);
    KillsRow(db, op, id, previous);
    ApplyKeepsValid(db, op);
    assert Matches(Apply(db, op), op.keyID, op.key);
    OwnerIs(Apply(db, op), op.keyID, op.key);
  }

  // ----- What each operation does to resolution -----

  /** A key is a tenant's exactly if some unrevoked row of the tenant holds its hash. */
  lemma OwnerMeans(db: DB, key: string, tenantID: string)
    requires Valid(db)
    ensures Owner(db, key) == Some(tenantID) <==>
            exists id :: id in db.keys && !db.keys[id].revoked && db.keys[id].hash.of == key && db.keys[id].tenantID == tenantID
  {
    if id :| id in db.keys && !db.keys[id].revoked && db.keys[id].hash.of == key && db.keys[id].tenantID == tenantID {
      assert Matches(db, id, key);
      OwnerIs(db, id, key);
    }
    if id :| Matches(db, id, key) {
      OwnerIs(db, id, key);
    }
  }

  /** The tenant an operation is about. */
  function Subject(op: Op): string
  {
    match op
    case Create(t, _, _, _) => t.id
    case Rotate(tenantID, _, _, _) => tenantID
    case Update(t, _) => t.id
    case Delete(tenantID, _) => tenantID
  }

  lemma RowStays(db: DB, op: Op, id: string, key: string)
    requires Fresh(db, op) && Matches(db, id, key) && db.keys[id].tenantID != Subject(op) && db.keys[id].tenantID in db.tenants
    ensures var after, t := Apply(db, op), db.keys[id].tenantID;
            Matches(after, id, key) && after.keys[id] == db.keys[id] && t in after.tenants && after.tenants[t] == db.tenants[t]
  {
  }

  /** No operation, committed or not, touches what the keys of other tenants resolve to. */
  lemma OthersKeepResolving(db: DB, op: Op, key: string)
    requires Valid(db) && Fresh(db, op)
    requires Resolve(db, key).Some? && Resolve(db, key).value.id != Subject(op)
    ensures Resolve(Apply(db, op), key) == Resolve(db, key)
  {
    var id :| Matches(db, id, key);
    OwnerIs(db, id, key);
    RowStays(db, op, id, key);
    ApplyKeepsValid(db, op);
    OwnerIs(Apply(db, op), id, key);
  }

  /** And it leaves the rows of other tenants as they are. */
  lemma OthersKeepTheirRows(db: DB, op: Op, tenantID: string)
    requires Fresh(db, op) && tenantID != Subject(op)
    ensures TenantById(Apply(db, op), tenantID) == TenantById(db, tenantID)
  {
  }

  /** An operation that does not commit leaves both tables as they are. */
  lemma RollbackChangesNothing(db: DB, op: Op)
    requires !op.commits
    ensures Apply(db, op).tenants == db.tenants && Apply(db, op).keys == db.keys
  {
  }

  /** A committed creation makes the new key resolve to the given columns, an empty plan becoming "free". */
  lemma CreationResolves(db: DB, op: Op)
    requires Valid(db) && op.Create? && Fresh(db, op) && op.commits
    ensures var t := op.tenant;
            Resolve(Apply(db, op), op.key) ==
            Some(Tenant(t.id, t.name, t.network, t.quotaRPM, t.quotaRPS, t.quotaDaily, if t.plan == "" then "free" else t.plan))
  {
    ApplyKeepsValid(db, op);
    assert Matches(Apply(db, op), op.keyID, op.key);
    OwnerIs(Apply(db, op), op.keyID, op.key);
  }

  /** A committed update of an existing tenant makes its key resolve to the new columns. */
  lemma UpdateResolves(db: DB, op: Op, key: string)
    requires Valid(db) && op.Update? && op.commits && Owner(db, key) == Some(op.tenant.id)
    ensures Resolve(Apply(db, op), key) == Some(op.tenant)
  {
    var id :| Matches(db, id, key);
    OwnerIs(db, id, key);
    ApplyKeepsValid(db, op);
    assert Matches(Apply(db, op), id, key);
    OwnerIs(Apply(db, op), id, key);
  }

  // ----- The store -----

  class Store {
    var tenants: map<string, Tenant>
    var keys: map<string, KeyRow>
    ghost var issued: set<string>

    ghost function View(): DB
      reads this
    {
      DB(tenants, keys, issued)
    }

    constructor ()
      ensures View() == EMPTY
    {
      tenants, keys, issued := map[], map[], {};
    }

    method CreateTenantWithKey(t: Tenant, keyID: string, plainAPIKey: string, commits: bool) returns (r: Option<Tenant>)
      requires Fresh(View(), Create(t, keyID, plainAPIKey, commits))
      modifies this
      ensures View() == Apply(old(View()), Create(t, keyID, plainAPIKey, commits))
      ensures r == if commits then Some(tenants[t.id]) else None
      ensures commits ==>
                && tenants == old(tenants)[t.id := t.(plan := if t.plan == "" then "free" else t.plan)]
                && keys == old(keys)[keyID := KeyRow(t.id, "default", Hash(plainAPIKey), APIKeyPrefix(plainAPIKey), false)]
      ensures !commits ==> tenants == old(tenants) && keys == old(keys)
    {
      issued := issued + {plainAPIKey};
      var tenant := t;
      if tenant.plan == "" {
        tenant := tenant.(plan := "free");
      }
      var row := KeyRow(tenant.id, "default", HashAPIKey(plainAPIKey), APIKeyPrefix(plainAPIKey), false);
      if !commits {
        return None;
      }
      tenants, keys := tenants[tenant.id := tenant], keys[keyID := row];
      return Some(tenant);
    }

    method RotateAPIKey(tenantID: string, keyID: string, plainAPIKey: string, commits: bool) returns (ok: bool)
      requires Fresh(View(), Rotate(tenantID, keyID, plainAPIKey, commits))
      modifies this
      ensures View() == Apply(old(View()), Rotate(tenantID, keyID, plainAPIKey, commits))
      ensures ok <==> commits && tenantID in tenants
      ensures tenants == old(tenants) && (!ok ==> keys == old(keys))
      ensures ok ==>
                && keys.Keys == old(keys).Keys + {keyID}
                && keys[keyID] == KeyRow(tenantID, "rotated", Hash(plainAPIKey), APIKeyPrefix(plainAPIKey), false)
                && forall id :: id in old(keys) ==>
                     keys[id] == old(keys)[id].(revoked := old(keys)[id].revoked || old(keys)[id].tenantID == tenantID)
    {
      issued := issued + {plainAPIKey};
      var updated := map id | id in keys :: if keys[id].tenantID == tenantID && !keys[id].revoked then keys[id].(revoked := true) else keys[id];
      if tenantID !in tenants || !commits {
        return false;
      }
      keys := updated[keyID := KeyRow(tenantID, "rotated", HashAPIKey(plainAPIKey), APIKeyPrefix(plainAPIKey), false)];
      return true;
    }

    method UpdateTenant(t: Tenant, commits: bool)
      modifies this
      ensures View() == Apply(old(View()), Update(t, commits))
      ensures tenants == (if commits && t.id in old(tenants) then old(tenants)[t.id := t] else old(tenants)) && keys == old(keys)
    {
      if commits && t.id in tenants {
        tenants := tenants[t.id := t];
      }
    }

    method DeleteTenant(tenantID: string, commits: bool)
      modifies this
      ensures View() == Apply(old(View()), Delete(tenantID, commits))
      ensures commits ==> tenants == old(tenants) - {tenantID}
      ensures commits ==> forall id :: id in keys <==> id in old(keys) && old(keys)[id].tenantID != tenantID
      ensures !commits ==> tenants == old(tenants) && keys == old(keys)
      ensures forall id :: id in keys ==> id in old(keys) && keys[id] == old(keys)[id]
    {
      if commits {
        tenants := tenants - {tenantID};
        keys := map id | id in keys && keys[id].tenantID != tenantID :: keys[id];
      }
    }

    /** The key query and its loop: rows are those of the query's result that arrived, in whatever order. A
        tenant it finds is the one that verifying the key against every unrevoked row would; it finds it if and
        only if the matching row arrived, which it did if all arrived. The empty string is no tenant. */
    method MatchKey(key: string, rows: seq<string>) returns (tenantID: string)
      requires Valid(View())
      requires forall id :: id in rows ==> id in Candidates(View(), APIKeyPrefix(key))
      ensures tenantID != "" ==> Owner(View(), key) == Some(tenantID)
      ensures tenantID != "" <==>
                exists i :: 0 <= i < |rows| && rows[i] in keys && !keys[rows[i]].revoked && keys[rows[i]].hash.of == key
      ensures (forall id :: id in Candidates(View(), APIKeyPrefix(key)) ==> id in rows) ==>
                Owner(View(), key) == if tenantID == "" then None else Some(tenantID)
    {
      tenantID := "";
      var i := 0;
      while i < |rows|
        invariant 0 <= i <= |rows|
        invariant tenantID == ""
        invariant forall k :: 0 <= k < i ==> !Matches(View(), rows[k], key)
      {
        assert rows[i] in Candidates(View(), APIKeyPrefix(key));
        var row := keys[rows[i]];
        if VerifyAPIKey(key, row.hash) {
          tenantID := row.tenantID;
          assert Matches(View(), rows[i], key);
          OwnerIs(View(), rows[i], key);
          return;
        }
        i := i + 1;
      }
      assert forall id :: Matches(View(), id, key) ==> id in Candidates(View(), APIKeyPrefix(key));
    }

    method GetTenantByID(id: string) returns (r: Option<Tenant>)
      ensures r == TenantById(View(), id)
    {
      r := if id in tenants then Some(tenants[id]) else None;
    }

    /** The whole lookup with no operation between its two queries. */
    method GetTenantByAPIKey(key: string, rows: seq<string>) returns (r: Option<Tenant>)
      requires Valid(View())
      requires forall id :: id in rows <==> id in Candidates(View(), APIKeyPrefix(key))
      ensures r == Resolve(View(), key)
    {
      var tenantID := MatchKey(key, rows);
      if tenantID == "" {
        return None;
      }
      r := GetTenantByID(tenantID);
    }
  }
}
