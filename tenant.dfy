/**
 * Tenants, their expiring authentication keys, and the in-memory tenant
 * store with its id and auth-key indexes.  Time is an explicit `now` in
 * seconds; fresh ids and key tokens (uuid4 in the source) are parameters.
 */
module Tenants {
  import opened Wrappers

  const DAY: int := 86400
  const DEFAULT_EXPIRATION_DAYS: int := 365

  /** Free-form tenant metadata, kept verbatim and never interpreted. */
  type Metadata = map<string, string>

  /** An opaque tenant credential; only `active` ever changes, and only to false. */
  datatype TenantAuthKey = TenantAuthKey(key: string, createdAt: int, expiresAt: int, active: bool) {

    /** Valid while active and strictly before the expiry instant. */
    predicate IsValid(now: int) {
      active && now < expiresAt
    }

    /** The key after `revoke`: same token and timestamps, never valid again. */
    function Revoke(): (r: TenantAuthKey)
      ensures !r.active && r.key == key && r.createdAt == createdAt && r.expiresAt == expiresAt
      ensures forall now :: !r.IsValid(now)
    {
      this.(active := false)
    }
  }

  /** `TenantAuthKey.create`: a fresh active key expiring `expirationDays` days after `now`. */
  function CreateAuthKey(token: string, now: int, expirationDays: int): (k: TenantAuthKey)
    ensures k.key == token && k.active && k.createdAt == now
    ensures forall t :: k.IsValid(t) <==> t < now + expirationDays * DAY
    ensures expirationDays > 0 ==> k.IsValid(now)
    ensures !k.IsValid(k.expiresAt)
  {
    TenantAuthKey(token, now, now + expirationDays * DAY, true)
  }

  /** The tokens of a list of keys. */
  function Tokens(keys: seq<TenantAuthKey>): set<string> {
    set i | 0 <= i < |keys| :: keys[i].key
  }

  /** The tokens of the keys of a list that are valid at `now`. */
  function ValidTokens(keys: seq<TenantAuthKey>, now: int): set<string> {
    set i | 0 <= i < |keys| && keys[i].IsValid(now) :: keys[i].key
  }

  /** No two keys of the list share a token. */
  predicate UniqueTokens(keys: seq<TenantAuthKey>) {
    forall i, j :: 0 <= i < |keys| && 0 <= j < |keys| && keys[i].key == keys[j].key ==> i == j
  }

  /** The position of the first key valid at `now`, in list order. */
  function FirstValidIndex(keys: seq<TenantAuthKey>, now: int): (r: Option<nat>)
    ensures r.None? <==> forall i :: 0 <= i < |keys| ==> !keys[i].IsValid(now)
    ensures r.Some? ==> r.value < |keys| && keys[r.value].IsValid(now)
    ensures r.Some? ==> forall j :: 0 <= j < r.value ==> !keys[j].IsValid(now)
  {
    if keys == [] then None
    else if keys[0].IsValid(now) then Some(0)
    else
      var rest := FirstValidIndex(keys[1..], now);
      assert forall i :: 1 <= i < |keys| ==> keys[i] == keys[1..][i - 1];
      if rest.Some? then Some(rest.value + 1) else None
  }

  /** The position of the first key whose token is `token`. */
  function FirstMatch(keys: seq<TenantAuthKey>, token: string): (r: Option<nat>)
    ensures r.None? <==> token !in Tokens(keys)
    ensures r.Some? ==> r.value < |keys| && keys[r.value].key == token
    ensures r.Some? ==> forall j :: 0 <= j < r.value ==> keys[j].key != token
  {
    if keys == [] then None
    else if keys[0].key == token then Some(0)
    else
      var rest := FirstMatch(keys[1..], token);
      assert forall i :: 1 <= i < |keys| ==> keys[i] == keys[1..][i - 1];
      assert Tokens(keys) == {keys[0].key} + Tokens(keys[1..]) by {
        forall t | t in Tokens(keys) ensures t in {keys[0].key} + Tokens(keys[1..]) {
          var i :| 0 <= i < |keys| && keys[i].key == t;
          if i > 0 { assert keys[1..][i - 1].key == t; }
        }
      }
      if rest.Some? then Some(rest.value + 1) else None
  }

  /** `revoke_auth_key` on values: the first key with this token is revoked, every other key is untouched. */
  function RevokeFirst(keys: seq<TenantAuthKey>, token: string): (r: seq<TenantAuthKey>)
    ensures |r| == |keys|
    ensures token !in Tokens(keys) ==> r == keys
    ensures token in Tokens(keys) ==>
              exists m :: 0 <= m < |keys| && keys[m].key == token && (forall j :: 0 <= j < m ==> keys[j].key != token) &&
                          r[m] == keys[m].Revoke() && forall j :: 0 <= j < |keys| && j != m ==> r[j] == keys[j]
  {
    var m := FirstMatch(keys, token);
    if m.Some? then keys[m.value := keys[m.value].Revoke()] else keys
  }

  /** Appending a key never changes which earlier key is the first valid one. */
  lemma {:induction false} FirstValidAppend(keys: seq<TenantAuthKey>, k: TenantAuthKey, now: int)
    ensures FirstValidIndex(keys + [k], now) ==
            if FirstValidIndex(keys, now).Some? then FirstValidIndex(keys, now)
            else if k.IsValid(now) then Some(|keys|) else None
  {
    if keys != [] {
      assert (keys + [k])[1..] == keys[1..] + [k];
      FirstValidAppend(keys[1..], k, now);
    }
  }

  /** An organisation with its rotating list of auth keys. */
  class Tenant {
    const id: string
    const name: string
    const domain: string
    const createdAt: int
    const metadata: Metadata
    var authKeys: seq<TenantAuthKey>
    var active: bool

    /** `Tenant.create` with `__post_init__`: active, one default key, metadata `{}` when none is given. */
    constructor Create(name: string, domain: string, metadata: Option<Metadata>, id: string, token: string, now: int)
      requires id != ""
      ensures this.id == id && this.name == name && this.domain == domain && this.createdAt == now
      ensures this.metadata == metadata.GetOr(map[])
      ensures active
      ensures authKeys == [CreateAuthKey(token, now, DEFAULT_EXPIRATION_DAYS)]
      ensures GetValidAuthKey(now) == Some(authKeys[0])
      ensures UniqueTokens(authKeys)
    {
      this.id := id;
      this.name := name;
      this.domain := domain;
      this.createdAt := now;
      this.metadata := metadata.GetOr(map[]);
      authKeys := [CreateAuthKey(token, now, DEFAULT_EXPIRATION_DAYS)];
      active := true;
    }

    /** The first key in list order that is valid at `now`, or none when no key is. */
    function GetValidAuthKey(now: int): (r: Option<TenantAuthKey>)
      reads this
      ensures r.None? <==> forall i :: 0 <= i < |authKeys| ==> !authKeys[i].IsValid(now)
      ensures r.Some? ==> exists i :: 0 <= i < |authKeys| && authKeys[i] == r.value && r.value.IsValid(now) &&
                                     forall j :: 0 <= j < i ==> !authKeys[j].IsValid(now)
    {
      var i := FirstValidIndex(authKeys, now);
      if i.Some? then Some(authKeys[i.value]) else None
    }

    /** Key rotation: appends exactly one new key and leaves every earlier key as it was. */
    method GenerateNewAuthKey(token: string, now: int, expirationDays: int) returns (k: TenantAuthKey)
      requires token !in Tokens(authKeys)
      modifies this
      ensures k == CreateAuthKey(token, now, expirationDays)
      ensures authKeys == old(authKeys) + [k]
      ensures active == old(active)
      ensures UniqueTokens(old(authKeys)) ==> UniqueTokens(authKeys)
      ensures GetValidAuthKey(now) == if old(GetValidAuthKey(now)).Some? then old(GetValidAuthKey(now))
                                      else if expirationDays > 0 then Some(k) else None
    {
      k := CreateAuthKey(token, now, expirationDays);
      FirstValidAppend(authKeys, k, now);
      authKeys := authKeys + [k];
    }

    /** Revokes the first key whose token is `key`; reports whether there was one. */
    method RevokeAuthKey(key: string) returns (found: bool)
      modifies this
      ensures found <==> key in Tokens(old(authKeys))
      ensures authKeys == RevokeFirst(old(authKeys), key)
      ensures active == old(active)
      ensures UniqueTokens(old(authKeys)) ==> UniqueTokens(authKeys)
    {
      var i := 0;
      while i < |authKeys|
        invariant 0 <= i <= |authKeys| && authKeys == old(authKeys)
        invariant forall j :: 0 <= j < i ==> authKeys[j].key != key
      {
        if authKeys[i].key == key {
          assert FirstMatch(authKeys, key) == Some(i);
          authKeys := authKeys[i := authKeys[i].Revoke()];
          return true;
        }
        i := i + 1;
      }
      assert FirstMatch(authKeys, key).None?;
      found := false;
    }

    /** Hard lockout: the tenant is inactive and every key is revoked. */
    method Deactivate()
      modifies this
      ensures !active
      ensures |authKeys| == |old(authKeys)|
      ensures forall i :: 0 <= i < |authKeys| ==> authKeys[i] == old(authKeys)[i].Revoke()
      ensures forall now :: GetValidAuthKey(now).None?
      ensures UniqueTokens(old(authKeys)) ==> UniqueTokens(authKeys)
    {
      active := false;
      var i := 0;
      while i < |authKeys|
        invariant !active
        invariant 0 <= i <= |authKeys| == |old(authKeys)|
        invariant forall j :: 0 <= j < i ==> authKeys[j] == old(authKeys)[j].Revoke()
        invariant forall j :: i <= j < |authKeys| ==> authKeys[j] == old(authKeys)[j]
      {
        authKeys := authKeys[i := authKeys[i].Revoke()];
        i := i + 1;
      }
    }

    /** Reactivation: only an inactive tenant changes; it mints one key only when no key is valid. */
    method Reactivate(token: string, now: int)
      requires token !in Tokens(authKeys)
      modifies this
      ensures active
      ensures old(active) || old(GetValidAuthKey(now)).Some? ==> authKeys == old(authKeys)
      ensures !old(active) && old(GetValidAuthKey(now)).None? ==>
                authKeys == old(authKeys) + [CreateAuthKey(token, now, DEFAULT_EXPIRATION_DAYS)]
      ensures !old(active) ==> GetValidAuthKey(now).Some?
      ensures UniqueTokens(old(authKeys)) ==> UniqueTokens(authKeys)
    {
      if !active {
        active := true;
        if GetValidAuthKey(now).None? {
          var _ := GenerateNewAuthKey(token, now, DEFAULT_EXPIRATION_DAYS);
        }
      }
    }
  }

  /** The per-request pairing of a tenant id with the tenant it names. */
  datatype TenantContext = TenantContext(tenantId: string, tenant: Tenant) {
    predicate IsValid()
      reads tenant
    {
      tenant.active
    }
  }

  /** The position in `ids` of the first tenant with this domain that is active. */
  function FirstActiveWithDomainIndex(ids: seq<string>, m: map<string, Tenant>, ghost objs: set<Tenant>, domain: string): (r: Option<nat>)
    requires forall i :: 0 <= i < |ids| ==> ids[i] in m && m[ids[i]] in objs
    reads objs
    ensures r.None? <==> forall i :: 0 <= i < |ids| ==> !(m[ids[i]].domain == domain && m[ids[i]].active)
    ensures r.Some? ==> r.value < |ids| && m[ids[r.value]].domain == domain && m[ids[r.value]].active
    ensures r.Some? ==> forall j :: 0 <= j < r.value ==> !(m[ids[j]].domain == domain && m[ids[j]].active)
  {
    if ids == [] then None
    else if m[ids[0]].domain == domain && m[ids[0]].active then Some(0)
    else
      assert forall i :: 1 <= i < |ids| ==> ids[i] == ids[1..][i - 1];
      var r := FirstActiveWithDomainIndex(ids[1..], m, objs, domain);
      if r.Some? then Some(r.value + 1) else None
  }

  /** The first tenant, in `ids` order, with this domain that is active. */
  function FirstActiveWithDomain(ids: seq<string>, m: map<string, Tenant>, ghost objs: set<Tenant>, domain: string): (r: Option<Tenant>)
    requires forall i :: 0 <= i < |ids| ==> ids[i] in m && m[ids[i]] in objs
    reads objs
    ensures r.None? <==> forall i :: 0 <= i < |ids| ==> !(m[ids[i]].domain == domain && m[ids[i]].active)
    ensures r.Some? ==> r.value.domain == domain && r.value.active
    ensures r.Some? ==> exists i :: 0 <= i < |ids| && m[ids[i]] == r.value &&
                                   forall j :: 0 <= j < i ==> !(m[ids[j]].domain == domain && m[ids[j]].active)
  {
    var i := FirstActiveWithDomainIndex(ids, m, objs, domain);
    if i.Some? then Some(m[ids[i.value]]) else None
  }

  /** The active tenants of `ids`, in `ids` order. */
  function ActiveTenants(ids: seq<string>, m: map<string, Tenant>, ghost objs: set<Tenant>): (r: seq<Tenant>)
    requires forall i :: 0 <= i < |ids| ==> ids[i] in m && m[ids[i]] in objs
    reads objs
    ensures forall k :: 0 <= k < |r| ==> r[k].active && exists i :: 0 <= i < |ids| && m[ids[i]] == r[k]
    ensures forall i :: 0 <= i < |ids| && m[ids[i]].active ==> m[ids[i]] in r
  {
    if ids == [] then []
    else
      assert forall i :: 1 <= i < |ids| ==> ids[i] == ids[1..][i - 1];
      var rest := ActiveTenants(ids[1..], m, objs);
      if m[ids[0]].active then [m[ids[0]]] + rest else rest
  }

  lemma {:induction false} FirstActiveWithDomainIndexAppend(ids: seq<string>, m: map<string, Tenant>, objs: set<Tenant>, id: string, t: Tenant, domain: string)
    requires forall i :: 0 <= i < |ids| ==> ids[i] in m && m[ids[i]] in objs
    requires id !in ids
    ensures FirstActiveWithDomainIndex(ids + [id], m[id := t], objs + {t}, domain) ==
            if FirstActiveWithDomainIndex(ids, m, objs, domain).Some? then FirstActiveWithDomainIndex(ids, m, objs, domain)
            else if t.domain == domain && t.active then Some(|ids|) else None
  {
    if ids != [] {
      assert (ids + [id])[1..] == ids[1..] + [id];
      FirstActiveWithDomainIndexAppend(ids[1..], m, objs, id, t, domain);
    }
  }

  /** Registering one more tenant after `ids` leaves every earlier domain match in place. */
  lemma FirstActiveWithDomainAppend(ids: seq<string>, m: map<string, Tenant>, objs: set<Tenant>, id: string, t: Tenant, domain: string)
    requires forall i :: 0 <= i < |ids| ==> ids[i] in m && m[ids[i]] in objs
    requires id !in ids
    ensures FirstActiveWithDomain(ids + [id], m[id := t], objs + {t}, domain) ==
            if FirstActiveWithDomain(ids, m, objs, domain).Some? then FirstActiveWithDomain(ids, m, objs, domain)
            else if t.domain == domain && t.active then Some(t) else None
  {
    FirstActiveWithDomainIndexAppend(ids, m, objs, id, t, domain);
    var i := FirstActiveWithDomainIndex(ids, m, objs, domain);
    if i.Some? {
      assert (ids + [id])[i.value] == ids[i.value];
    }
  }

  lemma {:induction false} ActiveTenantsAppend(ids: seq<string>, m: map<string, Tenant>, objs: set<Tenant>, id: string, t: Tenant)
    requires forall i :: 0 <= i < |ids| ==> ids[i] in m && m[ids[i]] in objs
    requires id !in ids
    ensures ActiveTenants(ids + [id], m[id := t], objs + {t}) == ActiveTenants(ids, m, objs) + if t.active then [t] else []
  {
    if ids != [] {
      assert (ids + [id])[1..] == ids[1..] + [id];
      ActiveTenantsAppend(ids[1..], m, objs, id, t);
    }
  }

  /**
   * How the store's fields fit together: `order` lists each stored id exactly
   * once, every stored tenant is owned and is stored under its own id, and the
   * empty id (falsy in Python) is never used.
   */
  ghost predicate StoreInvariant(tenants: map<string, Tenant>, order: seq<string>, repr: set<Tenant>) {
    && (forall id :: id in tenants ==> tenants[id] in repr)
    && (forall i :: 0 <= i < |order| ==> order[i] in tenants)
    && (forall id :: id in tenants ==> id in order)
    && (forall i, j :: 0 <= i < j < |order| ==> order[i] != order[j])
    && (forall id :: id in tenants ==> tenants[id].id == id)
    && "" !in tenants
  }

  /** Storing a tenant under a fresh, non-empty id of its own keeps the invariant. */
  lemma InsertKeepsStoreInvariant(tenants: map<string, Tenant>, order: seq<string>, repr: set<Tenant>, id: string, t: Tenant)
    requires StoreInvariant(tenants, order, repr)
    requires id != "" && id !in tenants && t.id == id
    ensures StoreInvariant(tenants[id := t], order + [id], repr + {t})
  {
    assert id !in order;
    assert forall i :: 0 <= i < |order| ==> (order + [id])[i] == order[i];
  }

  /** `ActiveTenants` keeps the order of `ids`: filtering a concatenation concatenates the filtered parts. */
  lemma {:induction false} ActiveTenantsConcat(a: seq<string>, b: seq<string>, m: map<string, Tenant>, objs: set<Tenant>)
    requires forall i :: 0 <= i < |a| ==> a[i] in m && m[a[i]] in objs
    requires forall i :: 0 <= i < |b| ==> b[i] in m && m[b[i]] in objs
    ensures forall i :: 0 <= i < |a + b| ==> (a + b)[i] in m && m[(a + b)[i]] in objs
    ensures ActiveTenants(a + b, m, objs) == ActiveTenants(a, m, objs) + ActiveTenants(b, m, objs)
  {
    assert forall i :: 0 <= i < |a + b| ==> (a + b)[i] == if i < |a| then a[i] else b[i - |a|];
    if a != [] {
      assert (a + b)[1..] == a[1..] + b && (a + b)[0] == a[0];
      ActiveTenantsConcat(a[1..], b, m, objs);
      if m[a[0]].active {
        var p, q := ActiveTenants(a[1..], m, objs), ActiveTenants(b, m, objs);
        assert [m[a[0]]] + (p + q) == ([m[a[0]]] + p) + q;
      }
    } else {
      assert a + b == b;
    }
  }

  /** The registry of tenants: id -> tenant (in insertion order) and auth key -> tenant id. */
  class TenantStore {
    var tenants: map<string, Tenant>
    /** The keys of `tenants` in the order they were inserted (dict iteration order). */
    var order: seq<string>
    var authKeyToTenant: map<string, string>
    /** The tenant objects the store owns. */
    ghost var repr: set<Tenant>

    ghost predicate Valid()
      reads this
    {
      StoreInvariant(tenants, order, repr)
    }

    constructor ()
      ensures Valid()
      ensures tenants == map[] && order == [] && authKeyToTenant == map[] && repr == {}
    {
      tenants := map[];
      order := [];
      authKeyToTenant := map[];
      repr := {};
    }

    /** Creates a tenant, stores it under its id and indexes each of its keys; nothing else changes. */
    method CreateTenant(name: string, domain: string, metadata: Option<Metadata>, id: string, token: string, now: int)
      returns (t: Tenant)
      requires Valid()
      requires id != "" && id !in tenants
      modifies this
      ensures Valid() && fresh(t)
      ensures t.id == id && t.name == name && t.domain == domain && t.active
      ensures t.metadata == metadata.GetOr(map[])
      ensures t.authKeys == [CreateAuthKey(token, now, DEFAULT_EXPIRATION_DAYS)]
      ensures tenants == old(tenants)[id := t]
      ensures order == old(order) + [id]
      ensures authKeyToTenant == old(authKeyToTenant)[token := id]
      ensures GetTenantByAuthKey(token, now) == Some(t)
      ensures repr == old(repr) + {t}
    {
      t := new Tenant.Create(name, domain, metadata, id, token, now);
      IndexKeys(t.authKeys, id);
      InsertKeepsStoreInvariant(tenants, order, repr, id, t);
      tenants := tenants[id := t];
      order := order + [id];
      repr := repr + {t};
      assert t.authKeys[0].key == token;
      assert Tokens(t.authKeys) == {token};
    }

    /** The loop of `create_tenant`: maps the token of every key to `tenantId`. */
    method IndexKeys(keys: seq<TenantAuthKey>, tenantId: string)
      modifies this`authKeyToTenant
      ensures authKeyToTenant == old(authKeyToTenant) + map k | k in Tokens(keys) :: tenantId
    {
      var i := 0;
      while i < |keys|
        invariant 0 <= i <= |keys|
        invariant authKeyToTenant == old(authKeyToTenant) + map k | k in Tokens(keys[..i]) :: tenantId
      {
        assert Tokens(keys[..i + 1]) == Tokens(keys[..i]) + {keys[i].key} by {
          assert forall j :: 0 <= j < i ==> keys[..i + 1][j] == keys[..i][j];
        }
        authKeyToTenant := authKeyToTenant[keys[i].key := tenantId];
        i := i + 1;
      }
      assert keys[..i] == keys;
    }

    /** The loop of `reactivate_tenant`: maps the token of every key valid at `now` to `tenantId`. */
    method IndexValidKeys(keys: seq<TenantAuthKey>, tenantId: string, now: int)
      modifies this`authKeyToTenant
      ensures authKeyToTenant == old(authKeyToTenant) + map k | k in ValidTokens(keys, now) :: tenantId
    {
      var i := 0;
      while i < |keys|
        invariant 0 <= i <= |keys|
        invariant authKeyToTenant == old(authKeyToTenant) + map k | k in ValidTokens(keys[..i], now) :: tenantId
      {
        assert ValidTokens(keys[..i + 1], now) ==
               ValidTokens(keys[..i], now) + (if keys[i].IsValid(now) then {keys[i].key} else {}) by {
          assert forall j :: 0 <= j < i ==> keys[..i + 1][j] == keys[..i][j];
        }
        if keys[i].IsValid(now) {
          authKeyToTenant := authKeyToTenant[keys[i].key := tenantId];
        }
        i := i + 1;
      }
      assert keys[..i] == keys;
    }

    /** `get_tenant`: the tenant stored under `tenantId`, active or not. */
    function GetTenant(tenantId: string): (r: Option<Tenant>)
      reads this
      requires Valid()
      ensures r.Some? <==> tenantId in tenants
      ensures r.Some? ==> r.value in repr && r.value.id == tenantId && r.value == tenants[tenantId]
    {
      if tenantId in tenants then Some(tenants[tenantId]) else None
    }

    /**
     * Index lookup re-validated against the tenant's current first valid key:
     * a tenant comes back only when its first valid key is `authKey` itself.
     */
    function GetTenantByAuthKey(authKey: string, now: int): (r: Option<Tenant>)
      reads this, repr
      requires Valid()
      ensures r.Some? <==> authKey in authKeyToTenant && authKeyToTenant[authKey] in tenants &&
                           tenants[authKeyToTenant[authKey]].GetValidAuthKey(now).Some? &&
                           tenants[authKeyToTenant[authKey]].GetValidAuthKey(now).value.key == authKey
      ensures r.Some? ==> r.value in repr && r.value == tenants[authKeyToTenant[authKey]]
      ensures r.Some? ==> exists i :: 0 <= i < |r.value.authKeys| && r.value.authKeys[i].key == authKey &&
                                     r.value.authKeys[i].IsValid(now) &&
                                     forall j :: 0 <= j < i ==> !r.value.authKeys[j].IsValid(now)
    {
      var tenantId := if authKey in authKeyToTenant then authKeyToTenant[authKey] else "";
      if tenantId != "" then
        var tenant := GetTenant(tenantId);
        if tenant.Some? && tenant.value.GetValidAuthKey(now).Some? && tenant.value.GetValidAuthKey(now).value.key == authKey
        then tenant
        else None
      else None
    }

    /** Linear scan in insertion order for the first active tenant with this domain. */
    function GetTenantByDomain(domain: string): (r: Option<Tenant>)
      reads this, repr
      requires Valid()
      ensures r.Some? ==> r.value in repr && r.value.domain == domain && r.value.active
      ensures r.None? <==> forall id :: id in tenants ==> !(tenants[id].domain == domain && tenants[id].active)
      ensures r.Some? ==> exists i :: 0 <= i < |order| && tenants[order[i]] == r.value &&
                                     forall j :: 0 <= j < i ==> !(tenants[order[j]].domain == domain && tenants[order[j]].active)
    {
      FirstActiveWithDomain(order, tenants, repr, domain)
    }

    /** The active tenants, in insertion order. */
    function ListTenants(): (r: seq<Tenant>)
      reads this, repr
      requires Valid()
      ensures forall k :: 0 <= k < |r| ==> r[k] in repr && r[k].active
      ensures forall id :: id in tenants && tenants[id].active ==> tenants[id] in r
      ensures forall k :: 0 <= k < |r| ==> exists i :: 0 <= i < |order| && tenants[order[i]] == r[k]
    {
      ActiveTenants(order, tenants, repr)
    }

    /** Deactivates the tenant stored under `tenantId`; an unknown id changes nothing. */
    method DeactivateTenant(tenantId: string) returns (ok: bool)
      requires Valid()
      modifies if tenantId in tenants then {tenants[tenantId]} else {}
      ensures Valid()
      ensures ok <==> tenantId in tenants
      ensures ok ==> !tenants[tenantId].active && forall now :: tenants[tenantId].GetValidAuthKey(now).None?
      ensures ok ==> |tenants[tenantId].authKeys| == |old(tenants[tenantId].authKeys)|
      ensures ok ==> forall i :: 0 <= i < |tenants[tenantId].authKeys| ==>
                       tenants[tenantId].authKeys[i] == old(tenants[tenantId].authKeys[i]).Revoke()
    {
      var tenant := GetTenant(tenantId);
      if tenant.Some? {
        tenant.value.Deactivate();
        ok := true;
      } else {
        ok := false;
      }
    }

    /** Reactivates the tenant stored under `tenantId` and indexes every key of it that is valid afterwards. */
    method ReactivateTenant(tenantId: string, token: string, now: int) returns (ok: bool)
      requires Valid()
      requires tenantId in tenants ==> token !in Tokens(tenants[tenantId].authKeys)
      modifies this, if tenantId in tenants then {tenants[tenantId]} else {}
      ensures Valid()
      ensures ok <==> tenantId in old(tenants)
      ensures tenants == old(tenants) && order == old(order) && repr == old(repr)
      ensures !ok ==> authKeyToTenant == old(authKeyToTenant)
      ensures ok ==> tenants[tenantId].active
      ensures ok && !old(tenants[tenantId].active) ==> tenants[tenantId].GetValidAuthKey(now).Some?
      ensures ok ==> var t := tenants[tenantId];
                     t.authKeys == if old(t.active) || old(t.GetValidAuthKey(now)).Some? then old(t.authKeys)
                                   else old(t.authKeys) + [CreateAuthKey(token, now, DEFAULT_EXPIRATION_DAYS)]
      ensures ok ==> authKeyToTenant == old(authKeyToTenant) +
                                        map k | k in ValidTokens(tenants[tenantId].authKeys, now) :: tenantId
    {
      var tenant := GetTenant(tenantId);
      if tenant.None? {
        return false;
      }
      var t := tenant.value;
      t.Reactivate(token, now);
      IndexValidKeys(t.authKeys, tenantId, now);
      ok := true;
    }
  }

  /** Once no key with this token is valid anywhere in the store (revoked or expired), the token resolves nothing. */
  lemma NoValidKeyNotResolved(store: TenantStore, authKey: string, now: int)
    requires store.Valid()
    requires forall id :: id in store.tenants ==>
               forall i :: 0 <= i < |store.tenants[id].authKeys| && store.tenants[id].authKeys[i].key == authKey ==>
                 !store.tenants[id].authKeys[i].IsValid(now)
    ensures store.GetTenantByAuthKey(authKey, now).None?
  {
  }

  /** After `revoke_auth_key` on a list with unique tokens, no key with that token is valid. */
  lemma RevokedTokenHasNoValidKey(keys: seq<TenantAuthKey>, token: string, now: int)
    requires UniqueTokens(keys)
    ensures forall i :: 0 <= i < |RevokeFirst(keys, token)| && RevokeFirst(keys, token)[i].key == token ==>
              !RevokeFirst(keys, token)[i].IsValid(now)
  {
    var revoked := RevokeFirst(keys, token);
    var m := if token in Tokens(keys) then FirstMatch(keys, token).value else 0;
    forall i | 0 <= i < |keys| && revoked[i].key == token
      ensures !revoked[i].IsValid(now)
    {
      assert token in Tokens(keys) by { assert keys[i].key == token; }
    }
  }

  /** A tenant whose keys are all inactive (as `deactivate` leaves it) is not reachable by any key. */
  lemma InactiveKeysNotResolved(store: TenantStore, t: Tenant, authKey: string, now: int)
    requires store.Valid()
    requires forall i :: 0 <= i < |t.authKeys| ==> !t.authKeys[i].active
    ensures store.GetTenantByAuthKey(authKey, now) != Some(t)
  {
  }

  /** While an older key is valid, a newer key of the same tenant does not resolve it. */
  lemma NewerKeyNotResolved(store: TenantStore, id: string, older: nat, newer: nat, now: int)
    requires store.Valid()
    requires id in store.tenants
    requires older < newer < |store.tenants[id].authKeys|
    requires UniqueTokens(store.tenants[id].authKeys)
    requires store.tenants[id].authKeys[older].IsValid(now)
    requires store.tenants[id].authKeys[newer].key in store.authKeyToTenant
    requires store.authKeyToTenant[store.tenants[id].authKeys[newer].key] == id
    ensures store.GetTenantByAuthKey(store.tenants[id].authKeys[newer].key, now).None?
  {
  }
}
