/**
 * Request-scoped tenant resolution: the middleware that identifies the tenant
 * of a request from its headers, the slot where the resolved context lives
 * while the handler runs, the `require_tenant` guard and the two record
 * helpers that stamp and check the `tenant_id` field.
 */
module TenantMiddleware {
  import opened Wrappers
  import opened Http
  import opened Tenants

  const TENANT_KEY_HEADER := "X-Tenant-Key"
  const HOST_HEADER := "Host"
  const TENANT_DOMAIN_HEADER := "X-Tenant-Domain"
  const TENANT_ID_HEADER := "X-Tenant-ID"
  const TENANT_ID_FIELD := "tenant_id"

  const TENANT_REQUIRED := "Tenant authentication required. Provide X-Tenant-Key header or Host header"
  const TENANT_INACTIVE := "Tenant is inactive"
  const INVALID_CONTEXT := "Invalid or missing tenant context"

  /** Request headers, by exact name. */
  type Headers = map<string, string>

  /** A header's value, with a missing header read as the (equally falsy) empty string. */
  function Header(headers: Headers, name: string): string {
    if name in headers then headers[name] else ""
  }

  /** `Host or X-Tenant-Domain`: the first of the two that is present and non-empty. */
  function DomainHeader(headers: Headers): string {
    var host := Header(headers, HOST_HEADER);
    if host != "" then host else Header(headers, TENANT_DOMAIN_HEADER)
  }

  /** `host.split(":")[0]`: the longest prefix without a colon. */
  function StripPort(host: string): (r: string)
    ensures |r| <= |host| && r == host[..|r|]
    ensures ':' !in r
    ensures |r| < |host| ==> host[|r|] == ':'
  {
    if host == [] || host[0] == ':' then ""
    else [host[0]] + StripPort(host[1..])
  }

  /** A value stored in a record: `None`, a string, or anything else (which never equals a string). */
  datatype Value = Null | Text(text: string) | Other(representation: string)

  /** A mutable data dictionary. */
  class Record {
    var fields: map<string, Value>

    constructor (fields: map<string, Value>)
      ensures this.fields == fields
    {
      this.fields := fields;
    }
  }

  /** The process-wide slot holding the tenant context of the request being served. */
  class CurrentTenant {
    var context: Option<TenantContext>

    constructor ()
      ensures context.None?
    {
      context := None;
    }

    /** `get_current_tenant_id`: the id of the current context, if there is one. */
    function GetCurrentTenantId(): Option<string>
      reads this
    {
      if context.Some? then Some(context.value.tenantId) else None
    }

    /** An explicit tenant id wins; without one the current context's id (if any) is used. */
    function EffectiveTenantId(tenantId: Option<string>): Option<string>
      reads this
    {
      if tenantId.None? then GetCurrentTenantId() else tenantId
    }

    /** `require_tenant`: the handler runs exactly when a context is present and its tenant is active. */
    function RequireTenant(handler: Outcome): (r: Guarded)
      reads this, if context.Some? then {context.value.tenant} else {}
      ensures r.Called? <==> context.Some? && context.value.tenant.active
      ensures r.Called? ==> r.outcome == handler
      ensures r.Refused? ==> r.error == HttpError(FORBIDDEN, INVALID_CONTEXT)
    {
      if context.None? || !context.value.IsValid() then Refused(HttpError(FORBIDDEN, INVALID_CONTEXT))
      else Called(handler)
    }

    /**
     * `filter_by_tenant`: stamps the effective tenant id into the record, and
     * leaves the record alone when that id is missing or empty.  The same
     * record is returned.
     */
    method FilterByTenant(data: Record, tenantId: Option<string>) returns (r: Record)
      modifies data
      ensures r == data
      ensures var id := EffectiveTenantId(tenantId);
              data.fields == if id.Some? && id.value != "" then old(data.fields)[TENANT_ID_FIELD := Text(id.value)]
                             else old(data.fields)
      ensures var id := EffectiveTenantId(tenantId);
              id.Some? && id.value != "" ==> EnsureTenantIsolation(data, tenantId)
    {
      var id := EffectiveTenantId(tenantId);
      if id.Some? && id.value != "" {
        data.fields := data.fields[TENANT_ID_FIELD := Text(id.value)];
      }
      r := data;
    }

    /**
     * `ensure_tenant_isolation`: the record's `tenant_id` equals the effective
     * tenant id, where a missing field reads as `None` and so matches a
     * missing id.
     */
    function EnsureTenantIsolation(item: Record, tenantId: Option<string>): (r: bool)
      reads this, item
      ensures var id := EffectiveTenantId(tenantId);
              id.Some? ==> (r <==> TENANT_ID_FIELD in item.fields && item.fields[TENANT_ID_FIELD] == Text(id.value))
      ensures var id := EffectiveTenantId(tenantId);
              id.None? ==> (r <==> TENANT_ID_FIELD !in item.fields || item.fields[TENANT_ID_FIELD] == Null)
    {
      var stored := if TENANT_ID_FIELD in item.fields then item.fields[TENANT_ID_FIELD] else Null;
      match EffectiveTenantId(tenantId)
      case None => stored == Null
      case Some(id) => stored == Text(id)
    }
  }

  /** The middleware: resolves the tenant, rejects unknown (401) and inactive (403) ones, scopes the context. */
  class Middleware {
    const store: TenantStore
    const slot: CurrentTenant

    constructor (store: TenantStore, slot: CurrentTenant)
      ensures this.store == store && this.slot == slot
    {
      this.store := store;
      this.slot := slot;
    }

    /** Resolution by `X-Tenant-Key`, when that header is non-empty. */
    function ByKey(headers: Headers, now: int): (r: Option<Tenant>)
      reads store, store.repr
      requires store.Valid()
      ensures r.Some? ==> TENANT_KEY_HEADER in headers && headers[TENANT_KEY_HEADER] != ""
      ensures r.Some? ==> r.value in store.repr && r.value.GetValidAuthKey(now).Some? &&
                          r.value.GetValidAuthKey(now).value.key == headers[TENANT_KEY_HEADER]
    {
      var key := Header(headers, TENANT_KEY_HEADER);
      if key != "" then store.GetTenantByAuthKey(key, now) else None
    }

    /** Resolution by the host, port stripped, when `Host` or `X-Tenant-Domain` is non-empty. */
    function ByDomain(headers: Headers): (r: Option<Tenant>)
      reads store, store.repr
      requires store.Valid()
      ensures r.Some? ==> DomainHeader(headers) != ""
      ensures r.Some? ==> r.value in store.repr && r.value.active &&
                          r.value.domain == StripPort(DomainHeader(headers)) && ':' !in r.value.domain
    {
      var host := DomainHeader(headers);
      if host != "" then store.GetTenantByDomain(StripPort(host)) else None
    }

    /** Resolution by `X-Tenant-ID`, when that header is non-empty. */
    function ById(headers: Headers): (r: Option<Tenant>)
      reads store
      requires store.Valid()
      ensures r.Some? ==> TENANT_ID_HEADER in headers && r.value.id == headers[TENANT_ID_HEADER]
      ensures r.Some? ==> r.value in store.repr && TENANT_ID_HEADER in headers && headers[TENANT_ID_HEADER] in store.tenants &&
                          r.value == store.tenants[headers[TENANT_ID_HEADER]]
    {
      var id := Header(headers, TENANT_ID_HEADER);
      if id != "" then store.GetTenant(id) else None
    }

    /**
     * `_extract_tenant`: the auth key first, then the domain, then the id;
     * each later source is consulted only when every earlier one fails.
     */
    function ExtractTenant(headers: Headers, now: int): (r: Option<Tenant>)
      reads store, store.repr
      requires store.Valid()
      ensures ByKey(headers, now).Some? ==> r == ByKey(headers, now)
      ensures ByKey(headers, now).None? && ByDomain(headers).Some? ==> r == ByDomain(headers)
      ensures ByKey(headers, now).None? && ByDomain(headers).None? ==> r == ById(headers)
      ensures r.Some? ==> r.value in store.repr
      ensures r.Some? && !r.value.active ==> ByKey(headers, now) == r || r.value.id == headers[TENANT_ID_HEADER]
    {
      var byKey := ByKey(headers, now);
      if byKey.Some? then byKey
      else
        var byDomain := ByDomain(headers);
        if byDomain.Some? then byDomain else ById(headers)
    }

    /**
     * `dispatch`: the handler runs only with the context of an active
     * resolved tenant in the slot, and the slot is cleared afterwards
     * whatever the handler ends with.  The context the handler sees is
     * returned as `seen`.
     */
    method Dispatch(headers: Headers, now: int, handler: Outcome) returns (outcome: Outcome, seen: Option<TenantContext>)
      requires store.Valid()
      modifies slot
      ensures var t := ExtractTenant(headers, now);
              t.None? ==>
                outcome == Raised(HttpError(UNAUTHORIZED, TENANT_REQUIRED)) && seen.None? && slot.context == old(slot.context)
      ensures var t := ExtractTenant(headers, now);
              t.Some? && !t.value.active ==>
                outcome == Raised(HttpError(FORBIDDEN, TENANT_INACTIVE)) && seen.None? && slot.context == old(slot.context)
      ensures var t := ExtractTenant(headers, now);
              t.Some? && t.value.active ==>
                outcome == handler && seen == Some(TenantContext(t.value.id, t.value)) && slot.context.None?
      ensures seen.Some? ==> seen.value.IsValid() && seen.value.tenantId == seen.value.tenant.id
    {
      var tenant := ExtractTenant(headers, now);
      if tenant.None? {
        return Raised(HttpError(UNAUTHORIZED, TENANT_REQUIRED)), None;
      }
      var t := tenant.value;
      if !t.active {
        return Raised(HttpError(FORBIDDEN, TENANT_INACTIVE)), None;
      }
      slot.context := Some(TenantContext(t.id, t));
      seen := slot.context;
      outcome := handler;
      slot.context := None;
    }
  }

  /** A request carrying only `X-Tenant-Key` resolves exactly through the key index. */
  lemma ExtractTenantByKeyOnly(middleware: Middleware, key: string, now: int)
    requires middleware.store.Valid()
    requires key != ""
    ensures middleware.ExtractTenant(map[TENANT_KEY_HEADER := key], now) == middleware.store.GetTenantByAuthKey(key, now)
  {
  }

  /** A request carrying only `Host` resolves exactly through the domain search, port stripped. */
  lemma ExtractTenantByHostOnly(middleware: Middleware, host: string, now: int)
    requires middleware.store.Valid()
    ensures middleware.ExtractTenant(map[HOST_HEADER := host], now) ==
            if host == "" then None else middleware.store.GetTenantByDomain(StripPort(host))
  {
  }

  /** With both `X-Tenant-Key` and `Host`, the key wins when it resolves and the host decides otherwise. */
  lemma ExtractTenantByKeyAndHost(middleware: Middleware, key: string, host: string, now: int)
    requires middleware.store.Valid()
    requires key != "" && host != ""
    ensures var r := middleware.store.GetTenantByAuthKey(key, now);
            middleware.ExtractTenant(map[TENANT_KEY_HEADER := key, HOST_HEADER := host], now) ==
            if r.Some? then r else middleware.store.GetTenantByDomain(StripPort(host))
  {
  }

  /** A request carrying only `X-Tenant-ID` resolves exactly to the stored tenant, active or not. */
  lemma ExtractTenantByIdOnly(middleware: Middleware, id: string, now: int)
    requires middleware.store.Valid()
    ensures middleware.ExtractTenant(map[TENANT_ID_HEADER := id], now) ==
            if id == "" then None else middleware.store.GetTenant(id)
  {
  }

  /** A host without a colon is used as the domain unchanged. */
  lemma {:induction false} StripPortWithoutPort(host: string)
    requires ':' !in host
    ensures StripPort(host) == host
  {
    if host != [] {
      assert host == [host[0]] + host[1..];
      StripPortWithoutPort(host[1..]);
    }
  }

  /** The port never reaches the domain lookup: `domain:port` is looked up as `domain`. */
  lemma {:induction false} StripPortDropsPort(domain: string, port: string)
    requires ':' !in domain
    ensures StripPort(domain + ":" + port) == domain
  {
    if domain == [] {
      assert (domain + ":" + port)[0] == ':';
    } else {
      assert (domain + ":" + port)[1..] == domain[1..] + ":" + port;
      StripPortDropsPort(domain[1..], port);
    }
  }

  /** Stripping twice is stripping once. */
  lemma StripPortIdempotent(host: string)
    ensures StripPort(StripPort(host)) == StripPort(host)
  {
  }

  /** A non-empty Host header shadows X-Tenant-Domain entirely. */
  lemma HostShadowsDomainHeader(headers: Headers, domain: string)
    requires Header(headers, HOST_HEADER) != ""
    ensures DomainHeader(headers[TENANT_DOMAIN_HEADER := domain]) == DomainHeader(headers)
  {
  }

  /** With no context and no explicit id, a record without a `tenant_id` passes the isolation check. */
  lemma UnownedRecordPassesWithoutContext(slot: CurrentTenant, item: Record)
    requires slot.context.None?
    requires TENANT_ID_FIELD !in item.fields
    ensures slot.EnsureTenantIsolation(item, None)
  {
  }

  /** A record stamped for one tenant fails the isolation check of every other tenant. */
  lemma IsolationSeparatesTenants(slot: CurrentTenant, item: Record, a: string, b: string)
    requires TENANT_ID_FIELD in item.fields && item.fields[TENANT_ID_FIELD] == Text(a)
    requires a != b
    ensures slot.EnsureTenantIsolation(item, Some(a))
    ensures !slot.EnsureTenantIsolation(item, Some(b))
  {
  }
}
