/**
 * End-to-end client code over the model: each method builds fresh objects,
 * drives them through a documented sequence of operations and states what
 * every lookup along the way returns.
 */
module Scenarios {
  import opened Wrappers
  import opened Http
  import opened Models
  import opened Tenants
  import opened TenantMiddleware
  import opened Auth

  /**
   * A middleware over a store holding one fresh tenant `tenant-t` on
   * `a.local` whose only key is K1; the middleware's slot is empty.
   */
  method NewMiddlewareWithTenant(now: int) returns (middleware: Middleware, t: Tenant)
    ensures fresh(middleware.store) && fresh(middleware.slot) && fresh(t) && middleware.store.Valid()
    ensures t.id == "tenant-t" && t.domain == "a.local" && t.active
    ensures t.authKeys == [CreateAuthKey("K1", now, DEFAULT_EXPIRATION_DAYS)]
    ensures middleware.store.tenants == map["tenant-t" := t] && middleware.store.repr == {t}
    ensures middleware.store.authKeyToTenant == map["K1" := "tenant-t"]
    ensures middleware.store.GetTenantByDomain("a.local") == Some(t)
    ensures middleware.store.GetTenantByAuthKey("K1", now) == Some(t)
  {
    var store := new TenantStore();
    var slot := new CurrentTenant();
    middleware := new Middleware(store, slot);
    t := store.CreateTenant("Tenant T", "a.local", None, "tenant-t", "K1", now);
    FirstActiveWithDomainAppend([], map[], {}, "tenant-t", t, "a.local");
    assert store.order == [] + ["tenant-t"];
  }

  /** The tenant is found through `Host`. */
  method HostResolution(now: int) returns (t: Tenant, byHost: Option<Tenant>)
    ensures byHost == Some(t)
  {
    var middleware;
    middleware, t := NewMiddlewareWithTenant(now);
    StripPortWithoutPort("a.local");
    ExtractTenantByHostOnly(middleware, "a.local", now);
    byHost := middleware.ExtractTenant(map[HOST_HEADER := "a.local"], now);
  }

  /** The port of `Host` is ignored: `a.local:8080` finds the tenant on `a.local`. */
  method HostWithPortResolution(now: int) returns (t: Tenant, byHost: Option<Tenant>)
    ensures byHost == Some(t)
  {
    var middleware;
    middleware, t := NewMiddlewareWithTenant(now);
    var host := "a.local" + ":" + "8080";
    StripPortDropsPort("a.local", "8080");
    ExtractTenantByHostOnly(middleware, host, now);
    byHost := middleware.ExtractTenant(map[HOST_HEADER := host], now);
  }

  /** The tenant is found through `X-Tenant-Key: K1`. */
  method KeyResolution(now: int) returns (t: Tenant, byKey: Option<Tenant>)
    ensures byKey == Some(t)
  {
    var middleware;
    middleware, t := NewMiddlewareWithTenant(now);
    ExtractTenantByKeyOnly(middleware, "K1", now);
    byKey := middleware.ExtractTenant(map[TENANT_KEY_HEADER := "K1"], now);
  }

  /** The key wins over a `Host` naming no tenant. */
  method KeyOverHostResolution(now: int) returns (t: Tenant, byKeyOverHost: Option<Tenant>)
    ensures byKeyOverHost == Some(t)
  {
    var middleware;
    middleware, t := NewMiddlewareWithTenant(now);
    ExtractTenantByKeyAndHost(middleware, "K1", "b.local", now);
    byKeyOverHost := middleware.ExtractTenant(map[TENANT_KEY_HEADER := "K1", HOST_HEADER := "b.local"], now);
  }

  /** `NewMiddlewareWithTenant` after K1 is revoked on the tenant: nothing but the key's flag changes. */
  method NewMiddlewareWithRevokedKey(now: int) returns (middleware: Middleware, t: Tenant)
    ensures fresh(middleware.store) && fresh(middleware.slot) && fresh(t) && middleware.store.Valid()
    ensures t.id == "tenant-t" && t.domain == "a.local" && t.active
    ensures t.authKeys == [CreateAuthKey("K1", now, DEFAULT_EXPIRATION_DAYS).Revoke()]
    ensures middleware.store.tenants == map["tenant-t" := t] && middleware.store.repr == {t}
    ensures middleware.store.authKeyToTenant == map["K1" := "tenant-t"]
  {
    middleware, t := NewMiddlewareWithTenant(now);
    assert RevokeFirst(t.authKeys, "K1") == [t.authKeys[0].Revoke()] by {
      assert FirstMatch(t.authKeys, "K1") == Some(0);
    }
    var found := t.RevokeAuthKey("K1");
  }

  /** Once K1 is revoked the key no longer resolves the tenant. */
  method RevokedKeyIsNotResolved(now: int) returns (t: Tenant, byKey: Option<Tenant>)
    ensures byKey.None? && t.active
  {
    var middleware;
    middleware, t := NewMiddlewareWithRevokedKey(now);
    ExtractTenantByKeyOnly(middleware, "K1", now);
    byKey := middleware.ExtractTenant(map[TENANT_KEY_HEADER := "K1"], now);
  }

  /** With the revoked key beside `Host`, the host still resolves the same, still active, tenant. */
  method RevokedKeyFallsBackToHost(now: int) returns (t: Tenant, byHost: Option<Tenant>)
    ensures byHost == Some(t)
  {
    var middleware;
    middleware, t := NewMiddlewareWithRevokedKey(now);
    StripPortWithoutPort("a.local");
    ExtractTenantByKeyAndHost(middleware, "K1", "a.local", now);
    assert middleware.store.GetTenantByDomain("a.local").Some?;
    byHost := middleware.ExtractTenant(map[TENANT_KEY_HEADER := "K1", HOST_HEADER := "a.local"], now);
  }

  /** A request carrying only the revoked key is unauthenticated, and its handler never runs. */
  method RevokedKeyIsUnauthenticated(now: int) returns (outcome: Outcome, seen: Option<TenantContext>)
    ensures outcome == Raised(HttpError(UNAUTHORIZED, TENANT_REQUIRED)) && seen.None?
  {
    var middleware, t := NewMiddlewareWithRevokedKey(now);
    outcome, seen := middleware.Dispatch(map[TENANT_KEY_HEADER := "K1"], now, Returned(Response(200, "ok")));
    ExtractTenantByKeyOnly(middleware, "K1", now);
  }

  /** `NewMiddlewareWithTenant` after `deactivate_tenant("tenant-t")`: the tenant is inactive and its key revoked. */
  method NewMiddlewareWithDeactivatedTenant(now: int) returns (middleware: Middleware, t: Tenant)
    ensures fresh(middleware.store) && fresh(middleware.slot) && fresh(t) && middleware.store.Valid()
    ensures t.id == "tenant-t" && t.domain == "a.local" && !t.active
    ensures t.authKeys == [CreateAuthKey("K1", now, DEFAULT_EXPIRATION_DAYS).Revoke()]
    ensures middleware.store.tenants == map["tenant-t" := t] && middleware.store.repr == {t}
    ensures middleware.store.authKeyToTenant == map["K1" := "tenant-t"]
  {
    middleware, t := NewMiddlewareWithTenant(now);
    var ok := middleware.store.DeactivateTenant("tenant-t");
  }

  /** A deactivated tenant is invisible by domain. */
  method DeactivatedTenantIsHiddenFromHost(now: int) returns (t: Tenant, byHost: Option<Tenant>)
    ensures byHost.None? && !t.active
  {
    var middleware;
    middleware, t := NewMiddlewareWithDeactivatedTenant(now);
    StripPortWithoutPort("a.local");
    ExtractTenantByHostOnly(middleware, "a.local", now);
    byHost := middleware.ExtractTenant(map[HOST_HEADER := "a.local"], now);
  }

  /** A deactivated tenant is invisible by key. */
  method DeactivatedTenantIsHiddenFromKey(now: int) returns (t: Tenant, byKey: Option<Tenant>)
    ensures byKey.None? && !t.active
  {
    var middleware;
    middleware, t := NewMiddlewareWithDeactivatedTenant(now);
    ExtractTenantByKeyOnly(middleware, "K1", now);
    byKey := middleware.ExtractTenant(map[TENANT_KEY_HEADER := "K1"], now);
  }

  /** `X-Tenant-ID` still resolves the deactivated tenant. */
  method DeactivatedTenantIsFoundById(now: int) returns (t: Tenant, byId: Option<Tenant>)
    ensures byId == Some(t) && !t.active
  {
    var middleware;
    middleware, t := NewMiddlewareWithDeactivatedTenant(now);
    ExtractTenantByIdOnly(middleware, "tenant-t", now);
    byId := middleware.ExtractTenant(map[TENANT_ID_HEADER := "tenant-t"], now);
  }

  /** A request naming the deactivated tenant by id is forbidden rather than unauthenticated, and its handler never runs. */
  method DeactivatedTenantIsForbidden(now: int) returns (outcome: Outcome, seen: Option<TenantContext>)
    ensures outcome == Raised(HttpError(FORBIDDEN, TENANT_INACTIVE)) && seen.None?
  {
    var middleware, t := NewMiddlewareWithDeactivatedTenant(now);
    outcome, seen := middleware.Dispatch(map[TENANT_ID_HEADER := "tenant-t"], now, Returned(Response(200, "ok")));
    ExtractTenantByIdOnly(middleware, "tenant-t", now);
  }

  /**
   * Reactivating the deactivated tenant mints a key K2 and indexes it: the
   * tenant is back on its domain and reachable by K2, but not by the revoked K1.
   */
  method ReactivatedTenantIsReachable(now: int) returns (t: Tenant, byDomain: Option<Tenant>, byNewKey: Option<Tenant>, byOldKey: Option<Tenant>)
    ensures byDomain == Some(t) && byNewKey == Some(t) && byOldKey.None? && t.active
  {
    var middleware;
    middleware, t := NewMiddlewareWithDeactivatedTenant(now);
    var store := middleware.store;
    var ok := store.ReactivateTenant("tenant-t", "K2", now);
    assert t.authKeys == [CreateAuthKey("K1", now, DEFAULT_EXPIRATION_DAYS).Revoke(), CreateAuthKey("K2", now, DEFAULT_EXPIRATION_DAYS)];
    assert ValidTokens(t.authKeys, now) == {"K2"};
    assert store.tenants["tenant-t"] == t;
    byDomain := store.GetTenantByDomain("a.local");
    byNewKey := store.GetTenantByAuthKey("K2", now);
    byOldKey := store.GetTenantByAuthKey("K1", now);
  }

  /**
   * Rotation: a key K2 minted by `generate_new_auth_key` is not in the index,
   * so it resolves nothing, and K1 stays the tenant's valid key.
   */
  method NewMiddlewareWithGeneratedKey(now: int) returns (middleware: Middleware, t: Tenant, byNewKey: Option<Tenant>)
    ensures fresh(middleware.store) && fresh(t) && middleware.store.Valid()
    ensures t.id == "tenant-t" && t.active
    ensures middleware.store.tenants == map["tenant-t" := t] && middleware.store.repr == {t}
    ensures t.authKeys == [CreateAuthKey("K1", now, DEFAULT_EXPIRATION_DAYS), CreateAuthKey("K2", now, 30)]
    ensures middleware.store.authKeyToTenant == map["K1" := "tenant-t"]
    ensures byNewKey.None?
  {
    middleware, t := NewMiddlewareWithTenant(now);
    var k2 := t.GenerateNewAuthKey("K2", now, 30);
    byNewKey := middleware.store.GetTenantByAuthKey("K2", now);
  }

  /** `reactivate_tenant` on the still active tenant changes no key but indexes both valid ones. */
  method NewMiddlewareWithRotatedKey(now: int) returns (middleware: Middleware, t: Tenant)
    ensures fresh(middleware.store) && fresh(t) && middleware.store.Valid()
    ensures t.id == "tenant-t" && t.active
    ensures middleware.store.tenants == map["tenant-t" := t] && middleware.store.repr == {t}
    ensures t.authKeys == [CreateAuthKey("K1", now, DEFAULT_EXPIRATION_DAYS), CreateAuthKey("K2", now, 30)]
    ensures middleware.store.authKeyToTenant == map["K1" := "tenant-t", "K2" := "tenant-t"]
  {
    var byNewKey;
    middleware, t, byNewKey := NewMiddlewareWithGeneratedKey(now);
    assert Tokens(t.authKeys) == {"K1", "K2"} by {
      assert t.authKeys[0].key == "K1" && t.authKeys[1].key == "K2";
    }
    var ok := middleware.store.ReactivateTenant("tenant-t", "K3", now);
    assert ValidTokens(t.authKeys, now) == {"K1", "K2"} by {
      assert t.authKeys[0].key == "K1" && t.authKeys[1].key == "K2";
    }
  }

  /** While K1 is still valid the newer K2 does not resolve the tenant; once K1 is revoked, K2 does and K1 does not. */
  method RotationHandsOver(now: int) returns (t: Tenant, newWhileOldValid: Option<Tenant>, oldAfterRevoke: Option<Tenant>, newAfterRevoke: Option<Tenant>)
    ensures newWhileOldValid.None? && oldAfterRevoke.None? && newAfterRevoke == Some(t)
  {
    var middleware;
    middleware, t := NewMiddlewareWithRotatedKey(now);
    var store := middleware.store;
    assert t.GetValidAuthKey(now) == Some(t.authKeys[0]);
    newWhileOldValid := store.GetTenantByAuthKey("K2", now);
    assert RevokeFirst(t.authKeys, "K1") == [t.authKeys[0].Revoke(), t.authKeys[1]] by {
      assert FirstMatch(t.authKeys, "K1") == Some(0);
    }
    var found := t.RevokeAuthKey("K1");
    assert t.GetValidAuthKey(now) == Some(t.authKeys[1]);
    oldAfterRevoke := store.GetTenantByAuthKey("K1", now);
    newAfterRevoke := store.GetTenantByAuthKey("K2", now);
  }

  /** Roles are shared objects: a permission added to one role is gained by every user holding it. */
  method SharedRolePermission() returns (alice: User, bob: User)
    ensures alice.HasPermission("grade") && bob.HasPermission("grade")
  {
    var teacher := new Role("teacher", "Teacher", false, {});
    alice := new User("alice@example.org", "Alice", [teacher], {});
    bob := new User("bob@example.org", "Bob", [teacher], {});
    teacher.AddPermission("grade");
    assert alice.roles[0].HasPermission("grade") && bob.roles[0].HasPermission("grade");
  }

  /** Role membership is dataclass equality: adding an equal copy of a held role changes nothing. */
  method EqualRoleIsNotAddedTwice() returns (alice: User)
    ensures |alice.roles| == 1
  {
    var teacher := new Role("teacher", "Teacher", false, {"grade"});
    var copy := new Role("teacher", "Teacher", false, {"grade"});
    alice := new User("alice@example.org", "Alice", [teacher], {});
    alice.AddRole(copy);
  }

  /**
   * A teacher who does not own the resource, checked against
   * `[RoleAuthorization(["teacher"]), OwnershipAuthorization()]`: refused
   * with the default ALL mode, admitted in ANY mode.
   */
  method TeacherOrOwner(handler: Outcome) returns (allMode: Guarded, anyMode: Guarded)
    ensures allMode == Refused(HttpError(FORBIDDEN, NOT_AUTHORIZED))
    ensures anyMode == Called(handler)
  {
    var teacher := new Role("teacher", "Teacher", false, {});
    var alice := new User("alice@example.org", "Alice", [teacher], {});
    var slot := new CurrentUser();
    slot.SetCurrentUser(Some(alice));
    var strategies := [RoleAuthorization(["teacher"]), OwnershipAuthorization];
    assert strategies[0].Authorize(Some(alice), Some("activity-1")) by {
      assert alice.roles[0].name == "teacher";
      assert alice.HasRole(strategies[0].requiredRoles[0]);
    }
    assert !strategies[1].Authorize(Some(alice), Some("activity-1"));
    allMode := slot.RequireAuthorizations(strategies, true, Some("activity-1"), handler);
    anyMode := slot.RequireAuthorizations(strategies, false, Some("activity-1"), handler);
  }
}
