# Multi-tenant authorization core, modelled in Dafny

This project models the authorization and tenancy engine of a small FastAPI
service. It has four parts, one Dafny module each:

- **`Models`** (`models.dfy`, from `src/models.py`): roles and users, the four
  authorization strategies, and the `AuthorizationContext` composer.
  - Roles and users are classes, because their permission sets and role lists
    are changed in place and a role object can be shared by several users.
  - Role membership (`role in self.roles`, `list.remove`) uses dataclass
    equality. Here that is `SameRole`, equality of all four fields.
  - The strategies form one tagged variant, `Authorization`, with one
    `Authorize(user, resourceId)` predicate.
- **`Tenants`** (`tenant.dfy`, from `src/tenant.py`): auth keys, tenants and the
  in-memory tenant store.
  - `TenantAuthKey` is a value with validity, expiry and a one-way revoke.
  - `Tenant` is a class whose key list and `active` flag change in place.
  - `TenantStore` is a class. It holds:
    - the id → tenant map;
    - the ids in insertion order, which is Python's dict iteration order and
      decides which tenant the domain search finds first;
    - the auth-key → tenant-id index;
    - a ghost set of the tenants it owns.
- **`TenantMiddleware`** (`tenant_middleware.dfy`, from
  `src/tenant_middleware.py`): tenant resolution and the request guards.
  - `ExtractTenant` resolves a tenant from headers in priority order: key,
    then `Host`/`X-Tenant-Domain` with the port stripped, then `X-Tenant-ID`.
  - `Dispatch` rejects with 401 or 403, or fills and then clears the
    current-tenant slot.
  - Also here: the `require_tenant` guard, `filter_by_tenant` and
    `ensure_tenant_isolation`.
- **`Auth`** (`auth.dfy`, from `src/auth.py`): the current-user slot.
  - The authorization middleware fills the slot and then clears it.
  - Also here: `check_authorization(s)` and the guards behind
    `require_authorization(s)`.

Shared types:
- `Wrappers` (`wrappers.dfy`) holds `Option`.
- `Http` holds HTTP errors and handler outcomes:
  - `Outcome` is what a handler ends with: a response, or a raised error.
  - `Guarded` is what a guard ends with: the handler's outcome, or a refusal.

`Scenarios` (`scenarios.dfy`) is client code over the model. It replays the
documented end-to-end flows and states what each lookup returns. For example:
- `Host: a.local` resolves the tenant, and so does `X-Tenant-Key: K1`.
- After K1 is revoked, the key resolves nothing while the host still resolves
  the tenant.
- Deactivation hides the tenant from the key and the domain, but not from the
  id header.
- Reactivating mints and indexes a new key.

Model choices:
- The global slots `_current_tenant` and `_current_user` become one-field
  objects (`CurrentTenant`, `CurrentUser`).
- A middleware's `call_next` becomes the handler's `Outcome`, passed in as a
  parameter.
- Each dispatch also returns the slot value the handler saw.
- Time is an explicit `now: int` in seconds, and a day is 86400 seconds.
- The uuid4 ids and tokens are parameters, and their freshness is a
  precondition.

Where the design text and the code differ, the model follows the code:
- **Reactivation.** `reactivate` does nothing on a tenant that is still
  active (`src/tenant.py:127-132`). It mints a key only when the tenant was
  inactive and has no valid key.
- **The key index is not updated eagerly.** `generate_new_auth_key` and
  `revoke_auth_key` do not touch the store's index.
  - A freshly generated key therefore resolves nothing until
    `reactivate_tenant` indexes it (`NewMiddlewareWithGeneratedKey`,
    `NewerKeyNotResolved`).
  - A revoked key stays in the index, and it is the lookup's re-validation that
    rejects it (`RevokedKeyIsNotResolved`, `RotationHandsOver`).
- **Ownership.** An empty `resource_id` is refused as well as a missing one,
  because the code tests truthiness (`src/models.py:117`).
- **A failing user getter.** The current-user slot is not cleared on every
  path. The getter runs before the `try`/`finally` (`src/auth.py:48-53`), so a
  getter that raises ends the request with the slot left as it was. Only the
  handler's outcome is followed by clearing (`AuthorizationMiddleware.Dispatch`).

Two behaviours of the code are kept as written:
- `ensure_tenant_isolation` with no context and no explicit id accepts every
  record that has no `tenant_id` (`UnownedRecordPassesWithoutContext`).
- The docstring example of `require_authorizations` is called
  "teacher or owner", but the default ALL mode requires a teacher who is also
  the owner. `TeacherOrOwner` shows that such a teacher is refused in ALL mode
  and admitted only in ANY mode.

Predicates and functions that are definitions rather than claims have no contract of their
own. Their meaning is proved through the members that use them:
- `Role.HasPermission`, `User.HasRole`, `User.HasPermission` and
  `User.OwnsResource`;
- `TenantAuthKey.IsValid` and `TenantContext.IsValid`;
- `Header` (a missing header reads as `""`), `DomainHeader` (`Host`, or
  `X-Tenant-Domain` when `Host` is empty), `CurrentTenant.GetCurrentTenantId`
  and `CurrentTenant.EffectiveTenantId` (an explicit id, even `""`, wins over
  the context's). These are used by `HostShadowsDomainHeader`, `ExtractTenant`,
  the `ExtractTenantBy*` lemmas, `FilterByTenant` and `EnsureTenantIsolation`;
- `Authorization.Authorize`, `AllAuthorize` and `AnyAuthorize`.

## Model

| member | source | states |
|---|---|---|
| Models.Role.constructor | src/models.py:20-26 | a role holds exactly the given name, label, privacy flag and permission set |
| Models.Role.AddPermission | src/models.py:28-30 | afterwards the role has the permission; the set is the old one plus it; no other permission changes |
| Models.Role.RemovePermission | src/models.py:32-34 | afterwards the role lacks the permission; no other permission changes; removing an absent permission changes nothing and never fails |
| Models.FindRole | src/models.py:51 | `none` exactly when no role in the list is field-for-field equal to the given one; otherwise the index of the first equal role |
| Models.User.constructor | src/models.py:41-47 | a user holds exactly the given email, name, role list and owned resource ids |
| Models.User.AddRole | src/models.py:49-52 | appends the role only when no equal role is held, else changes nothing; afterwards an equal role is held; a duplicate-free list stays duplicate-free; every role name held before is still held; owned resources unchanged |
| Models.User.RemoveRole | src/models.py:54-57 | with no equal role held the list is unchanged; otherwise exactly the first equal role is cut out and the order of the rest kept; from a duplicate-free list no equal role remains; owned resources unchanged |
| Models.EffectivePermissionsIff | src/models.py:63-65 | a permission is in the union of the roles' permission sets iff some role of the list has it |
| Models.HasPermissionIffEffective | src/models.py:63-65 | `has_permission` is membership in the union of the permissions of the user's roles |
| Models.RoleAuthorizationIff | src/models.py:101-105 | role authorization holds iff there is a user and one of its role names is in the required list; false for an empty list; the allow-list strategy (`src/models.py:134-138`) decides identically |
| Models.OwnershipAuthorizationIff | src/models.py:115-119 | ownership holds iff there is a user, a non-empty resource id, and that id is among the user's owned resources |
| Models.ExclusionAuthorizationIff | src/models.py:153-157 | exclusion holds iff there is no user or none of the user's role names is excluded; an empty exclusion list authorizes everyone; no user is always authorized |
| Models.NoUserOnlyExclusionAuthorizes | src/models.py:101-157 | with no user, a strategy authorizes iff it is an exclusion |
| Models.AllAuthorizeIffEvery | src/models.py:183 | the left-to-right `all` over the strategies holds iff every strategy authorizes |
| Models.AnyAuthorizeIffSome | src/models.py:198 | the left-to-right `any` over the strategies holds iff some strategy authorizes |
| Models.AuthorizationContext.constructor | src/models.py:163-165 | a new context has no strategies |
| Models.AuthorizationContext.AddAuthorization | src/models.py:167-170 | the strategy is appended last and the same context is returned |
| Models.AuthorizationContext.Check | src/models.py:172-183 | ALL mode: true iff every strategy authorizes; true for no strategies |
| Models.AuthorizationContext.CheckAny | src/models.py:185-198 | ANY mode: true iff the list is empty or some strategy authorizes; a non-empty list passing ALL mode passes ANY mode |
| Tenants.CreateAuthKey | src/tenant.py:21-39 | a new key is active, created now with the given token, and valid at a time iff that time is strictly before now plus the expiration days; valid now when the days are positive; never valid at its own expiry instant |
| Tenants.TenantAuthKey.Revoke | src/tenant.py:41-43 | revoking clears `active` only, keeps token and timestamps, and the key is valid at no time afterwards |
| Tenants.FirstValidIndex | src/tenant.py:84-89 | the position of the first key valid at `now`; none iff no key is valid |
| Tenants.FirstMatch | src/tenant.py:115-116 | the position of the first key with the token; none iff no key has it |
| Tenants.RevokeFirst | src/tenant.py:105-119 | same length; a token no key has changes nothing; otherwise only the first key with the token is revoked and every other key is unchanged |
| Tenants.FirstValidAppend | src/tenant.py:91-103 | appending a key keeps an existing first valid key first; only with no valid key before can the new key become first |
| Tenants.Tenant.Create | src/tenant.py:57-82 | a new tenant is active, has exactly one default key (365 days) valid now, metadata `{}` when none is given, and the given id, name and domain; its tokens are unique |
| Tenants.Tenant.GetValidAuthKey | src/tenant.py:84-89 | the first key in list order valid at `now`; none iff no key is valid |
| Tenants.Tenant.GenerateNewAuthKey | src/tenant.py:91-103 | appends exactly one fresh key and returns it; earlier keys and `active` untouched; the first valid key stays the same when there was one; unique tokens stay unique |
| Tenants.Tenant.RevokeAuthKey | src/tenant.py:105-119 | returns true iff some key has the token; the keys become exactly `RevokeFirst` of the old keys; `active` untouched; unique tokens stay unique |
| Tenants.Tenant.Deactivate | src/tenant.py:121-125 | the tenant is inactive, every key is the revoked old key at the same position, and no key is valid at any time; unique tokens stay unique |
| Tenants.Tenant.Reactivate | src/tenant.py:127-132 | the tenant is active; keys unchanged when it was active or still had a valid key; otherwise exactly one default key is appended; a formerly inactive tenant has a valid key afterwards; unique tokens stay unique |
| Tenants.FirstActiveWithDomainIndex | src/tenant.py:178-183 | the position of the first id whose tenant has the domain and is active; none iff there is no such id |
| Tenants.FirstActiveWithDomain | src/tenant.py:178-183 | the first tenant in id order with the domain that is active; none iff no stored tenant qualifies |
| Tenants.FirstActiveWithDomainIndexAppend | src/tenant.py:178-183 | storing one more tenant after the others keeps an existing first match's position |
| Tenants.FirstActiveWithDomainAppend | src/tenant.py:178-183 | storing one more tenant keeps an existing first domain match; otherwise the new tenant is the match iff it has the domain and is active |
| Tenants.ActiveTenants | src/tenant.py:185-187 | every listed tenant is active and stored; every stored active tenant is listed |
| Tenants.ActiveTenantsAppend | src/tenant.py:185-187 | storing one more tenant appends it to the listing iff it is active |
| Tenants.ActiveTenantsConcat | src/tenant.py:185-187 | the active listing of two id runs is the listing of the first followed by that of the second, so insertion order is kept |
| Tenants.InsertKeepsStoreInvariant | src/tenant.py:156-157 | storing a tenant under its own fresh non-empty id keeps the store's map, order and ownership consistent |
| Tenants.TenantStore.constructor | src/tenant.py:149-152 | a new store is empty and consistent |
| Tenants.TenantStore.CreateTenant | src/tenant.py:154-163 | stores a fresh tenant under its id, appends the id to the order, maps its one token to the id and leaves every other entry alone; the new tenant is found by that token |
| Tenants.TenantStore.IndexKeys | src/tenant.py:160-161 | the index becomes the old index with every token of the keys mapped to the tenant id |
| Tenants.TenantStore.IndexValidKeys | src/tenant.py:203-205 | the index becomes the old index with every token valid at `now` mapped to the tenant id |
| Tenants.TenantStore.GetTenant | src/tenant.py:165-167 | some iff the id is stored, and then exactly the tenant stored under that id (`tenants[tenantId]`, owned by the store, with that `id`), active or not |
| Tenants.TenantStore.GetTenantByAuthKey | src/tenant.py:169-176 | some iff the index maps the key to a stored tenant whose first valid key is that very key; that tenant is returned |
| Tenants.TenantStore.GetTenantByDomain | src/tenant.py:178-183 | a returned tenant has the domain and is active and every tenant stored before it does not qualify; none iff no stored tenant qualifies |
| Tenants.TenantStore.ListTenants | src/tenant.py:185-187 | exactly the active stored tenants (order by `ActiveTenantsConcat`) |
| Tenants.TenantStore.DeactivateTenant | src/tenant.py:189-195 | true iff the id is stored; then that tenant is inactive with every key revoked; an unknown id modifies nothing |
| Tenants.TenantStore.ReactivateTenant | src/tenant.py:197-207 | true iff the id is stored; an unknown id changes nothing; otherwise the tenant is active with its keys as `Reactivate` leaves them, and every key valid afterwards is mapped to the id |
| Tenants.NoValidKeyNotResolved | src/tenant.py:169-176 | a token with no valid key anywhere in the store resolves no tenant |
| Tenants.RevokedTokenHasNoValidKey | src/tenant.py:105-119 | with unique tokens, after revoking a token no key with that token is valid |
| Tenants.InactiveKeysNotResolved | src/tenant.py:169-176 | a tenant whose keys are all revoked, as deactivation leaves it, is found by no key |
| Tenants.NewerKeyNotResolved | src/tenant.py:169-176 | while an older key is valid, a newer indexed key of the same tenant resolves nothing |
| TenantMiddleware.StripPort | src/tenant_middleware.py:103 | the longest colon-free prefix of the host: a prefix, colon-free, and followed by a colon when shorter |
| TenantMiddleware.StripPortWithoutPort | src/tenant_middleware.py:103 | a host without a colon is its own domain |
| TenantMiddleware.StripPortDropsPort | src/tenant_middleware.py:102-103 | `domain:port` is looked up as `domain` |
| TenantMiddleware.StripPortIdempotent | src/tenant_middleware.py:103 | stripping twice is stripping once |
| TenantMiddleware.HostShadowsDomainHeader | src/tenant_middleware.py:100 | with a non-empty `Host`, `X-Tenant-Domain` has no effect |
| TenantMiddleware.CurrentTenant.constructor | src/tenant_middleware.py:19 | the slot starts empty |
| TenantMiddleware.CurrentTenant.RequireTenant | src/tenant_middleware.py:154-161 | the handler runs iff a context is present and its tenant is active; otherwise 403 "Invalid or missing tenant context" |
| TenantMiddleware.CurrentTenant.FilterByTenant | src/tenant_middleware.py:166-183 | the same record comes back; `tenant_id` is set to the effective id iff that id is present and non-empty, and no other field changes; afterwards such a record passes the isolation check |
| TenantMiddleware.CurrentTenant.EnsureTenantIsolation | src/tenant_middleware.py:186-200 | with an effective id, true iff the record's `tenant_id` is that string; with none, true iff the field is missing or `None` |
| TenantMiddleware.UnownedRecordPassesWithoutContext | src/tenant_middleware.py:197-200 | with no context and no explicit id, a record without `tenant_id` passes |
| TenantMiddleware.IsolationSeparatesTenants | src/tenant_middleware.py:197-200 | a record stamped for one tenant passes that tenant's check and fails every other tenant's |
| TenantMiddleware.Middleware.constructor | src/tenant_middleware.py:25-34 | the middleware works over the given store and slot |
| TenantMiddleware.Middleware.ByKey | src/tenant_middleware.py:92-97 | a tenant is found only with a non-empty `X-Tenant-Key`; it is stored, and its current first valid key is exactly that token |
| TenantMiddleware.Middleware.ByDomain | src/tenant_middleware.py:99-106 | a tenant is found only with a non-empty host; it is stored and active, and its domain is the host with the port stripped, so a tenant whose domain contains `:` is never found by host |
| TenantMiddleware.Middleware.ById | src/tenant_middleware.py:108-113 | a tenant is found only with `X-Tenant-ID` present; it is exactly the tenant stored under that id, whose `id` is the header's value, active or not |
| TenantMiddleware.Middleware.ExtractTenant | src/tenant_middleware.py:77-115 | a resolving key wins; otherwise a resolving domain; otherwise the id path; the result is a stored tenant; an inactive result came through the key or the id header |
| TenantMiddleware.ExtractTenantByKeyOnly | src/tenant_middleware.py:92-97 | a request with only a non-empty key resolves exactly as the key lookup |
| TenantMiddleware.ExtractTenantByHostOnly | src/tenant_middleware.py:99-106 | a request with only `Host` resolves exactly as the domain search on the stripped host |
| TenantMiddleware.ExtractTenantByKeyAndHost | src/tenant_middleware.py:92-106 | with a key and a host, a resolving key wins and an unresolved key falls through to the host |
| TenantMiddleware.ExtractTenantByIdOnly | src/tenant_middleware.py:108-115 | a request with only the id header resolves to the stored tenant, active or not |
| TenantMiddleware.Middleware.Dispatch | src/tenant_middleware.py:36-75 | no tenant: 401, handler not run, slot untouched; inactive tenant: 403, handler not run, slot untouched; otherwise the handler runs with the context of that tenant (id equal to `tenant.id`, active) and the slot is empty afterwards whatever the handler ends with |
| Auth.CurrentUser.constructor | src/auth.py:17 | the slot starts empty |
| Auth.CurrentUser.SetCurrentUser | src/auth.py:61-69 | afterwards the slot, and so `get_current_user`, is exactly the given user |
| Auth.CurrentUser.CheckAuthorization | src/auth.py:183-199 | exactly the strategy's decision about the current user; with no user, true iff the strategy is an exclusion |
| Auth.CurrentUser.CheckAuthorizations | src/auth.py:202-220 | builds a composer from the list in order; ALL mode is every strategy, ANY mode is empty-or-some; an empty list passes; a one-strategy list is `check_authorization` |
| Auth.CurrentUser.RequireAuthorization | src/auth.py:88-107 | the handler runs iff the check passes; otherwise 403 "User is not authorized to perform this action" |
| Auth.CurrentUser.RequireAuthorizations | src/auth.py:139-172 | the handler runs iff the ALL or ANY check passes; otherwise the same 403; a one-strategy list behaves as `require_authorization` |
| Auth.AuthorizationMiddleware.constructor | src/auth.py:23-32 | the middleware holds whether a getter is configured and its slot |
| Auth.AuthorizationMiddleware.Dispatch | src/auth.py:34-58 | without a getter the handler sees no user; with one it sees the getter's result; a raising getter ends the request before the handler and leaves the slot; otherwise the slot is empty afterwards |
| Scenarios.NewMiddlewareWithTenant | src/tenant.py:154-183 | a tenant created on `a.local` with key K1 is found by that domain and that key |
| Scenarios.HostResolution | src/tenant_middleware.py:99-106 | `Host: a.local` resolves the tenant |
| Scenarios.HostWithPortResolution | src/tenant_middleware.py:99-106 | `Host: a.local:8080` resolves the tenant on `a.local` |
| Scenarios.KeyResolution | src/tenant_middleware.py:92-97 | `X-Tenant-Key: K1` resolves the tenant |
| Scenarios.KeyOverHostResolution | src/tenant_middleware.py:92-106 | K1 resolves the tenant despite a `Host` naming no tenant |
| Scenarios.NewMiddlewareWithRevokedKey | src/tenant.py:105-119 | revoking K1 revokes exactly that key and leaves the tenant active and stored |
| Scenarios.RevokedKeyIsNotResolved | src/tenant.py:169-176 | the revoked K1 resolves nothing |
| Scenarios.RevokedKeyFallsBackToHost | src/tenant_middleware.py:92-106 | with the revoked K1 and `Host: a.local`, the host still resolves the tenant |
| Scenarios.RevokedKeyIsUnauthenticated | src/tenant_middleware.py:53-59 | a request with only the revoked key gets 401 and its handler sees no context |
| Scenarios.NewMiddlewareWithDeactivatedTenant | src/tenant.py:189-195 | deactivating the tenant leaves it stored, inactive, with K1 revoked |
| Scenarios.DeactivatedTenantIsHiddenFromHost | src/tenant.py:178-183 | the deactivated tenant is not found by its domain |
| Scenarios.DeactivatedTenantIsHiddenFromKey | src/tenant.py:169-176 | the deactivated tenant is not found by K1 |
| Scenarios.DeactivatedTenantIsFoundById | src/tenant_middleware.py:108-115 | the id header still finds the deactivated tenant |
| Scenarios.DeactivatedTenantIsForbidden | src/tenant_middleware.py:61-65 | a request naming the deactivated tenant by id gets 403 "Tenant is inactive" and its handler never runs |
| Scenarios.ReactivatedTenantIsReachable | src/tenant.py:197-207 | reactivation mints K2 and indexes it: domain and K2 find the tenant again, the revoked K1 does not |
| Scenarios.NewMiddlewareWithGeneratedKey | src/tenant.py:91-103 | a generated K2 is appended but not indexed, so it resolves nothing |
| Scenarios.NewMiddlewareWithRotatedKey | src/tenant.py:197-207 | reactivating an active tenant changes no key but indexes both valid keys |
| Scenarios.RotationHandsOver | src/tenant.py:169-176 | while K1 is valid, K2 resolves nothing; after K1 is revoked, K2 resolves the tenant and K1 does not |
| Scenarios.SharedRolePermission | src/models.py:28-30 | a permission added to a role shared by two users is gained by both |
| Scenarios.EqualRoleIsNotAddedTwice | src/models.py:49-52 | adding an equal copy of a held role leaves one role |
| Scenarios.TeacherOrOwner | src/auth.py:130-172 | a teacher who does not own the resource is refused by `[RoleAuthorization(["teacher"]), OwnershipAuthorization()]` in ALL mode and admitted in ANY mode |

## Left out

- Concurrency.
  - The two slots are process-wide globals (`src/auth.py:17`,
    `src/tenant_middleware.py:19`) shared by concurrent requests.
  - The model follows one request at a time, so cross-request leakage and
    locking of the store are not expressed.
- `async`/`await`, Starlette's `BaseHTTPMiddleware` and `call_next` are
  framework plumbing.
  - Each handler is an `Outcome` parameter, so handler side effects are not
    modelled. A handler that raises is `Raised(...)`.
  - `functools.wraps` and the choice between the sync and async wrapper are
    also left out; the two wrappers of each guard make the same decision.
- `datetime.utcnow()` is a `now` parameter, and `timedelta` is days times
  86400 seconds.
  - Python reads the clock again in every call. The model uses one `now` per
    operation, so a key that expires between two reads inside one lookup is
    not modelled.
- `Tenants.CreateAuthKey`: does not model the `OverflowError` of
  `created_at + timedelta(days=expiration_days)` (`src/tenant.py:33`). In
  Python that error is raised when the expiry falls outside datetime's range
  (years 1 to 9999) or the day count exceeds 999999999. The model's unbounded
  time always yields a key. This carries over to
  `Tenants.Tenant.GenerateNewAuthKey`, which passes the caller's day count
  through. The core's own callers always pass 365.
- `uuid.uuid4()` is replaced by ids and tokens given as parameters.
  - `Tenants.Tenant.Create`: requires a non-empty id instead of modelling
    `__post_init__` filling an empty id with a fresh uuid. `Tenant.create`
    always passes a uuid, so that branch is never taken there.
  - `Tenants.Tenant.GenerateNewAuthKey`, `Tenants.Tenant.Reactivate` and
    `Tenants.TenantStore.ReactivateTenant`: require the new token to be unused
    by the tenant, standing in for uuid uniqueness.
  - `Tenants.TenantStore.CreateTenant`: requires an unused id, standing in for
    uuid uniqueness.
- Header names are matched exactly. Starlette's case-insensitive header lookup
  is not modelled.
- `metadata` is an opaque string map that is stored verbatim and never read.
- `HTTPException` is the `HttpError(status, detail)` value; its propagation
  through the framework is not modelled.
- Trivial or unused pieces are left out:
  - `set_tenant_store` and `get_tenant_store` (`src/tenant_middleware.py:130-138`);
  - the global default store and the `tenant_store or _tenant_store` fallback;
  - the unused `AuthorizationType` enum (`src/models.py:12-17`).
- `get_current_tenant` and `get_current_user` are reads of the slot's field
  (`context`, `user`) rather than separate functions.
- `**kwargs` of the strategies carries only `resource_id`, as the optional
  `resourceId`. Other keyword arguments are not modelled.
- Keys are values, not shared objects. A key object is owned by one tenant and
  changes only through that tenant's methods, so it is updated in place in the
  tenant's list (`RevokeFirst`, `Deactivate`).
- `src/app.py` (the routes, sample data and static files) is not part of this
  model.
- `Tenants.TenantStore.ListTenants`: its own contract states membership only.
  Insertion order comes from its definition over `ActiveTenants`, with
  `ActiveTenantsAppend` and `ActiveTenantsConcat`.
- `Tenants.TenantStore.CreateTenant`: it does not state the domain search and
  the listing after insertion. Those follow from
  `FirstActiveWithDomainAppend` and `ActiveTenantsAppend`.
