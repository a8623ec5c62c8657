/**
 * Role-based access control: roles, users, the four authorization
 * strategies and the composer that combines them with ALL or ANY semantics.
 */
module Models {
  import opened Wrappers

  /** A named bundle of permission strings; only the permission set is ever updated. */
  class Role {
    const name: string
    const displayLabel: string
    const isPrivate: bool
    var permissions: set<string>

    constructor (name: string, displayLabel: string, isPrivate: bool, permissions: set<string>)
      ensures this.name == name && this.displayLabel == displayLabel && this.isPrivate == isPrivate
      ensures this.permissions == permissions
    {
      this.name := name;
      this.displayLabel := displayLabel;
      this.isPrivate := isPrivate;
      this.permissions := permissions;
    }

    predicate HasPermission(permission: string)
      reads this
    {
      permission in permissions
    }

    /** `add_permission`: the permission is held afterwards and no other permission changes. */
    method AddPermission(permission: string)
      modifies this
      ensures permissions == old(permissions) + {permission}
      ensures HasPermission(permission)
      ensures forall q :: q != permission ==> (HasPermission(q) <==> q in old(permissions))
    {
      permissions := permissions + {permission};
    }

    /** `remove_permission` (a set `discard`): never fails, and an absent permission changes nothing. */
    method RemovePermission(permission: string)
      modifies this
      ensures permissions == old(permissions) - {permission}
      ensures !HasPermission(permission)
      ensures forall q :: q != permission ==> (HasPermission(q) <==> q in old(permissions))
      ensures permission !in old(permissions) ==> permissions == old(permissions)
    {
      permissions := permissions - {permission};
    }
  }

  /** Dataclass equality of two roles: every field is equal, whether or not they are the same object. */
  predicate SameRole(a: Role, b: Role)
    reads a, b
  {
    a.name == b.name && a.displayLabel == b.displayLabel && a.isPrivate == b.isPrivate && a.permissions == b.permissions
  }

  /** The position of the first role equal to `role` (Python's `in` and `list.remove` search). */
  function FindRole(roles: seq<Role>, role: Role): (r: Option<nat>)
    reads roles, role
    ensures r.None? <==> forall i :: 0 <= i < |roles| ==> !SameRole(roles[i], role)
    ensures r.Some? ==> r.value < |roles| && SameRole(roles[r.value], role) &&
                        forall j :: 0 <= j < r.value ==> !SameRole(roles[j], role)
  {
    if roles == [] then None
    else if SameRole(roles[0], role) then Some(0)
    else
      var rest := FindRole(roles[1..], role);
      if rest.None? then None else Some(rest.value + 1)
  }

  /** No two roles of the list are equal. */
  predicate Distinct(roles: seq<Role>)
    reads roles
  {
    forall i, j :: 0 <= i < j < |roles| ==> !SameRole(roles[i], roles[j])
  }

  /** The union of the permission sets of a list of roles. */
  function EffectivePermissions(roles: seq<Role>): set<string>
    reads roles
  {
    if roles == [] then {} else roles[0].permissions + EffectivePermissions(roles[1..])
  }

  /** An identity with an ordered list of roles and the ids of the resources it owns. */
  class User {
    const email: string
    const name: string
    var roles: seq<Role>
    var ownerOf: set<string>

    constructor (email: string, name: string, roles: seq<Role>, ownerOf: set<string>)
      ensures this.email == email && this.name == name && this.roles == roles && this.ownerOf == ownerOf
    {
      this.email := email;
      this.name := name;
      this.roles := roles;
      this.ownerOf := ownerOf;
    }

    predicate HasRole(roleName: string)
      reads this
    {
      exists i :: 0 <= i < |roles| && roles[i].name == roleName
    }

    predicate HasPermission(permission: string)
      reads this, roles
    {
      exists i :: 0 <= i < |roles| && roles[i].HasPermission(permission)
    }

    predicate OwnsResource(resourceId: string)
      reads this
    {
      resourceId in ownerOf
    }

    /** `add_role`: appends only a role no equal of which is held, so no duplicate appears and the old order is kept. */
    method AddRole(role: Role)
      modifies this
      ensures FindRole(old(roles), role).Some? ==> roles == old(roles)
      ensures FindRole(old(roles), role).None? ==> roles == old(roles) + [role]
      ensures FindRole(roles, role).Some? && HasRole(role.name)
      ensures Distinct(old(roles)) ==> Distinct(roles)
      ensures forall n :: old(HasRole(n)) ==> HasRole(n)
      ensures ownerOf == old(ownerOf)
    {
      if FindRole(roles, role).None? {
        roles := roles + [role];
        assert roles[|roles| - 1] == role;
        forall n | old(HasRole(n))
          ensures HasRole(n)
        {
          var i :| 0 <= i < |old(roles)| && old(roles)[i].name == n;
          assert roles[i] == old(roles)[i];
        }
      }
    }

    /** `remove_role`: removes the first equal role if there is one, and otherwise changes nothing. */
    method RemoveRole(role: Role)
      modifies this
      ensures FindRole(old(roles), role).None? ==> roles == old(roles)
      ensures FindRole(old(roles), role).Some? ==>
                var i := FindRole(old(roles), role).value; roles == old(roles)[..i] + old(roles)[i + 1..]
      ensures Distinct(old(roles)) ==> FindRole(roles, role).None?
      ensures ownerOf == old(ownerOf)
    {
      var found := FindRole(roles, role);
      if found.Some? {
        var i := found.value;
        ghost var before := roles;
        roles := roles[..i] + roles[i + 1..];
        if Distinct(before) {
          forall j | 0 <= j < |roles|
            ensures !SameRole(roles[j], role)
          {
            if j >= i {
              assert roles[j] == before[j + 1];
              assert !SameRole(before[i], before[j + 1]);
            }
          }
        }
      }
    }
  }

  /** A user holds every permission of every role it has, and no other. */
  lemma {:induction false} EffectivePermissionsIff(roles: seq<Role>, permission: string)
    ensures permission in EffectivePermissions(roles) <==>
            exists i :: 0 <= i < |roles| && roles[i].HasPermission(permission)
  {
    if roles != [] {
      EffectivePermissionsIff(roles[1..], permission);
      if permission in EffectivePermissions(roles) && !roles[0].HasPermission(permission) {
        var i :| 0 <= i < |roles[1..]| && roles[1..][i].HasPermission(permission);
        assert roles[i + 1] == roles[1..][i];
      }
      if (exists i :: 0 <= i < |roles| && roles[i].HasPermission(permission)) && !roles[0].HasPermission(permission) {
        var i :| 0 <= i < |roles| && roles[i].HasPermission(permission);
        assert roles[1..][i - 1] == roles[i];
      }
    }
  }

  /** `User.has_permission` is membership in the union of the user's role permissions. */
  lemma HasPermissionIffEffective(user: User, permission: string)
    ensures user.HasPermission(permission) <==> permission in EffectivePermissions(user.roles)
  {
    EffectivePermissionsIff(user.roles, permission);
  }

  /** The objects an authorization decision about `user` may read. */
  function UserFrame(user: Option<User>): set<object> {
    if user.Some? then {user.value} else {}
  }

  /** Python's `any(user.has_role(n) for n in names)`. */
  predicate HoldsAnyRole(user: User, names: seq<string>)
    reads user
  {
    exists j :: 0 <= j < |names| && user.HasRole(names[j])
  }

  /** The polymorphic `Authorization` classes as one tagged variant; `resourceId` is the only keyword argument. */
  datatype Authorization =
    | RoleAuthorization(requiredRoles: seq<string>)
    | OwnershipAuthorization
    | LimitedAccessAuthorization(allowedRoles: seq<string>)
    | AuthorizationExclusion(excludedRoles: seq<string>)
  {
    predicate Authorize(user: Option<User>, resourceId: Option<string>)
      reads UserFrame(user)
    {
      match this
      case RoleAuthorization(required) => user.Some? && HoldsAnyRole(user.value, required)
      case OwnershipAuthorization =>
        user.Some? && resourceId.Some? && resourceId.value != "" && user.value.OwnsResource(resourceId.value)
      case LimitedAccessAuthorization(allowed) => user.Some? && HoldsAnyRole(user.value, allowed)
      case AuthorizationExclusion(excluded) => user.None? || !HoldsAnyRole(user.value, excluded)
    }
  }

  /** Role (and the allow-list) authorize exactly the present users whose role names meet the list. */
  lemma RoleAuthorizationIff(names: seq<string>, user: Option<User>, resourceId: Option<string>)
    ensures RoleAuthorization(names).Authorize(user, resourceId) <==>
            user.Some? && exists i, j :: 0 <= i < |user.value.roles| && 0 <= j < |names| && user.value.roles[i].name == names[j]
    ensures LimitedAccessAuthorization(names).Authorize(user, resourceId) <==>
            RoleAuthorization(names).Authorize(user, resourceId)
    ensures names == [] ==> !RoleAuthorization(names).Authorize(user, resourceId)
  {
  }

  /** Ownership fails closed on a missing user or a missing or empty resource id. */
  lemma OwnershipAuthorizationIff(user: Option<User>, resourceId: Option<string>)
    ensures OwnershipAuthorization.Authorize(user, resourceId) <==>
            user.Some? && resourceId.Some? && resourceId.value != "" && resourceId.value in user.value.ownerOf
  {
  }

  /** Exclusion fails open on a missing user, and an empty exclusion list authorizes everyone. */
  lemma ExclusionAuthorizationIff(names: seq<string>, user: Option<User>, resourceId: Option<string>)
    ensures AuthorizationExclusion(names).Authorize(user, resourceId) <==>
            user.None? || forall i, j :: 0 <= i < |user.value.roles| && 0 <= j < |names| ==> user.value.roles[i].name != names[j]
    ensures AuthorizationExclusion([]).Authorize(user, resourceId)
    ensures AuthorizationExclusion(names).Authorize(None, resourceId)
  {
  }

  /** With no user, exactly the exclusion strategies authorize. */
  lemma NoUserOnlyExclusionAuthorizes(a: Authorization, resourceId: Option<string>)
    ensures a.Authorize(None, resourceId) <==> a.AuthorizationExclusion?
  {
  }

  /** Python's `all(auth.authorize(user, **kwargs) for auth in auths)`, left to right. */
  function AllAuthorize(auths: seq<Authorization>, user: Option<User>, resourceId: Option<string>): bool
    reads UserFrame(user)
  {
    if auths == [] then true else auths[0].Authorize(user, resourceId) && AllAuthorize(auths[1..], user, resourceId)
  }

  /** Python's `any(auth.authorize(user, **kwargs) for auth in auths)`, left to right; false on an empty list. */
  function AnyAuthorize(auths: seq<Authorization>, user: Option<User>, resourceId: Option<string>): bool
    reads UserFrame(user)
  {
    if auths == [] then false else auths[0].Authorize(user, resourceId) || AnyAuthorize(auths[1..], user, resourceId)
  }

  lemma {:induction false} AllAuthorizeIffEvery(auths: seq<Authorization>, user: Option<User>, resourceId: Option<string>)
    ensures AllAuthorize(auths, user, resourceId) <==>
            forall i :: 0 <= i < |auths| ==> auths[i].Authorize(user, resourceId)
  {
    if auths != [] {
      AllAuthorizeIffEvery(auths[1..], user, resourceId);
      assert forall i :: 1 <= i < |auths| ==> auths[i] == auths[1..][i - 1];
    }
  }

  lemma {:induction false} AnyAuthorizeIffSome(auths: seq<Authorization>, user: Option<User>, resourceId: Option<string>)
    ensures AnyAuthorize(auths, user, resourceId) <==>
            exists i :: 0 <= i < |auths| && auths[i].Authorize(user, resourceId)
  {
    if auths != [] {
      AnyAuthorizeIffSome(auths[1..], user, resourceId);
      assert forall i :: 1 <= i < |auths| ==> auths[i] == auths[1..][i - 1];
    }
  }

  /** Composer of strategies; the list only grows, by `add_authorization`. */
  class AuthorizationContext {
    var authorizations: seq<Authorization>

    constructor ()
      ensures authorizations == []
    {
      authorizations := [];
    }

    /** Fluent append: the strategy goes last and the same context is returned. */
    method AddAuthorization(authorization: Authorization) returns (self: AuthorizationContext)
      modifies this
      ensures authorizations == old(authorizations) + [authorization]
      ensures self == this
    {
      authorizations := authorizations + [authorization];
      self := this;
    }

    /** ALL mode: every strategy authorizes; vacuously true with no strategy. */
    function Check(user: Option<User>, resourceId: Option<string>): (r: bool)
      reads this, UserFrame(user)
      ensures r <==> forall i :: 0 <= i < |authorizations| ==> authorizations[i].Authorize(user, resourceId)
      ensures authorizations == [] ==> r
    {
      AllAuthorizeIffEvery(authorizations, user, resourceId);
      AllAuthorize(authorizations, user, resourceId)
    }

    /** ANY mode: some strategy authorizes, and also true with no strategy. */
    function CheckAny(user: Option<User>, resourceId: Option<string>): (r: bool)
      reads this, UserFrame(user)
      ensures r <==> authorizations == [] || exists i :: 0 <= i < |authorizations| && authorizations[i].Authorize(user, resourceId)
      ensures authorizations != [] && Check(user, resourceId) ==> r
    {
      if authorizations == [] then true
      else
        AnyAuthorizeIffSome(authorizations, user, resourceId);
        assert Check(user, resourceId) ==> authorizations[0].Authorize(user, resourceId);
        AnyAuthorize(authorizations, user, resourceId)
    }
  }
}
