/**
 * Request-scoped authorization: the middleware that places the current user
 * in a slot for the duration of a request, the slot's accessors, the
 * one-shot checks and the guards that run a handler only when authorized.
 */
module Auth {
  import opened Wrappers
  import opened Http
  import opened Models

  const NOT_AUTHORIZED := "User is not authorized to perform this action"

  /** The process-wide slot holding the user of the request being served. */
  class CurrentUser {
    var user: Option<User>

    constructor ()
      ensures user.None?
    {
      user := None;
    }

    /** `set_current_user`: the slot holds exactly `u` afterwards, so `get_current_user` returns it. */
    method SetCurrentUser(u: Option<User>)
      modifies this
      ensures user == u
    {
      user := u;
    }

    /** `check_authorization`: the strategy's decision about the current user. */
    function CheckAuthorization(authorization: Authorization, resourceId: Option<string>): (r: bool)
      reads this, UserFrame(user)
      ensures r <==> authorization.Authorize(user, resourceId)
      ensures user.None? ==> (r <==> authorization.AuthorizationExclusion?)
    {
      NoUserOnlyExclusionAuthorizes(authorization, resourceId);
      authorization.Authorize(user, resourceId)
    }

    /**
     * `check_authorizations`: builds a fresh composer from the list, in
     * order, and asks it in ALL mode (`requireAll`) or ANY mode.  Both modes
     * accept an empty list.
     */
    method CheckAuthorizations(authorizations: seq<Authorization>, requireAll: bool, resourceId: Option<string>)
      returns (r: bool)
      ensures requireAll ==> (r <==> forall i :: 0 <= i < |authorizations| ==> authorizations[i].Authorize(user, resourceId))
      ensures !requireAll ==>
                (r <==> authorizations == [] || exists i :: 0 <= i < |authorizations| && authorizations[i].Authorize(user, resourceId))
      ensures authorizations == [] ==> r
      ensures |authorizations| == 1 ==> (r <==> CheckAuthorization(authorizations[0], resourceId))
    {
      var context := new AuthorizationContext();
      for k := 0 to |authorizations|
        invariant context.authorizations == authorizations[..k]
      {
        var _ := context.AddAuthorization(authorizations[k]);
      }
      assert context.authorizations == authorizations;
      r := if requireAll then context.Check(user, resourceId) else context.CheckAny(user, resourceId);
    }

    /** `require_authorization`: the handler runs iff the strategy authorizes the current user, else 403. */
    function RequireAuthorization(authorization: Authorization, resourceId: Option<string>, handler: Outcome): (r: Guarded)
      reads this, UserFrame(user)
      ensures r.Called? <==> CheckAuthorization(authorization, resourceId)
      ensures r.Called? ==> r.outcome == handler
      ensures r.Refused? ==> r.error == HttpError(FORBIDDEN, NOT_AUTHORIZED)
    {
      if !authorization.Authorize(user, resourceId) then Refused(HttpError(FORBIDDEN, NOT_AUTHORIZED))
      else Called(handler)
    }

    /** `require_authorizations`: the handler runs iff the combined check passes, else 403. */
    method RequireAuthorizations(authorizations: seq<Authorization>, requireAll: bool, resourceId: Option<string>, handler: Outcome)
      returns (r: Guarded)
      ensures requireAll ==>
                (r.Called? <==> forall i :: 0 <= i < |authorizations| ==> authorizations[i].Authorize(user, resourceId))
      ensures !requireAll ==>
                (r.Called? <==> authorizations == [] || exists i :: 0 <= i < |authorizations| && authorizations[i].Authorize(user, resourceId))
      ensures r.Called? ==> r.outcome == handler
      ensures r.Refused? ==> r.error == HttpError(FORBIDDEN, NOT_AUTHORIZED)
      ensures |authorizations| == 1 ==> r == RequireAuthorization(authorizations[0], resourceId, handler)
    {
      var authorized := CheckAuthorizations(authorizations, requireAll, resourceId);
      if !authorized {
        return Refused(HttpError(FORBIDDEN, NOT_AUTHORIZED));
      }
      r := Called(handler);
    }
  }

  /** What the configured user getter does for one request: it yields a user (or `None`), or it raises. */
  datatype UserLookup = Found(user: Option<User>) | LookupFailed(error: Error)

  /** The middleware: fills the slot from the getter for the duration of the handler and clears it afterwards. */
  class AuthorizationMiddleware {
    /** Whether a user getter was configured. */
    const hasGetter: bool
    const slot: CurrentUser

    constructor (hasGetter: bool, slot: CurrentUser)
      ensures this.hasGetter == hasGetter && this.slot == slot
    {
      this.hasGetter := hasGetter;
      this.slot := slot;
    }

    /**
     * `dispatch`: with a getter, the slot holds the getter's result while
     * the handler runs; without one it holds `None`.  Whatever the handler
     * ends with, the slot is `None` afterwards.  A getter that raises ends
     * the request before the handler and before the slot is touched.
     * `called` says whether the handler ran and `seen` is the user it saw.
     */
    method Dispatch(lookup: UserLookup, handler: Outcome) returns (outcome: Outcome, called: bool, seen: Option<User>)
      modifies slot
      ensures hasGetter && lookup.LookupFailed? ==>
                outcome == Raised(lookup.error) && !called && slot.user == old(slot.user)
      ensures !hasGetter ==> called && seen.None? && outcome == handler && slot.user.None?
      ensures hasGetter && lookup.Found? ==> called && seen == lookup.user && outcome == handler && slot.user.None?
    {
      if hasGetter {
        if lookup.LookupFailed? {
          return Raised(lookup.error), false, None;
        }
        slot.SetCurrentUser(lookup.user);
      } else {
        slot.SetCurrentUser(None);
      }
      seen := slot.user;
      called := true;
      outcome := handler;
      slot.SetCurrentUser(None);
    }
  }
}
