/** The global guard (router-permissions.guard.ts): route lookup, authentication, permissions. */
module Guard {
  import opened Wrappers
  import opened Credentials
  import opened Protocol
  import opened Permissions
  import opened Registry
  import Services

  datatype Decision = Allow | TokenMissing | InvalidToken | RoleNotFound | Forbidden

  /** The marks set by decorators on the handler. */
  datatype Marks = Marks(isPublic: bool, isAdmin: bool, isRefreshToken: bool, isTwoFactorVerify: bool)

  /** The marks in force: a decorator or the registered rule sets them. */
  function Effective(marks: Marks, route: Option<RoutePermission>): Marks {
    Marks(marks.isPublic || Marked(route, (rule: RouteRule) => rule.isPublic),
          marks.isAdmin || Marked(route, (rule: RouteRule) => rule.isAdmin),
          marks.isRefreshToken || Marked(route, (rule: RouteRule) => rule.isRefreshToken),
          marks.isTwoFactorVerify || Marked(route, (rule: RouteRule) => rule.isTwoFactorVerify))
  }

  // Routes this guard leaves to nobody or to another guard.
  predicate Exempt(marks: Marks) {
    marks.isPublic || marks.isAdmin || marks.isRefreshToken
  }

  function Authorize(route: Option<RoutePermission>, role: Option<UserType>): Decision {
    var required := Required(route);
    if required == [] then Allow
    else if role.None? then RoleNotFound
    else if (if RequiresAll(route) then HasAll(role.value, required) else HasAny(role.value, required)) then Allow
    else Forbidden
  }

  function Decide(s: State, marks: Marks, route: Option<RoutePermission>, token: Option<Token>): Decision {
    var inForce := Effective(marks, route);
    if Exempt(inForce) then Allow
    else if token.None? then TokenMissing
    else if !Admits(s, token.value, inForce.isTwoFactorVerify) then InvalidToken
    else Authorize(route, token.value.userType)
  }

  // The decision, in terms of the decorators' marks and the rule's own fields. A public, admin or
  // refresh mark, by decorator or rule, lets everyone through; without one a session is needed,
  // verified and with its second factor settled unless a two-factor mark waives that; then the
  // permissions the rule lists, or else those of its group, decide: all of them, or some where
  // the rule says so.
  lemma DecisionExactly(s: State, marks: Marks, route: Option<RoutePermission>, token: Option<Token>)
    ensures var open := marks.isPublic || marks.isAdmin || marks.isRefreshToken ||
                        (route.Some? && (route.value.rule.isPublic || route.value.rule.isAdmin ||
                            route.value.rule.isRefreshToken));
            var waived := marks.isTwoFactorVerify || (route.Some? && route.value.rule.isTwoFactorVerify);
            var required :=
              if route.None? then []
              else if route.value.rule.permissions.Some? then route.value.rule.permissions.value
              else if route.value.rule.permissionGroup.Some?
                  then GroupPermissions(route.value.rule.permissionGroup.value)
              else [];
            var some := route.Some? && route.value.rule.requireAll == Some(false);
            var d := Decide(s, marks, route, token);
            && (open ==> d == Allow)
            && (Decide(s, marks, route, None) == Allow <==> open)
            && (!open ==> (d == TokenMissing <==> token.None?))
            && (!open && token.Some? ==>
                  (d == InvalidToken <==>
                   !(Verifies(s, token.value, false) &&
                     (waived || !token.value.twoFactorEnabled || token.value.twoFactorVerified))))
            && (!open && token.Some? && d != InvalidToken ==>
                  && (required == [] ==> d == Allow)
                  && (required != [] ==>
                        && (d == RoleNotFound <==> token.value.userType.None?)
                        && (token.value.userType.Some? ==>
                              var role := token.value.userType.value;
                              && (d == Allow <==>
                                  if some then exists p <- required :: p in RolePermissions(role)
                                  else forall p <- required :: p in RolePermissions(role))
                              && (d == Allow || d == Forbidden))))
  {
    hide Verifies, RolePermissions, GroupPermissions;
  }

  // For every registry and request: wherever a customer's session is let through, a landlord's or
  // an agent's is, provided only that it is admitted where the customer's is. The two sessions may
  // belong to anyone and be presented in different states.
  lemma RoleMonotone(s: State, s': State, marks: Marks, route: Option<RoutePermission>, customer: Token, other: Token)
    requires customer.Session? && other.Session? && customer.userType == Some(Customer) && other.userType.Some?
    requires var twoFactorRoute := Effective(marks, route).isTwoFactorVerify;
             Admits(s, customer, twoFactorRoute) ==> Admits(s', other, twoFactorRoute)
    requires Decide(s, marks, route, Some(customer)) == Allow
    ensures Decide(s', marks, route, Some(other)) == Allow
  {
    ManagersCanDoMore(Required(route), other.userType.value);
    hide HasAll, HasAny, Required;
  }

  /** `RouterPermissionsGuard`. The token is the one the Authorization header carries, if any. */
  class RouterPermissionsGuard {
    const registry: RoutePermissionsRegistry
    const permissions: PermissionService
    const tokens: Services.TokenService

    constructor (registry: RoutePermissionsRegistry, permissions: PermissionService, tokens: Services.TokenService)
      ensures this.registry == registry && this.permissions == permissions && this.tokens == tokens
    {
      this.registry, this.permissions, this.tokens := registry, permissions, tokens;
    }

    method CanActivate(marks: Marks, path: string, verb: string, token: Option<Token>, now: nat) returns (d: Decision)
      requires registry.Valid() && permissions.Valid()
      modifies permissions
      ensures permissions.Valid()
      ensures forall s: State :: s.rows == tokens.users.rows && s.issued == tokens.issued && s.now == now ==>
                d == Decide(s, marks, KeyLookup(registry.engine, registry.log, path, verb), token)
    {
      hide KeyLookup, HasAll, HasAny, Required, RequiresAll, Verifies, TableOf, PatternsOf, Has;
      var isPublic := registry.IsRoutePublic(path, verb);
      if marks.isPublic || isPublic {
        return Allow;
      }
      var isAdmin := registry.IsAdminRoute(path, verb);
      if marks.isAdmin || isAdmin {
        return Allow;
      }
      var isRefresh := registry.IsRefreshTokenRoute(path, verb);
      if marks.isRefreshToken || isRefresh {
        return Allow;
      }
      var isTwoFactor := registry.IsTwoFactorVerifyRoute(path, verb);
      isTwoFactor := marks.isTwoFactorVerify || isTwoFactor;
      if token.None? {
        return TokenMissing;
      }
      var payload := token.value;
      var admitted := Services.SettleSession(tokens, payload, isTwoFactor, now);
      if !admitted {
        return InvalidToken;
      }
      var required := registry.GetRequiredPermissions(path, verb);
      if |required| == 0 {
        return Allow;
      }
      if payload.userType.None? {
        return RoleNotFound;
      }
      var requireAll := registry.RequiresAllPermissions(path, verb);
      var hasPermission := false;
      if requireAll {
        hasPermission := permissions.HasAllPermissions(payload.userType.value, required);
      } else {
        hasPermission := permissions.HasAnyPermission(payload.userType.value, required);
      }
      d := if hasPermission then Allow else Forbidden;
    }
  }
}
