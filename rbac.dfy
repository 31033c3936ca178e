/**
 * The role gate `authorizedRoles(...roles)`: a middleware that writes a
 * 401 or 403 response or passes the request on, depending on the
 * request's user and that user's role.
 */
module Rbac {
  import opened Outcomes
  import opened UserModel

  /** The authenticated user attached to the request; only its role is read. */
  datatype Caller = Caller(role: Option<string>)

  /**
   * What the middleware did: the HTTP statuses it wrote to the response,
   * in order, and whether it called `next`.
   */
  datatype Decision = Decision(responses: seq<int>, nextCalled: bool)

  /** `req.user?.role`. */
  function RoleOf(user: Option<Caller>): Option<string> {
    if user.Some? then user.value.role else None
  }

  /** The role check passes: a truthy role that is exactly one of `roles`. */
  predicate Admitted(roles: seq<string>, user: Option<Caller>) {
    Truthy(RoleOf(user)) && RoleOf(user).value in roles
  }

  /**
   * The gate as written. Without a user it writes 401 and, lacking a
   * `return`, goes on to the role check, which finds no role and writes a
   * second 401. With a user: 401 without a role, 403 for a role not in
   * the list, otherwise `next` and no response.
   */
  function AuthorizedRoles(roles: seq<string>, user: Option<Caller>): (d: Decision)
    ensures d.nextCalled <==> Admitted(roles, user)
    ensures d.nextCalled <==> d.responses == []
    ensures user.None? ==> d.responses == [401, 401]
    ensures user.Some? && !Truthy(user.value.role) ==> d.responses == [401]
    ensures user.Some? && Truthy(user.value.role) && user.value.role.value !in roles ==> d.responses == [403]
  {
    var first := if user.None? then [401] else [];
    var role := RoleOf(user);
    if !Truthy(role) then Decision(first + [401], false)
    else if role.value !in roles then Decision(first + [403], false)
    else Decision(first, true)
  }

  /** A request without a user gets two 401 responses written to it. */
  lemma NoUserRespondsTwice(roles: seq<string>)
    ensures |AuthorizedRoles(roles, None).responses| == 2
    ensures !AuthorizedRoles(roles, None).nextCalled
  {
  }

  /**
   * The gate with the missing `return` added: it stops after the first
   * 401 when there is no user.
   */
  function AuthorizedRolesFixed(roles: seq<string>, user: Option<Caller>): (d: Decision)
    ensures d.nextCalled <==> Admitted(roles, user)
    ensures d.nextCalled ==> d.responses == []
    ensures !d.nextCalled ==> |d.responses| == 1
    ensures user.None? ==> d.responses == [401]
  {
    if user.None? then Decision([401], false)
    else
      var role := RoleOf(user);
      if !Truthy(role) then Decision([401], false)
      else if role.value !in roles then Decision([403], false)
      else Decision([], true)
  }

  /**
   * The two gates differ only on requests without a user: with one they
   * decide identically, and without one both refuse, with one 401
   * instead of two.
   */
  lemma {:induction false} FixedDiffersOnlyWithoutUser(roles: seq<string>, user: Option<Caller>)
    ensures user.Some? ==> AuthorizedRolesFixed(roles, user) == AuthorizedRoles(roles, user)
    ensures user.None? ==>
      && !AuthorizedRolesFixed(roles, user).nextCalled && !AuthorizedRoles(roles, user).nextCalled
      && AuthorizedRoles(roles, user).responses == AuthorizedRolesFixed(roles, user).responses + [401]
  {
  }

  /** Enlarging the allowed list never turns an admission into a refusal. */
  lemma WiderListKeepsAdmission(roles: seq<string>, more: seq<string>, user: Option<Caller>)
    requires forall r | r in roles :: r in more
    requires AuthorizedRoles(roles, user).nextCalled
    ensures AuthorizedRoles(more, user).nextCalled
  {
  }

  // ---------------------------------------------------------------------
  // The role lists the user routes pass to the gate
  // ---------------------------------------------------------------------

  /** The list of the profile, password, username and delete routes. */
  const ProfileRoles: seq<string> := ["Driver", "Rider"]

  /** The change-email route passes one string holding both names. */
  const ChangeEmailRoles: seq<string> := ["Driver, Rider"]

  /** The list the profile routes evidently mean: the stored role names. */
  const ProfileRolesIntended: seq<string> := ["rider", "driver"]

  /**
   * Matching is exact, so a user with a stored role, "rider" or "driver",
   * is refused with 403 by the profile routes' gate.
   */
  lemma ProfileGateRefusesEveryRole(r: Role)
    ensures AuthorizedRoles(ProfileRoles, Some(Caller(Some(RoleName(r))))) == Decision([403], false)
  {
  }

  /** The one-string list admits neither of the names it spells out. */
  lemma ChangeEmailGateRefusesBothNames()
    ensures !AuthorizedRoles(ChangeEmailRoles, Some(Caller(Some("Driver")))).nextCalled
    ensures !AuthorizedRoles(ChangeEmailRoles, Some(Caller(Some("Rider")))).nextCalled
  {
  }

  /** With the stored role names, the gate admits every user. */
  lemma IntendedGateAdmitsEveryRole(r: Role)
    ensures AuthorizedRoles(ProfileRolesIntended, Some(Caller(Some(RoleName(r))))) == Decision([], true)
  {
  }
}
