// functions/src/middleware/requireRole.ts: the role allow-list gate.

module RoleGate {
  import opened Wrappers
  import opened Json
  import opened Response
  import opened VerifyToken

  /** `roles.includes(role)`: only a string can equal a listed role. */
  predicate HasRole(role: Value, roles: seq<string>) {
    role.Str? && role.s in roles
  }

  /** The middleware `requireRole(...roles)` builds, applied to `req.user`.
      A missing user is refused before the role is looked at, and the gate
      changes nothing when it passes. */
  function RequireRole(roles: seq<string>, user: Option<AuthUser>): (step: Step)
    ensures user.None? ==> step == Respond(Reply(401, Error("UNAUTHORIZED", "Authentication required")))
    ensures user.Some? && !HasRole(user.value.role, roles)
            ==> step == Respond(Reply(403, Error("FORBIDDEN", "Insufficient permissions")))
    ensures step.Next? <==> user.Some? && HasRole(user.value.role, roles)
  {
    if user.None? then
      Respond(Reply(401, Obj(map["success" := Bool(false),
        "error" := Obj(map["code" := Str("UNAUTHORIZED"), "message" := Str("Authentication required")])])))
    else if !(user.value.role.Str? && user.value.role.s in roles) then
      Respond(Reply(403, Obj(map["success" := Bool(false),
        "error" := Obj(map["code" := Str("FORBIDDEN"), "message" := Str("Insufficient permissions")])])))
    else Next
  }

  /** Only membership in the allow-list matters, not its order or repeats. */
  lemma RequireRoleIgnoresOrder(roles1: seq<string>, roles2: seq<string>, user: Option<AuthUser>)
    requires forall r :: r in roles1 <==> r in roles2
    ensures RequireRole(roles1, user) == RequireRole(roles2, user)
  {
  }
}
