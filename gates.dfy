// The middleware chains the routers put in front of their handlers
// (`verifyToken`, then `requireRole(...)` or `checkEnrollment`), run as one
// decision: who reaches the handler, and what everyone else is told.

module Gates {
  import opened Wrappers
  import opened Json
  import opened Response
  import opened VerifyToken
  import opened RoleGate
  import opened EnrollmentGate

  /** The chain in front of a route. */
  datatype Guard =
    | Public                    // no middleware
    | Optional                  // optionalAuth
    | Authenticated             // verifyToken
    | RoleIn(roles: seq<string>) // verifyToken, requireRole(...roles)
    | EnrolledOrAdmin           // verifyToken, checkEnrollment

  /** Everything the middleware consults: the token oracle, the `users`
      collection read by role resolution, and the `enrollments` collection
      read by the enrollment gate, each with whether its read succeeds. */
  datatype Env = Env(verify: string -> Option<Decoded>,
                     users: map<string, Doc>, readOk: bool,
                     enrollments: map<string, Doc>, queryOk: bool)

  /** Either the handler runs, with `req.user` as given, or the chain answered. */
  datatype Admission = Admitted(user: Option<AuthUser>) | Refused(reply: Reply)

  predicate NeedsToken(g: Guard) {
    g.Authenticated? || g.RoleIn? || g.EnrolledOrAdmin?
  }

  function Authentication(header: Option<string>, env: Env): AuthResult {
    Authenticate(header, env.verify, env.users, env.readOk)
  }

  /** Run the chain `g` for a request with Authorization header `header` on
      a route whose `courseId` parameter is `courseId`. */
  function Admit(g: Guard, header: Option<string>, courseId: string, env: Env): (a: Admission)
    ensures g.Public? ==> a == Admitted(None)
    ensures g.Optional? ==> a == Admitted(
      if Authentication(header, env).Verified? then Some(Authentication(header, env).user) else None)
    ensures NeedsToken(g) && !Authentication(header, env).Verified?
            ==> a == Refused(Rejection(Authentication(header, env)))
    ensures NeedsToken(g) && a.Admitted? ==>
      Authentication(header, env).Verified? && a.user == Some(Authentication(header, env).user)
    ensures g.RoleIn? && a.Admitted? ==> HasRole(a.user.value.role, g.roles)
    ensures g.EnrolledOrAdmin? && a.Admitted? ==>
      a.user.value.role == Str("admin") || Enrolled(env.enrollments, a.user.value.uid, Str(courseId))
  {
    var auth := Authentication(header, env);
    match g
    case Public => Admitted(None)
    case Optional => Admitted(if auth.Verified? then Some(auth.user) else None)
    case Authenticated =>
      if auth.Verified? then Admitted(Some(auth.user)) else Refused(Rejection(auth))
    case RoleIn(roles) =>
      if auth.Verified? then Then(RequireRole(roles, Some(auth.user)), auth.user)
      else Refused(Rejection(auth))
    case EnrolledOrAdmin =>
      if auth.Verified? then
        Then(CheckEnrollment(Some(auth.user), courseId, env.enrollments, env.queryOk), auth.user)
      else Refused(Rejection(auth))
  }

  /** The second middleware of a chain, once `verifyToken` attached `user`. */
  function Then(step: Step, user: AuthUser): Admission {
    match step
    case Next => Admitted(Some(user))
    case Respond(reply) => Refused(reply)
  }

  /** A request without a well-formed Bearer header never reaches a handler
      behind `verifyToken`, and is told so with 401. */
  lemma MissingTokenRefused(g: Guard, header: Option<string>, courseId: string, env: Env)
    requires NeedsToken(g) && BearerToken(header).None?
    ensures Admit(g, header, courseId, env)
            == Refused(Reply(401, Error("UNAUTHORIZED", "Missing or invalid token")))
  {
  }

  /** Behind `requireRole("admin")`, only a verified admin gets through. */
  lemma AdminChainAdmitsOnlyAdmins(header: Option<string>, courseId: string, env: Env)
    ensures Admit(RoleIn(["admin"]), header, courseId, env).Admitted?
            <==> Authentication(header, env).Verified? && Authentication(header, env).user.role == Str("admin")
  {
  }
}
