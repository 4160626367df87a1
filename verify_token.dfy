// functions/src/middleware/verifyToken.ts: role resolution, the Bearer
// header parse, and the required / optional authentication middleware.

module VerifyToken {
  import opened Wrappers
  import opened Json
  import opened Strings
  import opened Response

  /** What `verifyIdToken` yields for a valid token: the subject, its email
      if any, and the `role` custom claim (untyped; undefined when absent). */
  datatype Decoded = Decoded(uid: string, email: Option<string>, role: Value)

  /** `req.user` */
  datatype AuthUser = AuthUser(uid: string, email: string, role: Value)

  /** `resolveRole(uid, tokenRole)`. The store read of `users/{uid}` is
      `users` when `readOk`, and a thrown error otherwise. */
  function ResolveRole(uid: string, tokenRole: Value, users: map<string, Doc>, readOk: bool): (role: Value)
    ensures Truthy(role)
    ensures Truthy(tokenRole) ==> role == tokenRole
    ensures (!Truthy(tokenRole) && readOk && uid in users && Truthy(Get(users[uid], "role")))
            ==> role == Get(users[uid], "role")
    ensures (!Truthy(tokenRole) && !(readOk && uid in users && Truthy(Get(users[uid], "role"))))
            ==> role == Str("student")
  {
    if Truthy(tokenRole) then tokenRole
    else if readOk && uid in users && Truthy(Get(users[uid], "role")) then Get(users[uid], "role")
    else Str("student")
  }

  /** With a role claim the store is not consulted: neither its contents nor
      a failing read changes the result. */
  lemma ClaimNeedsNoRead(uid: string, tokenRole: Value,
                         users1: map<string, Doc>, ok1: bool, users2: map<string, Doc>, ok2: bool)
    requires Truthy(tokenRole)
    ensures ResolveRole(uid, tokenRole, users1, ok1) == ResolveRole(uid, tokenRole, users2, ok2) == tokenRole
  {
  }

  /** A failing read never surfaces: it yields the default role. */
  lemma ReadFailureFailsOpen(uid: string, tokenRole: Value, users: map<string, Doc>)
    requires !Truthy(tokenRole)
    ensures ResolveRole(uid, tokenRole, users, false) == Str("student")
  {
  }

  const Bearer: string := "Bearer "

  /** The token the middleware passes to `verifyIdToken`:
      `header.split("Bearer ")[1]` once `header.startsWith("Bearer ")`. */
  function BearerToken(header: Option<string>): Option<string> {
    if header.Some? && StartsWith(header.value, Bearer) then
      SplitLeading(header.value, Bearer);
      Some(Split(header.value, Bearer)[1])
    else None
  }

  /** The token is the text after the leading "Bearer ", up to the next
      "Bearer " if the header has one, else to the end. */
  lemma BearerTokenAfterPrefix(h: string)
    requires StartsWith(h, Bearer)
    ensures BearerToken(Some(h)) == Some(Before(h[|Bearer|..], Bearer))
    ensures var t := BearerToken(Some(h)).value;
      && StartsWith(h, Bearer + t)
      && (forall i | |Bearer| <= i < |Bearer| + |t| :: !OccursAt(h, Bearer, i))
      && (h == Bearer + t || OccursAt(h, Bearer, |Bearer| + |t|))
  {
    var rest := h[|Bearer|..];
    SplitLeading(h, Bearer);
    SplitFirst(rest, Bearer);
    var t := Before(rest, Bearer);
    assert h == Bearer + rest;
    assert StartsWith(h, Bearer + t) by {
      assert h[..|Bearer| + |t|] == Bearer + rest[..|t|];
    }
    forall i | |Bearer| <= i < |Bearer| + |t| ensures !OccursAt(h, Bearer, i) {
      if OccursAt(h, Bearer, i) {
        assert h[i..i + |Bearer|] == rest[i - |Bearer|..i - |Bearer| + |Bearer|];
        assert OccursAt(rest, Bearer, i - |Bearer|);
      }
    }
    if t != rest {
      assert OccursAt(rest, Bearer, |t|);
      assert h[|Bearer| + |t|..|Bearer| + |t| + |Bearer|] == rest[|t|..|t| + |Bearer|];
    }
  }

  /** The outcome of checking the Authorization header. */
  datatype AuthResult = Malformed | Invalid | Verified(user: AuthUser)

  /** Parse, verify and resolve the role, as both middleware variants do. */
  function Authenticate(header: Option<string>, verify: string -> Option<Decoded>,
                        users: map<string, Doc>, readOk: bool): (a: AuthResult)
    ensures a.Malformed? <==> BearerToken(header).None?
    ensures a.Invalid? <==> BearerToken(header).Some? && verify(BearerToken(header).value).None?
    ensures a.Verified? ==>
      var d := verify(BearerToken(header).value).value;
      && a.user.uid == d.uid
      && a.user.email == (if d.email.Some? then d.email.value else "")
      && a.user.role == ResolveRole(d.uid, d.role, users, readOk)
      && Truthy(a.user.role)
  {
    match BearerToken(header)
    case None => Malformed
    case Some(token) =>
      match verify(token)
      case None => Invalid
      case Some(d) =>
        Verified(AuthUser(d.uid, if d.email.Some? then d.email.value else "",
                          ResolveRole(d.uid, d.role, users, readOk)))
  }

  /** The 401 replies `verifyToken` writes inline. */
  function Rejection(a: AuthResult): (r: Reply)
    requires !a.Verified?
    ensures a.Malformed? ==> r == Reply(401, Error("UNAUTHORIZED", "Missing or invalid token"))
    ensures a.Invalid? ==> r == Reply(401, Error("UNAUTHORIZED", "Invalid or expired token"))
  {
    var message := if a.Malformed? then "Missing or invalid token" else "Invalid or expired token";
    Reply(401, Obj(map["success" := Bool(false),
                       "error" := Obj(map["code" := Str("UNAUTHORIZED"), "message" := Str(message)])]))
  }

  /** The Express request, as far as the middleware reads and writes it. */
  class Request {
    const authorization: Option<string>
    var user: Option<AuthUser>

    constructor (authorization: Option<string>)
      ensures this.authorization == authorization && user == None
    {
      this.authorization := authorization;
      user := None;
    }
  }

  /** `verifyToken`: attach the user and call `next()`, or answer 401 and
      attach nothing. */
  method RequireAuth(req: Request, verify: string -> Option<Decoded>,
                     users: map<string, Doc>, readOk: bool) returns (step: Step)
    modifies req`user
    ensures var a := Authenticate(req.authorization, verify, users, readOk);
      if a.Verified? then step == Next && req.user == Some(a.user)
      else step == Respond(Rejection(a)) && req.user == old(req.user)
  {
    var header := req.authorization;
    if !(header.Some? && StartsWith(header.value, Bearer)) {
      step := Respond(Rejection(Malformed));
      return;
    }
    var token := BearerToken(header).value;
    var decoded := verify(token);
    if decoded.None? {
      step := Respond(Rejection(Invalid));
      return;
    }
    var d := decoded.value;
    var role := ResolveRole(d.uid, d.role, users, readOk);
    req.user := Some(AuthUser(d.uid, if d.email.Some? then d.email.value else "", role));
    step := Next;
  }

  /** `optionalAuth`: always calls `next()`; attaches a user only for a
      well-formed header whose token verifies. */
  method OptionalAuth(req: Request, verify: string -> Option<Decoded>,
                      users: map<string, Doc>, readOk: bool) returns (step: Step)
    modifies req`user
    ensures step == Next
    ensures var a := Authenticate(req.authorization, verify, users, readOk);
      req.user == if a.Verified? then Some(a.user) else old(req.user)
  {
    var header := req.authorization;
    if header.Some? && StartsWith(header.value, Bearer) {
      var token := BearerToken(header).value;
      var decoded := verify(token);
      if decoded.Some? {
        var d := decoded.value;
        var role := ResolveRole(d.uid, d.role, users, readOk);
        req.user := Some(AuthUser(d.uid, if d.email.Some? then d.email.value else "", role));
      }
    }
    step := Next;
  }
}
