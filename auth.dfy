// functions/src/routes/auth.ts: registration, role assignment and the
// caller's own profile.

module Auth {
  import opened Wrappers
  import opened Json
  import opened Strings
  import opened Response
  import opened FirebaseAdmin
  import opened VerifyToken
  import opened RoleGate
  import opened Gates

  datatype Route = Register | AssignRole | Me

  function GuardOf(r: Route): Guard {
    match r
    case Register => Public
    case AssignRole => RoleIn(["admin"])
    case Me => Authenticated
  }

  /** Anyone may register; only an admin may assign roles. */
  lemma AuthGuards(header: Option<string>, env: Env)
    ensures Admit(GuardOf(Route.Register), header, "", env) == Admitted(None)
    ensures var a := Admit(GuardOf(Route.AssignRole), header, "", env);
      a.Admitted? ==> a.user.Some? && a.user.value.role == Str("admin")
  {
  }

  /** `name || email.split("@")[0]`, or None where `split` throws. */
  function DisplayName(name: Value, email: Value): (r: Option<Value>)
    ensures Truthy(name) ==> r == Some(name)
    ensures !Truthy(name) && email.Str? ==> r == Some(Str(LocalPart(email.s)))
    ensures r.None? <==> !Truthy(name) && !email.Str?
  {
    if Truthy(name) then Some(name)
    else if email.Str? then Some(Str(LocalPart(email.s)))
    else None
  }

  /** The profile written for a new user. */
  function NewProfile(displayName: Value, email: Value): (d: Doc)
    ensures d.Keys == {"name", "email", "role", "totalPoints", "isActive", "createdAt"}
    ensures d["name"] == displayName && d["email"] == email && d["role"] == Str("student")
    ensures d["totalPoints"] == Num(0) && d["isActive"] == Bool(true) && d["createdAt"] == ServerTime
  {
    map["name" := displayName, "email" := email, "role" := Str("student"),
        "totalPoints" := Num(0), "isActive" := Bool(true), "createdAt" := ServerTime]
  }

  /** `POST /register`. `createUser` assigns the fresh uid `newUid`; it
      refuses arguments that are not strings, and otherwise succeeds when
      `createOk` (the auth service's own checks, such as a duplicate email
      or a short password). A thrown error's message is `thrown`. */
  method Register(db: Database, accounts: Accounts, body: Doc, newUid: string,
                  createOk: bool, thrown: string) returns (reply: Reply)
    requires newUid !in accounts.records
    modifies db`users, accounts`records
    ensures var email, password := Get(body, "email"), Get(body, "password");
      var dn := DisplayName(Get(body, "name"), email);
      var created := Truthy(email) && Truthy(password) && dn.Some?
                     && email.Str? && password.Str? && dn.value.Str? && createOk;
      && (!Truthy(email) || !Truthy(password) ==>
            reply == Reply(400, Error("BAD_REQUEST", "email and password are required")))
      && (Truthy(email) && Truthy(password) && !created ==>
            reply == Reply(500, Error("REGISTER_FAILED", thrown)))
      && (!created ==> db.users == old(db.users) && accounts.records == old(accounts.records))
      && (created ==>
            && accounts.records == old(accounts.records)[newUid :=
                 Account(email, dn.value, false, map["role" := Str("student")])]
            && db.users == old(db.users)[newUid := NewProfile(dn.value, email)]
            && reply == Reply(201, Success(Obj(map["uid" := Str(newUid), "email" := email,
                                                   "name" := dn.value, "role" := Str("student")]))))
  {
    var name := Get(body, "name");
    var email := Get(body, "email");
    var password := Get(body, "password");
    if !Truthy(email) || !Truthy(password) {
      reply := Reply(400, Error("BAD_REQUEST", "email and password are required"));
      return;
    }
    var displayName := DisplayName(name, email);
    if displayName.None? {
      reply := Reply(500, Error("REGISTER_FAILED", thrown));
      return;
    }
    if !email.Str? || !password.Str? || !displayName.value.Str? || !createOk {
      reply := Reply(500, Error("REGISTER_FAILED", thrown));
      return;
    }
    accounts.records := accounts.records[newUid := Account(email, displayName.value, false, map[])];
    accounts.records := accounts.records[newUid := accounts.records[newUid].(claims := map["role" := Str("student")])];
    db.users := db.users[newUid := NewProfile(displayName.value, email)];
    reply := Reply(201, Success(Obj(map["uid" := Str(newUid), "email" := email,
                                        "name" := displayName.value, "role" := Str("student")])));
  }

  /** A new user's token claim and profile both say "student", and the two
      stores agree on the name and email. */
  lemma RegisteredAsStudent(email: Value, displayName: Value, users: map<string, Doc>, uid: string, readOk: bool)
    ensures var acct := Account(email, displayName, false, map["role" := Str("student")]);
      var profile := NewProfile(displayName, email);
      && ResolveRole(uid, Get(acct.claims, "role"), users, readOk) == Str("student")
      && Get(profile, "role") == Str("student")
      && Get(profile, "email") == acct.email && Get(profile, "name") == acct.displayName
  {
  }

  const ValidRoles: seq<string> := ["student", "admin", "instructor"]

  /** The message listing the valid roles. */
  lemma InvalidRoleMessage()
    ensures "Invalid role. Must be one of: " + Join(ValidRoles, ", ")
         == "Invalid role. Must be one of: student, admin, instructor"
  {
  }

  /** `POST /assign-role`: sets the role claim, then merges the role into
      the profile (creating it when absent). `setCustomUserClaims` throws
      for a uid without an account, and for one that is not a string. */
  method AssignRole(db: Database, accounts: Accounts, body: Doc, thrown: string) returns (reply: Reply)
    modifies db`users, accounts`records
    ensures var uid, role := Get(body, "uid"), Get(body, "role");
      && (!Truthy(uid) || !Truthy(role) ==>
            reply == Reply(400, Error("BAD_REQUEST", "uid and role are required")))
      && (Truthy(uid) && Truthy(role) && !HasRole(role, ValidRoles) ==>
            reply == Reply(400, Error("BAD_REQUEST", "Invalid role. Must be one of: " + Join(ValidRoles, ", "))))
      && (Truthy(uid) && Truthy(role) && HasRole(role, ValidRoles) && !(uid.Str? && uid.s in old(accounts.records)) ==>
            reply == Reply(500, Error("ASSIGN_ROLE_FAILED", thrown)))
      && (!(Truthy(uid) && Truthy(role) && HasRole(role, ValidRoles) && uid.Str? && uid.s in old(accounts.records)) ==>
            db.users == old(db.users) && accounts.records == old(accounts.records))
      && (Truthy(uid) && Truthy(role) && HasRole(role, ValidRoles) && uid.Str? && uid.s in old(accounts.records) ==>
            var prior := if uid.s in old(db.users) then old(db.users)[uid.s] else map[];
            && accounts.records == old(accounts.records)[uid.s := old(accounts.records)[uid.s].(claims := map["role" := role])]
            && db.users == old(db.users)[uid.s := prior["role" := role]["updatedAt" := ServerTime]]
            && reply == Reply(200, Success(Obj(map["uid" := uid, "role" := role]))))
    ensures forall u | u in old(accounts.records) && u in accounts.records &&
                       accounts.records[u] != old(accounts.records)[u] ::
      u in db.users && Get(accounts.records[u].claims, "role") == Get(db.users[u], "role")
  {
    var uid := Get(body, "uid");
    var role := Get(body, "role");
    if !Truthy(uid) || !Truthy(role) {
      reply := Reply(400, Error("BAD_REQUEST", "uid and role are required"));
      return;
    }
    if !(role.Str? && role.s in ValidRoles) {
      reply := Reply(400, Error("BAD_REQUEST", "Invalid role. Must be one of: " + Join(ValidRoles, ", ")));
      return;
    }
    if !uid.Str? || uid.s !in accounts.records {
      reply := Reply(500, Error("ASSIGN_ROLE_FAILED", thrown));
      return;
    }
    accounts.records := accounts.records[uid.s := accounts.records[uid.s].(claims := map["role" := role])];
    var prior := if uid.s in db.users then db.users[uid.s] else map[];
    assert prior + map["role" := role, "updatedAt" := ServerTime] == prior["role" := role]["updatedAt" := ServerTime];
    db.users := db.users[uid.s := prior + map["role" := role, "updatedAt" := ServerTime]];
    reply := Reply(200, Success(Obj(map["uid" := uid, "role" := role])));
  }

  /** `GET /me` for the user `verifyToken` attached. */
  function Me(users: map<string, Doc>, user: AuthUser): (reply: Reply)
    ensures user.uid !in users ==> reply == Reply(404, Error("NOT_FOUND", "User profile not found"))
    ensures user.uid in users ==> reply == Reply(200, Success(Identified("uid", user.uid, users[user.uid])))
  {
    if user.uid !in users then Reply(404, Error("NOT_FOUND", "User profile not found"))
    else Reply(200, Success(Obj(map["uid" := Str(user.uid)] + NormalizeDoc(users[user.uid]))))
  }
}
