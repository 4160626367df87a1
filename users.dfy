// functions/src/routes/users.ts: user management for admins, over the
// `users` collection and the Firebase Auth user records.

module Users {
  import opened Wrappers
  import opened Json
  import opened Strings
  import opened Response
  import opened FirebaseAdmin
  import opened VerifyToken
  import opened Gates

  datatype Route = List | Show | Patch | Delete | Upsert

  /** `router.use(verifyToken, requireRole("admin"))` covers every route. */
  function GuardOf(r: Route): Guard {
    RoleIn(["admin"])
  }

  lemma AllRoutesNeedAdmin(r: Route, header: Option<string>, env: Env)
    ensures var a := Admit(GuardOf(r), header, "", env);
      a.Admitted? ==> a.user.Some? && a.user.value.role == Str("admin")
  {
  }

  // ---------------------------------------------------------------------
  // Listing and searching.

  /** `{uid: docSnap.id, ...normalizeFirestoreData(data)}` for each document. */
  function Profiles(s: Snapshot): (r: seq<Value>)
    ensures |r| == |s|
    ensures forall i | 0 <= i < |s| :: r[i] == Identified("uid", s[i].0, s[i].1)
    ensures forall v :: v in r <==> exists p | p in s :: v == Identified("uid", p.0, p.1)
  {
    if s == [] then [] else [Identified("uid", s[0].0, s[0].1)] + Profiles(s[1..])
  }

  /** `String(u[key] || "").toLowerCase()` */
  function Folded(u: Value, key: string): string {
    Lower(Text(Or(Field(u, key), Str(""))))
  }

  /** The search predicate: the lowercased name or email contains the
      lowercased term. */
  predicate Matches(u: Value, term: string) {
    Contains(Folded(u, "name"), Lower(term)) || Contains(Folded(u, "email"), Lower(term))
  }

  /** `users.filter(...)` with the search predicate. */
  function Search(users: seq<Value>, term: string): (r: seq<Value>)
    ensures forall v :: v in r <==> v in users && Matches(v, term)
    ensures IsSubsequence(r, users)
    ensures |r| <= |users|
  {
    if users == [] then []
    else
      var rest := Search(users[1..], term);
      if Matches(users[0], term) then
        assert ([users[0]] + rest)[1..] == rest;
        [users[0]] + rest
      else rest
  }

  /** The search does not depend on the case of the term. */
  lemma {:induction false} SearchIgnoresCase(users: seq<Value>, term: string)
    ensures Search(users, Lower(term)) == Search(users, term)
  {
    LowerIdempotent(term);
    if users != [] {
      SearchIgnoresCase(users[1..], term);
    }
  }

  /** The `role` filter of the query ("" when absent). */
  function RoleFilter(s: Snapshot, role: string): (r: Snapshot)
    ensures forall p :: p in r <==> p in s && (role == "" || Get(p.1, "role") == Str(role))
  {
    if role != "" then Where(s, "role", Str(role)) else s
  }

  /** `GET /` with the query parameters `role` and `search` ("" when
      absent): the role filter runs in the query, the search over the
      normalised profiles. */
  function ListUsers(s: Snapshot, role: string, search: string): (reply: Reply)
    ensures reply.status == 200
    ensures Decode(reply.body).Some? && Decode(reply.body).value.Succeeded?
    ensures var listed := Decode(reply.body).value.data;
      && listed.Arr?
      && forall v :: v in listed.items <==>
           && (exists p | p in s :: (role == "" || Get(p.1, "role") == Str(role))
                                    && v == Identified("uid", p.0, p.1))
           && (search == "" || Matches(v, search))
  {
    var users := Profiles(RoleFilter(s, role));
    var shown := if search != "" then Search(users, search) else users;
    Reply(200, Success(Arr(shown)))
  }

  /** `GET /:uid` */
  function ShowUser(users: map<string, Doc>, uid: string): (reply: Reply)
    ensures uid !in users ==> reply == Reply(404, Error("NOT_FOUND", "User not found"))
    ensures uid in users ==> reply == Reply(200, Success(Identified("uid", uid, users[uid])))
  {
    if uid !in users then Reply(404, Error("NOT_FOUND", "User not found"))
    else Reply(200, Success(Obj(map["uid" := Str(uid)] + NormalizeDoc(users[uid]))))
  }

  // ---------------------------------------------------------------------
  // Updating a user.

  /** `adminAuth.updateUser(uid, {email})` then `{displayName: name}`, each
      only for a truthy value, in that order. A call fails when the account
      does not exist or the value is not a string; the first failure stops
      the sequence. Yields the records afterwards and whether both calls
      that were made succeeded. */
  function SyncAuth(records: map<string, Account>, uid: string, email: Value, name: Value)
    : (r: (map<string, Account>, bool))
    ensures !Truthy(email) && !Truthy(name) ==> r == (records, true)
    ensures r.1 <==> (!Truthy(email) || email.Str?) && (!Truthy(name) || name.Str?)
                     && (Truthy(email) || Truthy(name) ==> uid in records)
    ensures r.0.Keys == records.Keys
    ensures forall k | k in records && k != uid :: r.0[k] == records[k]
    ensures uid in records ==>
      && r.0[uid].disabled == records[uid].disabled && r.0[uid].claims == records[uid].claims
      && r.0[uid].email == (if Truthy(email) && email.Str? then email else records[uid].email)
      && r.0[uid].displayName ==
           (if Truthy(name) && name.Str? && (!Truthy(email) || email.Str?) then name
            else records[uid].displayName)
  {
    var afterEmail :=
      if !Truthy(email) then (records, true)
      else if uid !in records || !email.Str? then (records, false)
      else (records[uid := records[uid].(email := email)], true);
    if !afterEmail.1 || !Truthy(name) then afterEmail
    else if uid !in afterEmail.0 || !name.Str? then (afterEmail.0, false)
    else (afterEmail.0[uid := afterEmail.0[uid].(displayName := name)], true)
  }

  const ProfileFields := {"name", "email"}

  /** `PATCH /:uid`: writes `updatedAt` and the defined `name` and `email`
      to the profile, then syncs the truthy ones to the auth record. A
      missing profile fails before anything is written; a failing sync
      answers 500 after the profile was written. */
  method PatchUser(db: Database, accounts: Accounts, uid: string, body: Doc) returns (reply: Reply)
    modifies db`users, accounts`records
    ensures uid !in old(db.users) ==>
      && reply == Reply(500, Error("UPDATE_FAILED", "Failed to update user"))
      && db.users == old(db.users) && accounts.records == old(accounts.records)
    ensures uid in old(db.users) ==>
      var user := Updated(old(db.users)[uid], body, ProfileFields)["updatedAt" := ServerTime];
      var sync := SyncAuth(old(accounts.records), uid, Get(body, "email"), Get(body, "name"));
      && db.users == old(db.users)[uid := user]
      && accounts.records == sync.0
      && reply == if sync.1 then Reply(200, Success(Identified("uid", uid, user)))
                  else Reply(500, Error("UPDATE_FAILED", "Failed to update user"))
  {
    var updates: Doc := map["updatedAt" := ServerTime];
    assert updates == Defined(body, {})["updatedAt" := ServerTime];
    if Get(body, "name") != Undefined {
      updates := updates["name" := body["name"]];
    }
    StampedStep(body, {}, "name", "updatedAt", ServerTime);
    assert {} + {"name"} == {"name"};
    assert updates == Defined(body, {"name"})["updatedAt" := ServerTime];
    if Get(body, "email") != Undefined {
      updates := updates["email" := body["email"]];
    }
    StampedStep(body, {"name"}, "email", "updatedAt", ServerTime);
    assert {"name"} + {"email"} == ProfileFields;
    assert updates == Defined(body, ProfileFields)["updatedAt" := ServerTime];
    if uid !in db.users {
      reply := Reply(500, Error("UPDATE_FAILED", "Failed to update user"));
      return;
    }
    StampedUpdate(db.users[uid], body, ProfileFields, "updatedAt", ServerTime);
    var user := db.users[uid] + updates;
    db.users := db.users[uid := user];
    var email := Get(body, "email");
    var name := Get(body, "name");
    if Truthy(email) {
      if uid !in accounts.records || !email.Str? {
        reply := Reply(500, Error("UPDATE_FAILED", "Failed to update user"));
        return;
      }
      accounts.records := accounts.records[uid := accounts.records[uid].(email := email)];
    }
    if Truthy(name) {
      if uid !in accounts.records || !name.Str? {
        reply := Reply(500, Error("UPDATE_FAILED", "Failed to update user"));
        return;
      }
      accounts.records := accounts.records[uid := accounts.records[uid].(displayName := name)];
    }
    reply := Reply(200, Success(Obj(map["uid" := Str(uid)] + NormalizeDoc(user))));
  }

  /** `DELETE /:uid`: disables the auth record, then marks the profile
      inactive; no record is removed. */
  method DeleteUser(db: Database, accounts: Accounts, uid: string) returns (reply: Reply)
    modifies db`users, accounts`records
    ensures db.users.Keys == old(db.users).Keys && accounts.records.Keys == old(accounts.records).Keys
    ensures uid !in old(accounts.records) ==>
      && reply == Reply(500, Error("DELETE_FAILED", "Failed to delete user"))
      && db.users == old(db.users) && accounts.records == old(accounts.records)
    ensures uid in old(accounts.records) ==>
      && accounts.records == old(accounts.records)[uid := old(accounts.records)[uid].(disabled := true)]
      && (uid !in old(db.users) ==>
            reply == Reply(500, Error("DELETE_FAILED", "Failed to delete user")) && db.users == old(db.users))
      && (uid in old(db.users) ==>
            && db.users == old(db.users)[uid := old(db.users)[uid]["isActive" := Bool(false)]["updatedAt" := ServerTime]]
            && reply == Reply(200, Success(Obj(map["uid" := Str(uid), "isActive" := Bool(false)]))))
  {
    if uid !in accounts.records {
      reply := Reply(500, Error("DELETE_FAILED", "Failed to delete user"));
      return;
    }
    accounts.records := accounts.records[uid := accounts.records[uid].(disabled := true)];
    if uid !in db.users {
      reply := Reply(500, Error("DELETE_FAILED", "Failed to delete user"));
      return;
    }
    assert db.users[uid] + map["isActive" := Bool(false), "updatedAt" := ServerTime]
        == db.users[uid]["isActive" := Bool(false)]["updatedAt" := ServerTime];
    db.users := db.users[uid := db.users[uid] + map["isActive" := Bool(false), "updatedAt" := ServerTime]];
    reply := Reply(200, Success(Obj(map["uid" := Str(uid), "isActive" := Bool(false)])));
  }

  // ---------------------------------------------------------------------
  // Upsert, shared with the legacy app, which names the field differently.

  /** The profile after an upsert for `uid` and `email`, with the name
      stored under `nameKey`, or None where `email.split` throws (a new
      user, no display name, and an email that is not a string). A new
      profile gets the display name or the email's local part, the student
      role, no points and both timestamps (and `isActive` when `active`);
      an existing one is merged with the email, the display name or its
      old name or "", and `updatedAt`. */
  function Upserted(prior: Option<Doc>, uid: Value, email: Value, displayName: Value,
                    nameKey: string, active: bool): (r: Option<Doc>)
    requires nameKey !in {"uid", "email", "role", "totalPoints", "isActive", "createdAt", "updatedAt"}
    ensures prior.None? ==>
      && (r.None? <==> !Truthy(displayName) && !email.Str?)
      && (r.Some? ==>
            && r.value.Keys == {"uid", "email", nameKey, "role", "totalPoints", "createdAt", "updatedAt"}
                               + (if active then {"isActive"} else {})
            && r.value["uid"] == uid && r.value["email"] == email
            && r.value[nameKey] == (if Truthy(displayName) then displayName else Str(LocalPart(email.s)))
            && r.value["role"] == Str("student") && r.value["totalPoints"] == Num(0)
            && r.value["createdAt"] == ServerTime && r.value["updatedAt"] == ServerTime
            && (active ==> r.value["isActive"] == Bool(true)))
    ensures prior.Some? ==>
      && r.Some?
      && r.value.Keys == prior.value.Keys + {"email", nameKey, "updatedAt"}
      && r.value["email"] == email && r.value["updatedAt"] == ServerTime
      && r.value[nameKey] == (if Truthy(displayName) then displayName
                              else if Truthy(Get(prior.value, nameKey)) then prior.value[nameKey]
                              else Str(""))
      && (forall k | k in prior.value && k !in {"email", nameKey, "updatedAt"} :: r.value[k] == prior.value[k])
  {
    match prior
    case None =>
      if !Truthy(displayName) && !email.Str? then None
      else
        var name := if Truthy(displayName) then displayName else Str(LocalPart(email.s));
        var profile := map["uid" := uid, "email" := email, nameKey := name, "role" := Str("student"),
                           "totalPoints" := Num(0), "createdAt" := ServerTime, "updatedAt" := ServerTime];
        Some(if active then profile["isActive" := Bool(true)] else profile)
    case Some(d) =>
      Some(d + map["email" := email, nameKey := Or(Or(displayName, Get(d, nameKey)), Str("")),
                   "updatedAt" := ServerTime])
  }

  /** An upsert of a known user never touches its role or points. */
  lemma UpsertKeepsRole(d: Doc, uid: Value, email: Value, displayName: Value)
    ensures var r := Upserted(Some(d), uid, email, displayName, "name", true).value;
      Get(r, "role") == Get(d, "role") && Get(r, "totalPoints") == Get(d, "totalPoints")
  {
  }

  /** `POST /upsert` */
  method UpsertUser(db: Database, body: Doc) returns (reply: Reply)
    modifies db`users
    ensures var uid, email := Get(body, "uid"), Get(body, "email");
      && (!Truthy(uid) || !Truthy(email) ==>
            reply == Reply(400, Error("BAD_REQUEST", "uid and email are required")) && db.users == old(db.users))
      && (Truthy(uid) && Truthy(email) && !uid.Str? ==>
            reply == Reply(500, Error("UPSERT_FAILED", "Failed to upsert user profile")) && db.users == old(db.users))
      && (Truthy(uid) && Truthy(email) && uid.Str? ==>
            var r := Upserted(if uid.s in old(db.users) then Some(old(db.users)[uid.s]) else None,
                              uid, email, Get(body, "displayName"), "name", true);
            && (r.None? ==> reply == Reply(500, Error("UPSERT_FAILED", "Failed to upsert user profile"))
                            && db.users == old(db.users))
            && (r.Some? ==> db.users == old(db.users)[uid.s := r.value]
                            && reply == Reply(200, Success(Identified("uid", uid.s, r.value)))))
  {
    var uid := Get(body, "uid");
    var email := Get(body, "email");
    if !Truthy(uid) || !Truthy(email) {
      reply := Reply(400, Error("BAD_REQUEST", "uid and email are required"));
      return;
    }
    if !uid.Str? {
      // `doc(uid)` refuses a non-string path.
      reply := Reply(500, Error("UPSERT_FAILED", "Failed to upsert user profile"));
      return;
    }
    var prior := if uid.s in db.users then Some(db.users[uid.s]) else None;
    var r := Upserted(prior, uid, email, Get(body, "displayName"), "name", true);
    if r.None? {
      reply := Reply(500, Error("UPSERT_FAILED", "Failed to upsert user profile"));
      return;
    }
    db.users := db.users[uid.s := r.value];
    reply := Reply(200, Success(Identified("uid", uid.s, r.value)));
  }
}
