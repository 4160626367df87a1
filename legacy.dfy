// functions/src/index.ts: the older `/v1` handlers. They answer with bare
// JSON (no success envelope, errors as `{message}`), use their own
// progress record ids, and name the profile field `displayName`.

module Legacy {
  import opened Wrappers
  import opened Json
  import opened Strings
  import opened Response
  import opened FirebaseAdmin
  import Courses
  import Users
  import Leaderboard

  /** `{message: text}` */
  function Message(text: string): Value {
    Obj(map["message" := Str(text)])
  }

  // ---------------------------------------------------------------------
  // Reads.

  /** `snapshot.docs.map(mapDoc)` as the bare reply of a list route
      (courses, chapters in query order, quizzes). */
  function Listing(s: Snapshot): (reply: Reply)
    ensures reply.status == 200 && reply.body.Arr? && |reply.body.items| == |s|
    ensures forall i | 0 <= i < |s| :: reply.body.items[i] == MapDoc(s[i].0, s[i].1)
  {
    Reply(200, Arr(MapDocs(s)))
  }

  /** The course list has no publication filter: a course the enveloped
      API hides from students is listed here. */
  lemma DraftsListed(s: Snapshot, p: (string, Doc))
    requires p in s && !Courses.Published(p.1)
    ensures MapDoc(p.0, p.1) in Listing(s).body.items
    ensures forall user | !Courses.IsAdmin(user) :: p !in Courses.Visible(s, user)
  {
    var i :| 0 <= i < |s| && s[i] == p;
    assert Listing(s).body.items[i] == MapDoc(p.0, p.1);
  }

  /** The quiz list hands out the stored questions as they are, answers
      included. */
  lemma AnswersListed(s: Snapshot, i: nat, j: nat)
    requires i < |s| && "questions" in s[i].1 && s[i].1["questions"].Arr?
    requires j < |s[i].1["questions"].items|
    requires var q := s[i].1["questions"].items[j]; q.Obj? && "correctAnswer" in q.fields
    ensures var item := Listing(s).body.items[i];
      && "questions" in item.fields
      && var qs := item.fields["questions"];
      && qs.Arr? && j < |qs.items| && qs.items[j].Obj? && "correctAnswer" in qs.items[j].fields
  {
    var qs := s[i].1["questions"];
    NormalizeArray(qs.items, j);
  }

  /** A detail route: the document with its id under `key`, or 404 with
      `missing`. */
  function Detail(docs: map<string, Doc>, id: string, key: string, missing: string): (reply: Reply)
    ensures id !in docs ==> reply == Reply(404, Message(missing))
    ensures id in docs ==> reply == Reply(200, Identified(key, id, docs[id]))
  {
    if id !in docs then Reply(404, Obj(map["message" := Str(missing)]))
    else Reply(200, Obj(map[key := Str(id)] + NormalizeDoc(docs[id])))
  }

  function ShowCourse(courses: map<string, Doc>, courseId: string): (reply: Reply)
    ensures courseId !in courses <==> reply == Reply(404, Message("Course not found"))
    ensures courseId in courses ==> reply.status == 200 && reply.body == MapDoc(courseId, courses[courseId])
  {
    Detail(courses, courseId, "id", "Course not found")
  }

  function ShowChapter(chapters: map<string, Doc>, chapterId: string): (reply: Reply)
    ensures chapterId !in chapters <==> reply == Reply(404, Message("Chapter not found"))
    ensures chapterId in chapters ==> reply.status == 200 && reply.body == MapDoc(chapterId, chapters[chapterId])
  {
    Detail(chapters, chapterId, "id", "Chapter not found")
  }

  function ShowQuiz(quizzes: map<string, Doc>, quizId: string): (reply: Reply)
    ensures quizId !in quizzes <==> reply == Reply(404, Message("Quiz not found"))
    ensures quizId in quizzes ==> reply.status == 200 && reply.body == MapDoc(quizId, quizzes[quizId])
  {
    Detail(quizzes, quizId, "id", "Quiz not found")
  }

  function ShowUser(users: map<string, Doc>, userId: string): (reply: Reply)
    ensures userId !in users <==> reply == Reply(404, Message("User not found"))
    ensures userId in users ==> reply.status == 200 && reply.body == Identified("uid", userId, users[userId])
  {
    Detail(users, userId, "uid", "User not found")
  }

  /** `GET /v1/progress?userId=`, over the `progress` snapshot ("" when the
      parameter is absent). */
  function UserProgress(s: Snapshot, userId: string): (reply: Reply)
    ensures userId == "" ==> reply == Reply(400, Message("userId is required"))
    ensures userId != "" ==>
      && reply.status == 200 && reply.body.Arr?
      && forall v :: v in reply.body.items <==>
           exists p | p in s && Get(p.1, "userId") == Str(userId) :: v == MapDoc(p.0, p.1)
  {
    if userId == "" then Reply(400, Message("userId is required"))
    else
      var mine := Where(s, "userId", Str(userId));
      MapDocsMembers(mine);
      Reply(200, Arr(MapDocs(mine)))
  }

  /** One by-course entry, from raw data: the chapter id or "", the
      Boolean coercion of `isCompleted`, and the points or 0. */
  function DetailEntry(data: Doc): (e: Value)
    ensures e.Obj? && e.fields.Keys == {"chapterId", "isCompleted", "pointsAwarded"}
    ensures e.fields["chapterId"] == (if Truthy(Get(data, "chapterId")) then data["chapterId"] else Str(""))
    ensures e.fields["isCompleted"] == Bool(Truthy(Get(data, "isCompleted")))
    ensures e.fields["pointsAwarded"] ==
      (if IsNumber(Get(data, "pointsAwarded")) then data["pointsAwarded"] else Num(0))
  {
    var points := Get(data, "pointsAwarded");
    Obj(map["chapterId" := Or(Get(data, "chapterId"), Str("")),
            "isCompleted" := Bool(Truthy(Get(data, "isCompleted"))),
            "pointsAwarded" := if IsNumber(points) then points else Num(0)])
  }

  function DetailEntries(s: Snapshot): (r: seq<Value>)
    ensures |r| == |s|
    ensures forall i | 0 <= i < |s| :: r[i] == DetailEntry(s[i].1)
    ensures forall v :: v in r <==> exists p | p in s :: v == DetailEntry(p.1)
  {
    if s == [] then [] else [DetailEntry(s[0].1)] + DetailEntries(s[1..])
  }

  /** The records of one user and course. */
  function OfUserCourse(s: Snapshot, userId: string, courseId: string): (r: Snapshot)
    ensures forall p :: p in r <==> p in s && Get(p.1, "userId") == Str(userId) && Get(p.1, "courseId") == Str(courseId)
  {
    Where(Where(s, "userId", Str(userId)), "courseId", Str(courseId))
  }

  /** `GET /v1/progress/by-course?userId=&courseId=`: one entry per record
      of that user and course. */
  function ProgressByCourse(s: Snapshot, userId: string, courseId: string): (reply: Reply)
    ensures userId == "" || courseId == "" ==> reply == Reply(400, Message("userId and courseId are required"))
    ensures userId != "" && courseId != "" ==>
      && reply.status == 200 && reply.body.Obj?
      && reply.body.fields.Keys == {"userId", "courseId", "progressDetail"}
      && reply.body.fields["userId"] == Str(userId) && reply.body.fields["courseId"] == Str(courseId)
      && reply.body.fields["progressDetail"].Arr?
      && forall v :: v in reply.body.fields["progressDetail"].items <==>
           exists p | p in s && Get(p.1, "userId") == Str(userId) && Get(p.1, "courseId") == Str(courseId) ::
             v == DetailEntry(p.1)
  {
    if userId == "" || courseId == "" then Reply(400, Message("userId and courseId are required"))
    else
      var detail := DetailEntries(OfUserCourse(s, userId, courseId));
      Reply(200, Obj(map["userId" := Str(userId), "courseId" := Str(courseId), "progressDetail" := Arr(detail)]))
  }

  /** `GET /v1/leaderboard`: like the enveloped ranking, with the display
      name (or "") under `displayName`. */
  function LegacyEntry(id: string, data: Doc): (e: Value)
    ensures e.Obj? && e.fields.Keys == {"uid", "displayName", "totalPoints"}
    ensures e.fields["uid"] == Str(id)
    ensures e.fields["displayName"] == (if Truthy(Get(data, "displayName")) then data["displayName"] else Str(""))
    ensures e.fields["totalPoints"] == Leaderboard.Entry(id, data).fields["totalPoints"]
  {
    var points := Get(data, "totalPoints");
    Obj(map["uid" := Str(id),
            "displayName" := Or(Get(data, "displayName"), Str("")),
            "totalPoints" := if IsNumber(points) then points else Num(0)])
  }

  function Ranking(s: Snapshot): (reply: Reply)
    ensures reply.status == 200 && reply.body.Arr? && |reply.body.items| == |s|
    ensures forall i | 0 <= i < |s| :: reply.body.items[i] == LegacyEntry(s[i].0, s[i].1)
  {
    Reply(200, Arr(seq(|s|, i requires 0 <= i < |s| => LegacyEntry(s[i].0, s[i].1))))
  }

  // ---------------------------------------------------------------------
  // Writes.

  /** The record id `${courseId}_${chapterId}_${userId}`. */
  function RecordId(courseId: Value, chapterId: Value, userId: Value): string {
    Text(courseId) + "_" + Text(chapterId) + "_" + Text(userId)
  }

  /** Ids built from ids that themselves contain "_" can collide. */
  lemma RecordIdCollision()
    ensures RecordId(Str("a_b"), Str("c"), Str("u")) == RecordId(Str("a"), Str("b_c"), Str("u"))
  {
  }

  /** The completion written for a chapter. */
  function Payload(userId: Value, courseId: Value, chapterId: Value): (p: Doc)
    ensures p.Keys == {"userId", "courseId", "chapterId", "isCompleted", "pointsAwarded", "completedAt"}
    ensures p["userId"] == userId && p["courseId"] == courseId && p["chapterId"] == chapterId
    ensures p["isCompleted"] == Bool(true) && p["pointsAwarded"] == Num(0) && p["completedAt"] == ServerTime
  {
    map["userId" := userId, "courseId" := courseId, "chapterId" := chapterId,
        "isCompleted" := Bool(true), "pointsAwarded" := Num(0), "completedAt" := ServerTime]
  }

  /** `set(payload, {merge: true})` on a record that may not exist yet. */
  function Merged(prior: Option<Doc>, payload: Doc): (r: Doc)
    ensures r.Keys == payload.Keys + (if prior.Some? then prior.value.Keys else {})
    ensures forall k | k in payload :: r[k] == payload[k]
    ensures prior.Some? ==> forall k | k in prior.value && k !in payload :: r[k] == prior.value[k]
  {
    if prior.Some? then prior.value + payload else payload
  }

  /** Recording the same completion twice stores what recording it once does. */
  lemma MergeIdempotent(prior: Option<Doc>, payload: Doc)
    ensures Merged(Some(Merged(prior, payload)), payload) == Merged(prior, payload)
  {
  }

  /** `POST /v1/progress` */
  method PostProgress(db: Database, body: Doc) returns (reply: Reply)
    modifies db`progress
    ensures var userId, courseId, chapterId := Get(body, "userId"), Get(body, "courseId"), Get(body, "chapterId");
      && (!Truthy(userId) || !Truthy(courseId) || !Truthy(chapterId) ==>
            reply == Reply(400, Message("userId, courseId, and chapterId are required"))
            && db.progress == old(db.progress))
      && (Truthy(userId) && Truthy(courseId) && Truthy(chapterId) ==>
            var id := RecordId(courseId, chapterId, userId);
            var payload := Payload(userId, courseId, chapterId);
            && db.progress == old(db.progress)[id :=
                 Merged(if id in old(db.progress) then Some(old(db.progress)[id]) else None, payload)]
            && reply.status == 201 && reply.body.Obj?
            && reply.body.fields.Keys == payload.Keys + {"id"}
            && reply.body.fields["id"] == Str(id) && reply.body.fields["completedAt"] == Null
            && forall k | k in payload && k != "completedAt" :: reply.body.fields[k] == payload[k])
  {
    var userId := Get(body, "userId");
    var courseId := Get(body, "courseId");
    var chapterId := Get(body, "chapterId");
    if !Truthy(userId) || !Truthy(courseId) || !Truthy(chapterId) {
      reply := Reply(400, Obj(map["message" := Str("userId, courseId, and chapterId are required")]));
      return;
    }
    var id := Text(courseId) + "_" + Text(chapterId) + "_" + Text(userId);
    var payload := Payload(userId, courseId, chapterId);
    var prior := if id in db.progress then Some(db.progress[id]) else None;
    db.progress := db.progress[id := Merged(prior, payload)];
    reply := Reply(201, Obj((map["id" := Str(id)] + payload)["completedAt" := Null]));
  }

  /** `POST /v1/users/upsert`: the profile rules of the enveloped upsert,
      with the name stored as `displayName` and no `isActive` flag. */
  method UpsertUser(db: Database, body: Doc) returns (reply: Reply)
    modifies db`users
    ensures var uid, email := Get(body, "uid"), Get(body, "email");
      && (!Truthy(uid) || !Truthy(email) ==>
            reply == Reply(400, Message("uid and email are required")) && db.users == old(db.users))
      && (Truthy(uid) && Truthy(email) && !uid.Str? ==>
            reply == Reply(500, Message("Failed to upsert user profile")) && db.users == old(db.users))
      && (Truthy(uid) && Truthy(email) && uid.Str? ==>
            var r := Users.Upserted(if uid.s in old(db.users) then Some(old(db.users)[uid.s]) else None,
                                    uid, email, Get(body, "displayName"), "displayName", false);
            && (r.None? ==> reply == Reply(500, Message("Failed to upsert user profile"))
                            && db.users == old(db.users))
            && (r.Some? ==> db.users == old(db.users)[uid.s := r.value]
                            && reply == Reply(200, Identified("uid", uid.s, r.value))))
  {
    var uid := Get(body, "uid");
    var email := Get(body, "email");
    if !Truthy(uid) || !Truthy(email) {
      reply := Reply(400, Obj(map["message" := Str("uid and email are required")]));
      return;
    }
    if !uid.Str? {
      reply := Reply(500, Obj(map["message" := Str("Failed to upsert user profile")]));
      return;
    }
    var prior := if uid.s in db.users then Some(db.users[uid.s]) else None;
    var r := Users.Upserted(prior, uid, email, Get(body, "displayName"), "displayName", false);
    if r.None? {
      reply := Reply(500, Obj(map["message" := Str("Failed to upsert user profile")]));
      return;
    }
    db.users := db.users[uid.s := r.value];
    reply := Reply(200, Obj(map["uid" := Str(uid.s)] + NormalizeDoc(r.value)));
  }

  /** A legacy upsert of a known user keeps a stored display name when the
      request gives none, and never touches the role. */
  lemma UpsertKeepsDisplayName(d: Doc, uid: Value, email: Value)
    requires Truthy(Get(d, "displayName"))
    ensures var r := Users.Upserted(Some(d), uid, email, Undefined, "displayName", false).value;
      r["displayName"] == d["displayName"] && Get(r, "role") == Get(d, "role")
  {
  }
}
