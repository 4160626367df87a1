// functions/src/routes/courses.ts: the course catalogue. Everyone may read
// published courses; only admins see drafts and write.

module Courses {
  import opened Wrappers
  import opened Json
  import opened Response
  import opened FirebaseAdmin
  import opened VerifyToken
  import opened Gates

  datatype Route = List | Show | Create | Patch | Delete

  function GuardOf(r: Route): Guard {
    match r
    case List => Optional
    case Show => Public
    case _ => RoleIn(["admin"])
  }

  /** The catalogue and a single course need no token; writes need an admin. */
  lemma CourseGuards(r: Route, header: Option<string>, env: Env)
    ensures r.Show? ==> Admit(GuardOf(r), header, "", env) == Admitted(None)
    ensures r.List? ==> Admit(GuardOf(r), header, "", env).Admitted?
    ensures !(r.List? || r.Show?) && Admit(GuardOf(r), header, "", env).Admitted? ==>
      Admit(GuardOf(r), header, "", env).user.value.role == Str("admin")
  {
  }

  predicate IsAdmin(user: Option<AuthUser>) {
    user.Some? && user.value.role == Str("admin")
  }

  predicate Published(course: Doc) {
    Get(course, "isPublished") == Bool(true)
  }

  /** The courses the list query returns: all of them for an admin, and
      only those with `isPublished == true` for anyone else (anonymous
      callers included), in query order. */
  function Visible(s: Snapshot, user: Option<AuthUser>): (r: Snapshot)
    ensures IsAdmin(user) ==> r == s
    ensures forall p :: p in r <==> p in s && (IsAdmin(user) || Published(p.1))
  {
    if user.Some? && user.value.role == Str("admin") then s
    else Where(s, "isPublished", Bool(true))
  }

  /** `GET /` over a snapshot of `courses`. */
  function ListCourses(s: Snapshot, user: Option<AuthUser>): (reply: Reply)
    ensures reply.status == 200 && Decode(reply.body).Some? && Decode(reply.body).value.Succeeded?
    ensures var listed := Decode(reply.body).value.data;
      && listed.Arr?
      && (forall p | p in s && (IsAdmin(user) || Published(p.1)) :: MapDoc(p.0, p.1) in listed.items)
      && (forall i | 0 <= i < |listed.items| :: exists p | p in s && (IsAdmin(user) || Published(p.1)) ::
            listed.items[i] == MapDoc(p.0, p.1))
  {
    var shown := Visible(s, user);
    var listed := MapDocs(shown);
    assert forall p | p in shown :: MapDoc(p.0, p.1) in listed by {
      forall p | p in shown ensures MapDoc(p.0, p.1) in listed {
        var i :| 0 <= i < |shown| && shown[i] == p;
        assert listed[i] == MapDoc(p.0, p.1);
      }
    }
    assert forall i | 0 <= i < |listed| :: shown[i] in shown;
    Reply(200, Success(Arr(listed)))
  }

  /** `GET /:courseId` */
  function ShowCourse(courses: map<string, Doc>, courseId: string): (reply: Reply)
    ensures courseId !in courses ==> reply == Reply(404, Error("NOT_FOUND", "Course not found"))
    ensures courseId in courses ==> reply == Reply(200, Success(MapDoc(courseId, courses[courseId])))
  {
    if courseId !in courses then Reply(404, Error("NOT_FOUND", "Course not found"))
    else Reply(200, Success(Identified("id", courseId, courses[courseId])))
  }

  /** The stored course for a create request with a truthy `title`:
      `description` and `thumbnailUrl` fall back to "" for any falsy value,
      and `isPublished` to false only when it is null or undefined. */
  function NewCourse(body: Doc): (c: Doc)
    ensures c.Keys == {"title", "description", "thumbnailUrl", "isPublished", "createdAt", "updatedAt"}
    ensures c["title"] == Get(body, "title")
    ensures forall k | k in {"description", "thumbnailUrl"} ::
      c[k] == if Truthy(Get(body, k)) then Get(body, k) else Str("")
    ensures c["isPublished"] == if Nullish(Get(body, "isPublished")) then Bool(false) else Get(body, "isPublished")
    ensures c["createdAt"] == ServerTime && c["updatedAt"] == ServerTime
  {
    map["title" := Get(body, "title"),
        "description" := Or(Get(body, "description"), Str("")),
        "thumbnailUrl" := Or(Get(body, "thumbnailUrl"), Str("")),
        "isPublished" := Coalesce(Get(body, "isPublished"), Bool(false)),
        "createdAt" := ServerTime,
        "updatedAt" := ServerTime]
  }

  /** An explicit `isPublished: false` is kept, while an empty description
      is replaced. */
  lemma DefaultsDiffer(body: Doc)
    requires Get(body, "isPublished") == Bool(false) && Get(body, "description") == Str("")
    ensures NewCourse(body)["isPublished"] == Bool(false) && NewCourse(body)["description"] == Str("")
  {
  }

  /** `POST /`, storing the course under the fresh id `newId`. */
  method CreateCourse(db: Database, body: Doc, newId: string) returns (reply: Reply)
    requires newId !in db.courses
    modifies db`courses
    ensures !Truthy(Get(body, "title")) ==>
      reply == Reply(400, Error("BAD_REQUEST", "title is required")) && db.courses == old(db.courses)
    ensures Truthy(Get(body, "title")) ==>
      && db.courses == old(db.courses)[newId := NewCourse(body)]
      && reply == Reply(201, Success(Obj(NewCourse(body)["id" := Str(newId)])))
  {
    if !Truthy(Get(body, "title")) {
      reply := Reply(400, Error("BAD_REQUEST", "title is required"));
      return;
    }
    var course := NewCourse(body);
    db.courses := db.courses[newId := course];
    assert map["id" := Str(newId)] + course == course["id" := Str(newId)];
    reply := Reply(201, Success(Obj(map["id" := Str(newId)] + course)));
  }

  const CourseFields := {"title", "description", "thumbnailUrl", "isPublished"}

  /** `PATCH /:courseId`: writes `updatedAt` and whichever of the four
      course fields the body defines; a missing course makes `update`
      throw. */
  method PatchCourse(db: Database, courseId: string, body: Doc) returns (reply: Reply)
    modifies db`courses
    ensures courseId !in old(db.courses) ==>
      reply == Reply(500, Error("UPDATE_FAILED", "Failed to update course")) && db.courses == old(db.courses)
    ensures courseId in old(db.courses) ==>
      var course := Updated(old(db.courses)[courseId], body, CourseFields)["updatedAt" := ServerTime];
      && db.courses == old(db.courses)[courseId := course]
      && reply == Reply(200, Success(MapDoc(courseId, course)))
  {
    var updates: Doc := map["updatedAt" := ServerTime];
    assert updates == Defined(body, {})["updatedAt" := ServerTime];
    if Get(body, "title") != Undefined {
      updates := updates["title" := body["title"]];
    }
    StampedStep(body, {}, "title", "updatedAt", ServerTime);
    assert {} + {"title"} == {"title"};
    assert updates == Defined(body, {"title"})["updatedAt" := ServerTime];
    if Get(body, "description") != Undefined {
      updates := updates["description" := body["description"]];
    }
    StampedStep(body, {"title"}, "description", "updatedAt", ServerTime);
    assert {"title"} + {"description"} == {"title", "description"};
    assert updates == Defined(body, {"title", "description"})["updatedAt" := ServerTime];
    if Get(body, "thumbnailUrl") != Undefined {
      updates := updates["thumbnailUrl" := body["thumbnailUrl"]];
    }
    StampedStep(body, {"title", "description"}, "thumbnailUrl", "updatedAt", ServerTime);
    assert {"title", "description"} + {"thumbnailUrl"} == {"title", "description", "thumbnailUrl"};
    assert updates == Defined(body, {"title", "description", "thumbnailUrl"})["updatedAt" := ServerTime];
    if Get(body, "isPublished") != Undefined {
      updates := updates["isPublished" := body["isPublished"]];
    }
    StampedStep(body, {"title", "description", "thumbnailUrl"}, "isPublished", "updatedAt", ServerTime);
    assert {"title", "description", "thumbnailUrl"} + {"isPublished"} == CourseFields;
    assert updates == Defined(body, CourseFields)["updatedAt" := ServerTime];
    if courseId !in db.courses {
      reply := Reply(500, Error("UPDATE_FAILED", "Failed to update course"));
      return;
    }
    StampedUpdate(db.courses[courseId], body, CourseFields, "updatedAt", ServerTime);
    var course := db.courses[courseId] + updates;
    db.courses := db.courses[courseId := course];
    reply := Reply(200, Success(MapDoc(courseId, course)));
  }

  /** `DELETE /:courseId` */
  method DeleteCourse(db: Database, courseId: string) returns (reply: Reply)
    modifies db`courses
    ensures db.courses == old(db.courses) - {courseId}
    ensures reply == Reply(200, Success(Obj(map["id" := Str(courseId), "deleted" := Bool(true)])))
  {
    db.courses := db.courses - {courseId};
    reply := Reply(200, Success(Obj(map["id" := Str(courseId), "deleted" := Bool(true)])));
  }
}
