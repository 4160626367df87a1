// functions/src/routes/chapters.ts: the chapters of a course, stored under
// courses/{courseId}/chapters. Enrolled callers read, admins write.

module Chapters {
  import opened Wrappers
  import opened Json
  import opened Response
  import opened FirebaseAdmin
  import opened VerifyToken
  import opened EnrollmentGate
  import opened Gates

  datatype Route = List | Show | Create | Patch | Delete

  function GuardOf(r: Route): Guard {
    match r
    case List => EnrolledOrAdmin
    case Show => EnrolledOrAdmin
    case _ => RoleIn(["admin"])
  }

  /** Reading a course's chapters needs an enrollment in that course (or the
      admin role); writing them needs the admin role. */
  lemma ChapterGuards(r: Route, header: Option<string>, courseId: string, env: Env)
    ensures var a := Admit(GuardOf(r), header, courseId, env);
      a.Admitted? ==>
        if r.List? || r.Show? then
          a.user.value.role == Str("admin") || Enrolled(env.enrollments, a.user.value.uid, Str(courseId))
        else a.user.value.role == Str("admin")
  {
  }

  /** `GET /` over the course's chapters as the `orderBy("order")` query
      returns them. */
  function ListChapters(s: Snapshot): (reply: Reply)
    ensures reply.status == 200 && Decode(reply.body) == Some(Succeeded(Arr(MapDocs(s))))
  {
    DecodeInverts(Arr(MapDocs(s)), "", "");
    Reply(200, Success(Arr(MapDocs(s))))
  }

  /** `GET /:chapterId` */
  function ShowChapter(chapters: map<string, Doc>, chapterId: string): (reply: Reply)
    ensures chapterId !in chapters ==> reply == Reply(404, Error("NOT_FOUND", "Chapter not found"))
    ensures chapterId in chapters ==> reply == Reply(200, Success(MapDoc(chapterId, chapters[chapterId])))
  {
    if chapterId !in chapters then Reply(404, Error("NOT_FOUND", "Chapter not found"))
    else Reply(200, Success(Identified("id", chapterId, chapters[chapterId])))
  }

  /** The stored chapter for a create request with a truthy `title`:
      `content` and `videoUrl` fall back to "" for any falsy value, `order`
      to 0 only when it is null or undefined (an explicit 0 is kept); only
      `createdAt` is stamped. */
  function NewChapter(body: Doc): (c: Doc)
    ensures c.Keys == {"title", "content", "videoUrl", "order", "createdAt"}
    ensures c["title"] == Get(body, "title")
    ensures forall k | k in {"content", "videoUrl"} ::
      c[k] == if Truthy(Get(body, k)) then Get(body, k) else Str("")
    ensures c["order"] == if Nullish(Get(body, "order")) then Num(0) else Get(body, "order")
    ensures c["createdAt"] == ServerTime
  {
    map["title" := Get(body, "title"),
        "content" := Or(Get(body, "content"), Str("")),
        "videoUrl" := Or(Get(body, "videoUrl"), Str("")),
        "order" := Coalesce(Get(body, "order"), Num(0)),
        "createdAt" := ServerTime]
  }

  /** `POST /`, storing the chapter under the fresh id `newId`. */
  method CreateChapter(db: Database, courseId: string, body: Doc, newId: string) returns (reply: Reply)
    requires newId !in Sub(db.chapters, courseId)
    modifies db`chapters
    ensures !Truthy(Get(body, "title")) ==>
      reply == Reply(400, Error("BAD_REQUEST", "title is required")) && db.chapters == old(db.chapters)
    ensures Truthy(Get(body, "title")) ==>
      && db.chapters == old(db.chapters)[courseId := Sub(old(db.chapters), courseId)[newId := NewChapter(body)]]
      && reply == Reply(201, Success(Obj(NewChapter(body)["id" := Str(newId)])))
  {
    if !Truthy(Get(body, "title")) {
      reply := Reply(400, Error("BAD_REQUEST", "title is required"));
      return;
    }
    var chapter := NewChapter(body);
    db.chapters := db.chapters[courseId := Sub(db.chapters, courseId)[newId := chapter]];
    assert map["id" := Str(newId)] + chapter == chapter["id" := Str(newId)];
    reply := Reply(201, Success(Obj(map["id" := Str(newId)] + chapter)));
  }

  const ChapterFields := {"title", "content", "videoUrl", "order"}

  /** `PATCH /:chapterId`: writes exactly the chapter fields the body
      defines, with no timestamp. Updating a missing chapter, or with no
      field at all, throws. */
  method PatchChapter(db: Database, courseId: string, chapterId: string, body: Doc) returns (reply: Reply)
    modifies db`chapters
    ensures chapterId !in Sub(old(db.chapters), courseId) || Defined(body, ChapterFields) == map[] ==>
      reply == Reply(500, Error("UPDATE_FAILED", "Failed to update chapter")) && db.chapters == old(db.chapters)
    ensures chapterId in Sub(old(db.chapters), courseId) && Defined(body, ChapterFields) != map[] ==>
      var chapter := Updated(Sub(old(db.chapters), courseId)[chapterId], body, ChapterFields);
      && db.chapters == old(db.chapters)[courseId := Sub(old(db.chapters), courseId)[chapterId := chapter]]
      && reply == Reply(200, Success(MapDoc(chapterId, chapter)))
  {
    var updates: Doc := map[];
    assert updates == Defined(body, {});
    if Get(body, "title") != Undefined {
      updates := updates["title" := body["title"]];
    }
    DefinedStep(body, {}, "title");
    assert {} + {"title"} == {"title"};
    assert updates == Defined(body, {"title"});
    if Get(body, "content") != Undefined {
      updates := updates["content" := body["content"]];
    }
    DefinedStep(body, {"title"}, "content");
    assert {"title"} + {"content"} == {"title", "content"};
    assert updates == Defined(body, {"title", "content"});
    if Get(body, "videoUrl") != Undefined {
      updates := updates["videoUrl" := body["videoUrl"]];
    }
    DefinedStep(body, {"title", "content"}, "videoUrl");
    assert {"title", "content"} + {"videoUrl"} == {"title", "content", "videoUrl"};
    assert updates == Defined(body, {"title", "content", "videoUrl"});
    if Get(body, "order") != Undefined {
      updates := updates["order" := body["order"]];
    }
    DefinedStep(body, {"title", "content", "videoUrl"}, "order");
    assert {"title", "content", "videoUrl"} + {"order"} == ChapterFields;
    assert updates == Defined(body, ChapterFields);
    var chapters := Sub(db.chapters, courseId);
    if chapterId !in chapters || updates == map[] {
      // `update` needs an existing document and at least one field.
      reply := Reply(500, Error("UPDATE_FAILED", "Failed to update chapter"));
      return;
    }
    var chapter := chapters[chapterId] + updates;
    assert chapter == Updated(chapters[chapterId], body, ChapterFields);
    db.chapters := db.chapters[courseId := chapters[chapterId := chapter]];
    reply := Reply(200, Success(MapDoc(chapterId, chapter)));
  }

  /** A patch leaves every field it does not name as it was, and adds no
      timestamp. */
  lemma PatchKeepsOthers(d: Doc, body: Doc, k: string)
    requires k in d && k !in ChapterFields
    ensures k in Updated(d, body, ChapterFields) && Updated(d, body, ChapterFields)[k] == d[k]
    ensures "updatedAt" !in d ==> "updatedAt" !in Updated(d, body, ChapterFields)
  {
  }

  /** `DELETE /:chapterId` */
  method DeleteChapter(db: Database, courseId: string, chapterId: string) returns (reply: Reply)
    modifies db`chapters
    ensures db.chapters == old(db.chapters)[courseId := Sub(old(db.chapters), courseId) - {chapterId}]
    ensures chapterId !in Sub(db.chapters, courseId)
    ensures reply == Reply(200, Success(Obj(map["id" := Str(chapterId), "deleted" := Bool(true)])))
  {
    db.chapters := db.chapters[courseId := Sub(db.chapters, courseId) - {chapterId}];
    reply := Reply(200, Success(Obj(map["id" := Str(chapterId), "deleted" := Bool(true)])));
  }
}
