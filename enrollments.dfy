// functions/src/routes/enrollments.ts: a caller enrolling in a course, and
// the caller's own enrollments.

module Enrollments {
  import opened Wrappers
  import opened Json
  import opened Response
  import opened FirebaseAdmin
  import opened VerifyToken
  import opened EnrollmentGate

  /** No two enrollment records pair the same user with the same course. */
  ghost predicate Unique(enrollments: map<string, Doc>) {
    forall a, b | a in enrollments && b in enrollments
                  && Get(enrollments[a], "userId") == Get(enrollments[b], "userId")
                  && Get(enrollments[a], "courseId") == Get(enrollments[b], "courseId")
      :: a == b
  }

  /** `POST /` for the verified caller `uid`. The checks run in the order
      courseId present, course exists, not yet enrolled; then one record is
      added under the fresh id `newId`. */
  method Enroll(db: Database, uid: string, body: Doc, newId: string) returns (reply: Reply)
    requires newId !in db.enrollments
    modifies db`enrollments
    ensures var courseId := Get(body, "courseId");
      && (!Truthy(courseId) ==> reply == Reply(400, Error("BAD_REQUEST", "courseId is required")))
      && (Truthy(courseId) && !courseId.Str? ==> reply == Reply(500, Error("ENROLL_FAILED", "Failed to enroll")))
      && (Truthy(courseId) && courseId.Str? && courseId.s !in db.courses ==>
            reply == Reply(404, Error("NOT_FOUND", "Course not found")))
      && (Truthy(courseId) && courseId.Str? && courseId.s in db.courses
          && Enrolled(old(db.enrollments), uid, courseId) ==>
            reply == Reply(409, Error("CONFLICT", "Already enrolled in this course")))
      && (Truthy(courseId) && courseId.Str? && courseId.s in db.courses
          && !Enrolled(old(db.enrollments), uid, courseId) ==>
            var record := map["userId" := Str(uid), "courseId" := courseId, "enrolledAt" := ServerTime];
            && db.enrollments == old(db.enrollments)[newId := record]
            && reply == Reply(201, Success(Obj(record["id" := Str(newId)]))))
    ensures reply.status != 201 ==> db.enrollments == old(db.enrollments)
    ensures reply.status == 201 ==> Enrolled(db.enrollments, uid, Get(body, "courseId"))
    ensures Unique(old(db.enrollments)) ==> Unique(db.enrollments)
  {
    var courseId := Get(body, "courseId");
    if !Truthy(courseId) {
      reply := Reply(400, Error("BAD_REQUEST", "courseId is required"));
      return;
    }
    if !courseId.Str? {
      // `doc(courseId)` refuses a non-string path.
      reply := Reply(500, Error("ENROLL_FAILED", "Failed to enroll"));
      return;
    }
    if courseId.s !in db.courses {
      reply := Reply(404, Error("NOT_FOUND", "Course not found"));
      return;
    }
    if Enrolled(db.enrollments, uid, courseId) {
      reply := Reply(409, Error("CONFLICT", "Already enrolled in this course"));
      return;
    }
    var record := map["userId" := Str(uid), "courseId" := courseId, "enrolledAt" := ServerTime];
    db.enrollments := db.enrollments[newId := record];
    assert Get(db.enrollments[newId], "userId") == Str(uid);
    assert map["id" := Str(newId)] + record == record["id" := Str(newId)];
    reply := Reply(201, Success(Obj(map["id" := Str(newId)] + record)));
  }

  /** Two posts in a row for the same course: the first enrolls, the second
      is refused with 409 and adds nothing. */
  method EnrollTwice(db: Database, uid: string, body: Doc, id1: string, id2: string)
    returns (first: Reply, second: Reply)
    requires id1 != id2 && id1 !in db.enrollments && id2 !in db.enrollments
    modifies db`enrollments
    ensures first.status == 201 ==>
      && second == Reply(409, Error("CONFLICT", "Already enrolled in this course"))
      && db.enrollments.Keys == old(db.enrollments).Keys + {id1}
  {
    first := Enroll(db, uid, body, id1);
    second := Enroll(db, uid, body, id2);
  }

  /** `GET /my` over a snapshot that contains the `userId == uid` query's
      result; filtering it again keeps the same documents. */
  function MyEnrollments(s: Snapshot, uid: string): (reply: Reply)
    ensures reply.status == 200 && Decode(reply.body).Some? && Decode(reply.body).value.Succeeded?
    ensures var listed := Decode(reply.body).value.data;
      && listed.Arr?
      && forall v :: v in listed.items <==>
           exists p | p in s && Get(p.1, "userId") == Str(uid) :: v == MapDoc(p.0, p.1)
  {
    var mine := Where(s, "userId", Str(uid));
    MapDocsMembers(mine);
    DecodeInverts(Arr(MapDocs(mine)), "", "");
    Reply(200, Success(Arr(MapDocs(mine))))
  }

  /** When the snapshot lists the whole collection, `/my` answers exactly
      the caller's enrollments. */
  lemma MyEnrollmentsExact(s: Snapshot, enrollments: map<string, Doc>, uid: string)
    requires Lists(s, enrollments)
    ensures var mine := Where(s, "userId", Str(uid));
      forall id, d :: (id, d) in mine <==> id in enrollments && enrollments[id] == d && Get(d, "userId") == Str(uid)
  {
    forall id, d | id in enrollments && enrollments[id] == d
      ensures (id, d) in s
    {
      var i :| 0 <= i < |s| && s[i].0 == id;
      assert s[i] == (id, d);
    }
  }

  /** `GET /:courseId/status` */
  function EnrollmentStatus(enrollments: map<string, Doc>, uid: string, courseId: string): (reply: Reply)
    ensures reply.status == 200
    ensures Decode(reply.body).Some? && Decode(reply.body).value.Succeeded?
    ensures var data := Decode(reply.body).value.data;
      data.Obj? && data.fields.Keys == {"enrolled"}
      && (data.fields["enrolled"] == Bool(true) <==> Enrolled(enrollments, uid, Str(courseId)))
  {
    Reply(200, Success(Obj(map["enrolled" := Bool(Enrolled(enrollments, uid, Str(courseId)))])))
  }

  /** The status a non-admin reads agrees with the enrollment gate the
      course's chapters and quizzes sit behind. */
  lemma StatusAgreesWithGate(enrollments: map<string, Doc>, user: AuthUser, courseId: string)
    requires user.role != Str("admin") && courseId != ""
    ensures CheckEnrollment(Some(user), courseId, enrollments, true).Next?
            <==> Field(Field(EnrollmentStatus(enrollments, user.uid, courseId).body, "data"), "enrolled")
                 == Bool(true)
  {
  }
}
