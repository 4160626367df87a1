// functions/src/middleware/checkEnrollment.ts: the enrollment gate.

module EnrollmentGate {
  import opened Wrappers
  import opened Json
  import opened Response
  import opened VerifyToken

  /** Some enrollment record has `userId == uid` and `courseId == courseId`
      (the two `where` clauses of the query). */
  predicate Enrolled(enrollments: map<string, Doc>, uid: string, courseId: Value) {
    exists id | id in enrollments ::
      Get(enrollments[id], "userId") == Str(uid) && Get(enrollments[id], "courseId") == courseId
  }

  /** `checkEnrollment` for the route parameter `courseId` ("" when absent).
      The query reads `enrollments` when `queryOk` and throws otherwise.
      The order of checks is: user, admin bypass, courseId, query. */
  function CheckEnrollment(user: Option<AuthUser>, courseId: string,
                           enrollments: map<string, Doc>, queryOk: bool): (step: Step)
    ensures user.None? ==> step == Respond(Reply(401, Error("UNAUTHORIZED", "Authentication required")))
    ensures user.Some? && user.value.role == Str("admin") ==> step == Next
    ensures user.Some? && user.value.role != Str("admin") && courseId == ""
            ==> step == Respond(Reply(400, Error("BAD_REQUEST", "courseId is required")))
    ensures user.Some? && user.value.role != Str("admin") && courseId != "" && !queryOk
            ==> step == Respond(Reply(500, Error("ENROLLMENT_CHECK_FAILED", "Failed to verify enrollment")))
    ensures user.Some? && user.value.role != Str("admin") && courseId != "" && queryOk
            && !Enrolled(enrollments, user.value.uid, Str(courseId))
            ==> step == Respond(Reply(403, Error("FORBIDDEN", "You must be enrolled in this course")))
    ensures step.Next? <==>
      user.Some? && (user.value.role == Str("admin")
                     || (courseId != "" && queryOk && Enrolled(enrollments, user.value.uid, Str(courseId))))
  {
    if user.None? then
      Respond(Reply(401, Obj(map["success" := Bool(false),
        "error" := Obj(map["code" := Str("UNAUTHORIZED"), "message" := Str("Authentication required")])])))
    else if user.value.role == Str("admin") then Next
    else if courseId == "" then
      Respond(Reply(400, Obj(map["success" := Bool(false),
        "error" := Obj(map["code" := Str("BAD_REQUEST"), "message" := Str("courseId is required")])])))
    else if !queryOk then
      Respond(Reply(500, Obj(map["success" := Bool(false),
        "error" := Obj(map["code" := Str("ENROLLMENT_CHECK_FAILED"),
                           "message" := Str("Failed to verify enrollment")])])))
    else if !Enrolled(enrollments, user.value.uid, Str(courseId)) then
      Respond(Reply(403, Obj(map["success" := Bool(false),
        "error" := Obj(map["code" := Str("FORBIDDEN"),
                           "message" := Str("You must be enrolled in this course")])])))
    else Next
  }

  /** An admin passes without the query: the enrollments, a failing query
      and even a missing courseId make no difference. */
  lemma AdminNeedsNoQuery(user: AuthUser, c1: string, e1: map<string, Doc>, ok1: bool,
                          c2: string, e2: map<string, Doc>, ok2: bool)
    requires user.role == Str("admin")
    ensures CheckEnrollment(Some(user), c1, e1, ok1) == CheckEnrollment(Some(user), c2, e2, ok2) == Next
  {
  }

  /** A failing query never lets a non-admin through (fail closed). */
  lemma QueryFailureFailsClosed(user: AuthUser, courseId: string, enrollments: map<string, Doc>)
    requires user.role != Str("admin")
    ensures !CheckEnrollment(Some(user), courseId, enrollments, false).Next?
  {
  }
}
