// functions/src/routes/quizzes.ts: the quiz router under
// /courses/{courseId}/quizzes. Answers are hidden from non-admins when
// quizzes are read; submissions are scored and logged in `quizResults`.

module Quizzes {
  import opened Wrappers
  import opened Json
  import opened Response
  import opened FirebaseAdmin
  import opened VerifyToken
  import opened EnrollmentGate
  import opened Gates
  import opened Rounding

  datatype Route = List | Show | Create | Patch | Delete | Submit

  /** The middleware in front of each route. */
  function GuardOf(r: Route): Guard {
    match r
    case List => EnrolledOrAdmin
    case Show => EnrolledOrAdmin
    case Submit => EnrolledOrAdmin
    case _ => RoleIn(["admin"])
  }

  /** Only a verified admin reaches create, patch and delete. */
  lemma WritesNeedAdmin(r: Route, header: Option<string>, courseId: string, env: Env)
    requires r.Create? || r.Patch? || r.Delete?
    ensures Admit(GuardOf(r), header, courseId, env).Admitted? ==>
      Admit(GuardOf(r), header, courseId, env).user.value.role == Str("admin")
  {
  }

  /** A submission is scored only for an admin or a caller enrolled in the
      course the route names. */
  lemma SubmitNeedsEnrollment(header: Option<string>, courseId: string, env: Env)
    ensures var a := Admit(GuardOf(Submit), header, courseId, env);
      a.Admitted? ==> a.user.value.role == Str("admin")
                      || Enrolled(env.enrollments, a.user.value.uid, Str(courseId))
  {
  }

  // ---------------------------------------------------------------------
  // Reading quizzes: answers are stripped for everyone but admins.

  /** The question as a non-admin sees it: `({question, options}) => ({question, options})`. */
  function Unanswered(q: Value): Value {
    Obj(map["question" := Field(q, "question"), "options" := Field(q, "options")])
  }

  /** `qs.map(({question, options}) => ({question, options}))`; destructuring
      a null or undefined question throws, which is None here. */
  function StripAnswers(qs: seq<Value>): (r: Option<seq<Value>>)
    ensures r.Some? <==> forall i | 0 <= i < |qs| :: !Nullish(qs[i])
    ensures r.Some? ==> |r.value| == |qs|
    ensures r.Some? ==> forall i | 0 <= i < |qs| :: r.value[i] == Unanswered(qs[i])
    ensures r.Some? ==> forall i | 0 <= i < |qs| ::
      && r.value[i].Obj?
      && r.value[i].fields.Keys == {"question", "options"}
      && r.value[i].fields["question"] == Field(qs[i], "question")
      && r.value[i].fields["options"] == Field(qs[i], "options")
  {
    if qs == [] then Some([])
    else if Nullish(qs[0]) then None
    else
      match StripAnswers(qs[1..])
      case None => None
      case Some(rest) => Some([Unanswered(qs[0])] + rest)
  }

  /** The quiz object a caller with role `role` receives for document `id`
      with data `d`: `{id, ...data}` on the normalised data, with the
      questions stripped unless the caller is an admin. A missing or falsy
      `questions` reads as []; a truthy non-array one, or a null question,
      makes the handler throw (None). */
  function QuizView(id: string, d: Doc, role: Value): (r: Option<Value>)
    ensures role == Str("admin") ==> r == Some(MapDoc(id, d))
    ensures role != Str("admin") ==>
      var qs := Or(Normalize(Get(d, "questions")), Arr([]));
      r.Some? <==> qs.Arr? && forall i | 0 <= i < |qs.items| :: !Nullish(qs.items[i])
  {
    if role == Str("admin") then Some(MapDoc(id, d))
    else
      GetNormalized(d, "questions");
      var qs := Or(Get(NormalizeDoc(d), "questions"), Arr([]));
      if !qs.Arr? then None
      else
        match StripAnswers(qs.items)
        case None => None
        case Some(stripped) => Some(Obj(MapDoc(id, d).fields["questions" := Arr(stripped)]))
  }

  /** A non-admin's view is the mapped quiz with only its `questions`
      replaced: every question is an object without `correctAnswer`, and
      falsy questions read as []. */
  lemma StudentViewShape(id: string, d: Doc, role: Value)
    requires role != Str("admin") && QuizView(id, d, role).Some?
    ensures var v := QuizView(id, d, role).value;
      && v.Obj?
      && v.fields.Keys == d.Keys + {"id", "questions"}
      && (forall k | k in d.Keys + {"id"} && k != "questions" :: v.fields[k] == MapDoc(id, d).fields[k])
      && v.fields["questions"].Arr?
      && (forall i | 0 <= i < |v.fields["questions"].items| ::
            var q := v.fields["questions"].items[i];
            q.Obj? && "correctAnswer" !in q.fields)
      && (!Truthy(Normalize(Get(d, "questions"))) ==> v.fields["questions"] == Arr([]))
  {
    GetNormalized(d, "questions");
  }

  /** A non-admin sees exactly the questions the quiz holds, in order, with
      their text and options and nothing else. */
  lemma NonAdminSeesQuestions(id: string, d: Doc, role: Value, i: nat)
    requires role != Str("admin") && Get(d, "questions").Arr?
    requires QuizView(id, d, role).Some?
    requires i < |Get(d, "questions").items|
    ensures var qs := QuizView(id, d, role).value.fields["questions"].items;
      && |qs| == |Get(d, "questions").items|
      && qs[i] == Unanswered(Normalize(Get(d, "questions").items[i]))
  {
    var nq := Normalize(Get(d, "questions"));
    ViewQuestions(id, d, role);
    var st := StripAnswers(nq.items).value;
    NormalizeArray(Get(d, "questions").items, i);
  }

  /** The questions of a non-admin view are the stripped normalised ones. */
  lemma ViewQuestions(id: string, d: Doc, role: Value)
    requires role != Str("admin") && Get(d, "questions").Arr?
    requires QuizView(id, d, role).Some?
    ensures var st := StripAnswers(Normalize(Get(d, "questions")).items);
      st.Some? && QuizView(id, d, role).value.fields["questions"] == Arr(st.value)
  {
    GetNormalized(d, "questions");
  }

  /** The views of every document of a snapshot, or None if one throws. */
  function Views(s: Snapshot, role: Value): (r: Option<seq<Value>>)
    ensures r.Some? <==> forall i | 0 <= i < |s| :: QuizView(s[i].0, s[i].1, role).Some?
    ensures r.Some? ==> |r.value| == |s|
    ensures r.Some? ==> forall i | 0 <= i < |s| :: r.value[i] == QuizView(s[i].0, s[i].1, role).value
  {
    if s == [] then Some([])
    else
      match QuizView(s[0].0, s[0].1, role)
      case None => None
      case Some(v) =>
        match Views(s[1..], role)
        case None => None
        case Some(rest) => Some([v] + rest)
  }

  /** `GET /` over the snapshot of the course's quizzes. */
  function ListQuizzes(s: Snapshot, role: Value): (reply: Reply)
    ensures Views(s, role).Some? ==> reply == Reply(200, Success(Arr(Views(s, role).value)))
    ensures Views(s, role).None? ==> reply == Reply(500, Error("FETCH_FAILED", "Failed to fetch quizzes"))
  {
    match Views(s, role)
    case Some(vs) => Reply(200, Success(Arr(vs)))
    case None => Reply(500, Error("FETCH_FAILED", "Failed to fetch quizzes"))
  }

  /** `GET /:quizId` over the course's quizzes. */
  function ShowQuiz(quizzes: map<string, Doc>, quizId: string, role: Value): (reply: Reply)
    ensures quizId !in quizzes ==> reply == Reply(404, Error("NOT_FOUND", "Quiz not found"))
    ensures quizId in quizzes && QuizView(quizId, quizzes[quizId], role).None?
            ==> reply == Reply(500, Error("FETCH_FAILED", "Failed to fetch quiz"))
    ensures reply.status == 200 <==> quizId in quizzes && QuizView(quizId, quizzes[quizId], role).Some?
    ensures reply.status == 200 ==> reply.body == Success(QuizView(quizId, quizzes[quizId], role).value)
  {
    if quizId !in quizzes then Reply(404, Error("NOT_FOUND", "Quiz not found"))
    else
      match QuizView(quizId, quizzes[quizId], role)
      case None => Reply(500, Error("FETCH_FAILED", "Failed to fetch quiz"))
      case Some(v) => Reply(200, Success(v))
  }

  // ---------------------------------------------------------------------
  // Writing quizzes.

  /** `POST /`: needs a truthy `title` and an array `questions`; stores them
      with both timestamps under the fresh id `newId`. */
  method CreateQuiz(db: Database, courseId: string, body: Doc, newId: string) returns (reply: Reply)
    requires newId !in Sub(db.quizzes, courseId)
    modifies db`quizzes
    ensures var title, questions := Get(body, "title"), Get(body, "questions");
      if !Truthy(title) || !questions.Arr? then
        && reply == Reply(400, Error("BAD_REQUEST", "title and questions array are required"))
        && db.quizzes == old(db.quizzes)
      else
        var quiz := map["title" := title, "questions" := questions,
                        "createdAt" := ServerTime, "updatedAt" := ServerTime];
        && db.quizzes == old(db.quizzes)[courseId := Sub(old(db.quizzes), courseId)[newId := quiz]]
        && reply == Reply(201, Success(Obj(quiz["id" := Str(newId)])))
  {
    var title := Get(body, "title");
    var questions := Get(body, "questions");
    if !Truthy(title) || !Truthy(questions) || !questions.Arr? {
      reply := Reply(400, Error("BAD_REQUEST", "title and questions array are required"));
      return;
    }
    var quiz := map["title" := title, "questions" := questions,
                    "createdAt" := ServerTime, "updatedAt" := ServerTime];
    db.quizzes := db.quizzes[courseId := Sub(db.quizzes, courseId)[newId := quiz]];
    assert map["id" := Str(newId)] + quiz == quiz["id" := Str(newId)];
    reply := Reply(201, Success(Obj(map["id" := Str(newId)] + quiz)));
  }

  const QuizFields := {"title", "questions"}

  /** `PATCH /:quizId`: writes `updatedAt` and whichever of `title` and
      `questions` the body defines, then answers the re-read document.
      Updating a missing document throws, which answers 500. */
  method PatchQuiz(db: Database, courseId: string, quizId: string, body: Doc) returns (reply: Reply)
    modifies db`quizzes
    ensures quizId !in Sub(old(db.quizzes), courseId) ==>
      && reply == Reply(500, Error("UPDATE_FAILED", "Failed to update quiz"))
      && db.quizzes == old(db.quizzes)
    ensures quizId in Sub(old(db.quizzes), courseId) ==>
      var quiz := Updated(Sub(old(db.quizzes), courseId)[quizId], body, QuizFields)["updatedAt" := ServerTime];
      && db.quizzes == old(db.quizzes)[courseId := Sub(old(db.quizzes), courseId)[quizId := quiz]]
      && reply == Reply(200, Success(MapDoc(quizId, quiz)))
  {
    var updates: Doc := map["updatedAt" := ServerTime];
    assert updates == Defined(body, {})["updatedAt" := ServerTime];
    if Get(body, "title") != Undefined {
      updates := updates["title" := body["title"]];
    }
    StampedStep(body, {}, "title", "updatedAt", ServerTime);
    assert {} + {"title"} == {"title"};
    assert updates == Defined(body, {"title"})["updatedAt" := ServerTime];
    if Get(body, "questions") != Undefined {
      updates := updates["questions" := body["questions"]];
    }
    StampedStep(body, {"title"}, "questions", "updatedAt", ServerTime);
    assert {"title"} + {"questions"} == QuizFields;
    assert updates == Defined(body, QuizFields)["updatedAt" := ServerTime];
    var quizzes := Sub(db.quizzes, courseId);
    if quizId !in quizzes {
      reply := Reply(500, Error("UPDATE_FAILED", "Failed to update quiz"));
      return;
    }
    StampedUpdate(quizzes[quizId], body, QuizFields, "updatedAt", ServerTime);
    var quiz := quizzes[quizId] + updates;
    db.quizzes := db.quizzes[courseId := quizzes[quizId := quiz]];
    reply := Reply(200, Success(MapDoc(quizId, quiz)));
  }

  /** `DELETE /:quizId`: removes the document (a missing one is no error). */
  method DeleteQuiz(db: Database, courseId: string, quizId: string) returns (reply: Reply)
    modifies db`quizzes
    ensures db.quizzes == old(db.quizzes)[courseId := Sub(old(db.quizzes), courseId) - {quizId}]
    ensures quizId !in Sub(db.quizzes, courseId)
    ensures reply == Reply(200, Success(Obj(map["id" := Str(quizId), "deleted" := Bool(true)])))
  {
    db.quizzes := db.quizzes[courseId := Sub(db.quizzes, courseId) - {quizId}];
    reply := Reply(200, Success(Obj(map["id" := Str(quizId), "deleted" := Bool(true)])));
  }

  // ---------------------------------------------------------------------
  // Scoring a submission.

  /** `q.correctAnswer === answer`. */
  predicate Hit(q: Value, answer: Value) {
    StrictEquals(Field(q, "correctAnswer"), answer)
  }

  /** The number of questions answered correctly. */
  function Correct(qs: seq<Value>, answers: seq<Value>): (c: nat)
    requires |qs| == |answers|
    ensures c <= |qs|
  {
    if qs == [] then 0
    else
      var n := |qs| - 1;
      Correct(qs[..n], answers[..n]) + (if Hit(qs[n], answers[n]) then 1 else 0)
  }

  /** The indices whose answer matches the question's `correctAnswer`. */
  ghost function Hits(qs: seq<Value>, answers: seq<Value>): set<nat>
    requires |qs| == |answers|
  {
    set i: nat | i < |qs| && Hit(qs[i], answers[i])
  }

  /** The count is the number of indices i with `correctAnswer[i] == answers[i]`. */
  lemma {:induction false} CorrectCountsHits(qs: seq<Value>, answers: seq<Value>)
    requires |qs| == |answers|
    ensures Correct(qs, answers) == |Hits(qs, answers)|
  {
    if qs == [] {
      assert Hits(qs, answers) == {};
    } else {
      var n := |qs| - 1;
      CorrectCountsHits(qs[..n], answers[..n]);
      var before := Hits(qs[..n], answers[..n]);
      assert Hits(qs, answers) == if Hit(qs[n], answers[n]) then before + {n} else before;
    }
  }

  /** The `forEach` of the handler: counts the hits, and throws (ok false)
      on reaching a null or undefined question. */
  method CountCorrect(qs: seq<Value>, answers: seq<Value>) returns (ok: bool, count: nat)
    requires |qs| == |answers|
    ensures ok <==> forall i | 0 <= i < |qs| :: !Nullish(qs[i])
    ensures ok ==> count == Correct(qs, answers)
  {
    count := 0;
    var i := 0;
    while i < |qs|
      invariant 0 <= i <= |qs|
      invariant forall j | 0 <= j < i :: !Nullish(qs[j])
      invariant count == Correct(qs[..i], answers[..i])
    {
      if Nullish(qs[i]) {
        return false, count;
      }
      assert qs[..i + 1][..i] == qs[..i] && answers[..i + 1][..i] == answers[..i];
      if StrictEquals(Field(qs[i], "correctAnswer"), answers[i]) {
        count := count + 1;
      }
      i := i + 1;
    }
    assert qs[..i] == qs && answers[..i] == answers;
    ok := true;
  }

  /** `answers.length` / `questions.length` for any value: strings have a
      length too, and a plain object only if it stores one. */
  function Length(v: Value): Value {
    match v
    case Arr(items) => Num(|items|)
    case Str(s) => Num(|s|)
    case Obj(fields) => Get(fields, "length")
    case _ => Undefined
  }

  /** The `score` a submission gets: NaN when the quiz has no questions. */
  function Score(c: nat, n: nat): (v: Value)
    ensures n == 0 <==> v.NaN?
    ensures n > 0 && c <= n ==> v.Num? && 0 <= v.n <= 100
  {
    if n == 0 then NaN
    else
      RoundPercentBounded(c, n);
      Num(RoundPercent(c, n))
  }

  /** `POST /:quizId/submit` for the admitted caller `uid`. Checks run in the
      order: answers array, quiz exists, answer count; the result is then
      appended to `quizResults` under the fresh id `newId`. */
  method SubmitQuiz(db: Database, uid: string, courseId: string, quizId: string, body: Doc,
                    newId: string) returns (reply: Reply)
    requires newId !in db.quizResults
    modifies db`quizResults
    ensures var answers := Get(body, "answers");
      !answers.Arr? ==>
        reply == Reply(400, Error("BAD_REQUEST", "answers array is required"))
    ensures var answers := Get(body, "answers");
      answers.Arr? && quizId !in Sub(db.quizzes, courseId) ==>
        reply == Reply(404, Error("NOT_FOUND", "Quiz not found"))
    ensures var answers := Get(body, "answers");
      answers.Arr? && quizId in Sub(db.quizzes, courseId) ==>
        var questions := Or(Get(Sub(db.quizzes, courseId)[quizId], "questions"), Arr([]));
        && (!StrictEquals(Length(answers), Length(questions)) ==>
              reply == Reply(400, Error("BAD_REQUEST",
                "Expected " + Text(Length(questions)) + " answers, got " + Decimal(|answers.items|))))
        && (StrictEquals(Length(answers), Length(questions)) && !questions.Arr? ==>
              reply == Reply(500, Error("SUBMIT_FAILED", "Failed to submit quiz")))
        && (questions.Arr? && |questions.items| == |answers.items| ==>
              if exists i | 0 <= i < |questions.items| :: Nullish(questions.items[i]) then
                reply == Reply(500, Error("SUBMIT_FAILED", "Failed to submit quiz"))
              else
                var c := Correct(questions.items, answers.items);
                var n := |questions.items|;
                var result := map["userId" := Str(uid), "courseId" := Str(courseId),
                                   "quizId" := Str(quizId), "answers" := answers,
                                   "score" := Score(c, n), "correctCount" := Num(c),
                                   "totalQuestions" := Num(n), "submittedAt" := ServerTime];
                && db.quizResults == old(db.quizResults)[newId := result]
                && reply == Reply(200, Success(Obj(result["id" := Str(newId)]["submittedAt" := Null]))))
    ensures reply.status != 200 ==> db.quizResults == old(db.quizResults)
    ensures reply.status == 200 ==> db.quizResults.Keys == old(db.quizResults).Keys + {newId}
  {
    var answers := Get(body, "answers");
    if !Truthy(answers) || !answers.Arr? {
      reply := Reply(400, Error("BAD_REQUEST", "answers array is required"));
      return;
    }
    var quizzes := Sub(db.quizzes, courseId);
    if quizId !in quizzes {
      reply := Reply(404, Error("NOT_FOUND", "Quiz not found"));
      return;
    }
    var questions := Or(Get(quizzes[quizId], "questions"), Arr([]));
    if !StrictEquals(Length(answers), Length(questions)) {
      reply := Reply(400, Error("BAD_REQUEST",
        "Expected " + Text(Length(questions)) + " answers, got " + Text(Length(answers))));
      return;
    }
    if !questions.Arr? {
      reply := Reply(500, Error("SUBMIT_FAILED", "Failed to submit quiz"));
      return;
    }
    var ok, c := CountCorrect(questions.items, answers.items);
    if !ok {
      reply := Reply(500, Error("SUBMIT_FAILED", "Failed to submit quiz"));
      return;
    }
    var n := |questions.items|;
    var score := if n == 0 then NaN else Num(RoundPercent(c, n));
    var result := map["userId" := Str(uid), "courseId" := Str(courseId),
                       "quizId" := Str(quizId), "answers" := answers,
                       "score" := score, "correctCount" := Num(c),
                       "totalQuestions" := Num(n), "submittedAt" := ServerTime];
    assert map["id" := Str(newId)] + result + map["submittedAt" := Null]
        == result["id" := Str(newId)]["submittedAt" := Null];
    db.quizResults := db.quizResults[newId := result];
    reply := Reply(200, Success(Obj(map["id" := Str(newId)] + result + map["submittedAt" := Null])));
  }
}
