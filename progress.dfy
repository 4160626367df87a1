// functions/src/routes/progress.ts: per-(user, course) progress records in
// `progress`, keyed by `${uid}_${courseId}`.

module Progress {
  import opened Wrappers
  import opened Json
  import opened Strings
  import opened Response
  import opened FirebaseAdmin
  import opened Rounding

  /** The record id `${uid}_${courseId}`. */
  function ProgressId(uid: string, courseId: string): string {
    uid + "_" + courseId
  }

  /** For user ids without "_" (Firebase Auth uids have none), the record id
      determines both the user and the course. */
  lemma ProgressIdInjective(u1: string, c1: string, u2: string, c2: string)
    requires '_' !in u1 && '_' !in u2
    requires ProgressId(u1, c1) == ProgressId(u2, c2)
    ensures u1 == u2 && c1 == c2
  {
    var id := ProgressId(u1, c1);
    FirstUnderscore(u1, c1);
    FirstUnderscore(u2, c2);
    assert |u1| == |u2|;
    assert u1 == id[..|u1|] == u2;
    assert c1 == id[|u1| + 1..] == c2;
  }

  /** The first "_" of the id is the one after the user id. */
  lemma FirstUnderscore(u: string, c: string)
    requires '_' !in u
    ensures ProgressId(u, c)[|u|] == '_'
    ensures forall i | 0 <= i < |u| :: ProgressId(u, c)[i] != '_'
  {
    assert forall i | 0 <= i < |u| :: ProgressId(u, c)[i] == u[i];
  }

  /** Without that assumption two users' records can share an id. */
  lemma ProgressIdCollision()
    ensures ProgressId("a_b", "c") == ProgressId("a", "b_c")
  {
  }

  /** The completed list after recording `chapterId`, or None where the
      handler throws. An array gets the chapter appended at the end unless
      `includes` finds it; a string (which has `includes` but no `push`)
      passes only when it already contains the chapter's text. */
  function Completion(completed: Value, chapterId: Value): Option<Value> {
    match completed
    case Arr(items) =>
      Some(if Includes(items, chapterId) then completed else Arr(items + [chapterId]))
    case Str(s) => if Contains(s, Text(chapterId)) then Some(completed) else None
    case _ => None
  }

  /** `completed.length` of a list Completion accepts. */
  function Count(completed: Value): nat
    requires completed.Arr? || completed.Str?
  {
    if completed.Arr? then |completed.items| else |completed.s|
  }

  /** An array keeps every chapter it had, in order, and afterwards holds
      `chapterId` (for any chapterId `includes` can find). */
  lemma CompletionExtends(items: seq<Value>, chapterId: Value)
    requires SameValueZero(chapterId, chapterId)
    ensures var r := Completion(Arr(items), chapterId);
      && r.Some? && r.value.Arr?
      && r.value.items[..|items|] == items
      && Includes(r.value.items, chapterId)
      && (Includes(items, chapterId) ==> r.value.items == items)
      && (!Includes(items, chapterId) ==> r.value.items == items + [chapterId])
  {
    var r := Completion(Arr(items), chapterId).value.items;
    if !Includes(items, chapterId) {
      assert r[|items|] == chapterId;
    }
  }

  /** Recording a chapter a second time changes nothing. */
  lemma CompletionIdempotent(completed: Value, chapterId: Value)
    requires SameValueZero(chapterId, chapterId)
    requires Completion(completed, chapterId).Some?
    ensures Completion(Completion(completed, chapterId).value, chapterId) == Completion(completed, chapterId)
  {
    if completed.Arr? {
      CompletionExtends(completed.items, chapterId);
    }
  }

  /** An object chapter id is never `===` to a stored one, so it is appended
      on every post. */
  lemma ObjectChapterRepeats(items: seq<Value>, fields: map<string, Value>)
    ensures Completion(Arr(items), Obj(fields)) == Some(Arr(items + [Obj(fields)]))
  {
  }

  /** Chapter ids are not checked against the course, so the percentage can
      pass 100: a one-chapter course with two recorded chapters shows 200. */
  lemma UncheckedChapterOverflows()
    ensures Completion(Arr([Str("c1")]), Str("other")) == Some(Arr([Str("c1"), Str("other")]))
    ensures Percentage(2, 1) == 200
  {
    assert !Includes([Str("c1")], Str("other")) by {
      assert !SameValueZero(Str("c1"), Str("other"));
    }
    assert [Str("c1")] + [Str("other")] == [Str("c1"), Str("other")];
  }

  /** `POST /` for the verified caller `uid`. `total` is the course's
      chapter count, read from `courses/{courseId}/chapters` in the
      database the method runs against. */
  method PostProgress(db: Database, uid: string, body: Doc) returns (reply: Reply)
    modifies db`progress
    ensures var courseId, chapterId := Get(body, "courseId"), Get(body, "chapterId");
      !Truthy(courseId) || !Truthy(chapterId) ==>
        reply == Reply(400, Error("BAD_REQUEST", "courseId and chapterId are required"))
    ensures var courseId, chapterId := Get(body, "courseId"), Get(body, "chapterId");
      Truthy(courseId) && Truthy(chapterId) && !courseId.Str? ==>
        reply == Reply(500, Error("PROGRESS_FAILED", "Failed to update progress"))
    ensures var courseId, chapterId := Get(body, "courseId"), Get(body, "chapterId");
      Truthy(courseId) && Truthy(chapterId) && courseId.Str? ==>
        var id := ProgressId(uid, courseId.s);
        var total := |Sub(db.chapters, courseId.s)|;
        && (id in old(db.progress) ==>
              var completed := Or(Get(old(db.progress)[id], "completedChapters"), Arr([]));
              match Completion(completed, chapterId)
              case None =>
                reply == Reply(500, Error("PROGRESS_FAILED", "Failed to update progress"))
              case Some(list) =>
                var percentage := Num(Percentage(Count(list), total));
                && db.progress == old(db.progress)[id := old(db.progress)[id]
                     + map["completedChapters" := list, "percentage" := percentage, "updatedAt" := ServerTime]]
                && reply == Reply(200, Success(Obj(map["id" := Str(id), "userId" := Str(uid),
                     "courseId" := courseId, "completedChapters" := list, "percentage" := percentage]))))
        && (id !in old(db.progress) ==>
              var percentage := Num(Percentage(1, total));
              && db.progress == old(db.progress)[id := map["userId" := Str(uid), "courseId" := courseId,
                   "completedChapters" := Arr([chapterId]), "percentage" := percentage, "updatedAt" := ServerTime]]
              && reply == Reply(201, Success(Obj(map["id" := Str(id), "userId" := Str(uid),
                   "courseId" := courseId, "completedChapters" := Arr([chapterId]), "percentage" := percentage]))))
    ensures reply.status != 200 && reply.status != 201 ==> db.progress == old(db.progress)
  {
    var courseId := Get(body, "courseId");
    var chapterId := Get(body, "chapterId");
    if !Truthy(courseId) || !Truthy(chapterId) {
      reply := Reply(400, Error("BAD_REQUEST", "courseId and chapterId are required"));
      return;
    }
    var id := uid + "_" + Text(courseId);
    var existing := if id in db.progress then Some(db.progress[id]) else None;
    if !courseId.Str? {
      // `doc(courseId)` refuses a non-string path.
      reply := Reply(500, Error("PROGRESS_FAILED", "Failed to update progress"));
      return;
    }
    var total := |Sub(db.chapters, courseId.s)|;
    if existing.Some? {
      var completed := Or(Get(existing.value, "completedChapters"), Arr([]));
      if completed.Arr? {
        if !Includes(completed.items, chapterId) {
          completed := Arr(completed.items + [chapterId]);
        }
      } else if !(completed.Str? && Contains(completed.s, Text(chapterId))) {
        // No `includes`, or a string that lacks the chapter: `push` throws.
        reply := Reply(500, Error("PROGRESS_FAILED", "Failed to update progress"));
        return;
      }
      var percentage := Num(if total > 0 then RoundPercent(Count(completed), total) else 0);
      db.progress := db.progress[id := existing.value
        + map["completedChapters" := completed, "percentage" := percentage, "updatedAt" := ServerTime]];
      reply := Reply(200, Success(Obj(map["id" := Str(id), "userId" := Str(uid),
        "courseId" := courseId, "completedChapters" := completed, "percentage" := percentage])));
    } else {
      var percentage := Num(if total > 0 then RoundPercent(1, total) else 0);
      db.progress := db.progress[id := map["userId" := Str(uid), "courseId" := courseId,
        "completedChapters" := Arr([chapterId]), "percentage" := percentage, "updatedAt" := ServerTime]];
      reply := Reply(201, Success(Obj(map["id" := Str(id), "userId" := Str(uid),
        "courseId" := courseId, "completedChapters" := Arr([chapterId]), "percentage" := percentage])));
    }
  }

  /** `GET /:courseId`: the stored record as it is (with its id, and not
      normalised), or an empty default when there is none. */
  function GetProgress(progress: map<string, Doc>, uid: string, courseId: string): (reply: Reply)
    ensures reply.status == 200 && Decode(reply.body).Some? && Decode(reply.body).value.Succeeded?
    ensures var data := Decode(reply.body).value.data;
      && data.Obj?
      && (ProgressId(uid, courseId) !in progress ==>
            data.fields == map["userId" := Str(uid), "courseId" := Str(courseId),
                               "completedChapters" := Arr([]), "percentage" := Num(0)])
      && (ProgressId(uid, courseId) in progress ==>
            var d := progress[ProgressId(uid, courseId)];
            && data.fields.Keys == d.Keys + {"id"}
            && (forall k | k in d :: data.fields[k] == d[k])
            && ("id" !in d ==> data.fields["id"] == Str(ProgressId(uid, courseId))))
  {
    var id := uid + "_" + courseId;
    if id !in progress then
      var data := Obj(map["userId" := Str(uid), "courseId" := Str(courseId),
                          "completedChapters" := Arr([]), "percentage" := Num(0)]);
      DecodeInverts(data, "", "");
      Reply(200, Success(data))
    else
      var data := Obj(map["id" := Str(id)] + progress[id]);
      DecodeInverts(data, "", "");
      Reply(200, Success(data))
  }

  /** What GET reads back is what the last POST stored for that course. */
  lemma PostThenGet(progress: map<string, Doc>, uid: string, courseId: string, d: Doc)
    ensures var got := GetProgress(progress[ProgressId(uid, courseId) := d], uid, courseId).body;
      forall k | k in d :: got.fields["data"].fields[k] == d[k]
  {
  }
}
