# LMS backend on Firebase — a Dafny model

This project models the request handlers of a learning-management backend.
The backend runs as a Firebase Cloud Function and is built on Express. The
model covers:

- courses and their chapters;
- quizzes, with answer stripping for students and scored submissions;
- enrollments and per-course progress;
- user administration, registration and role assignment;
- the leaderboard and the placeholder chatbot;
- the older `/v1` handlers of `index.ts`.

It also models the middleware in front of these handlers:

- `verifyToken` and `optionalAuth`: the Bearer header, token verification and role resolution;
- `requireRole`;
- `checkEnrollment`.

Below them sit:

- the `success`/`error` envelope;
- the Firestore normaliser (`normalizeFirestoreData`, `mapDoc`);
- in-memory stand-ins for the Firestore database and the Firebase Auth accounts.

The values are JavaScript's. `Json.Value` has an `Undefined` case and an
`NaN` case, and the model spells out each piece of JavaScript it relies on:

- truthiness, `||`, `??` and `===` (objects are never `===`, and NaN is never equal to itself);
- `includes` (SameValueZero) and `String(v)`;
- `split`, `startsWith` and `toLowerCase`.

Request bodies and documents are `map<string, Value>`. Route parameters and
query strings are `string`, with "" standing for an absent one.

Handlers that change the store are methods on the `Database` and `Accounts`
classes' fields. Each states the whole new state and the reply for every
branch, errors included. Handlers that only read are functions over the
collection or over a query snapshot, which is a sequence of (id, data)
pairs in query order. What the middleware decides is captured by
`Gates.Admit`. Each router names its chain in a `GuardOf` function, and
the per-router lemmas state who reaches the handler.

Outside effects enter as parameters:

- the token verifier is a function from token to decoded claims;
- `add` ids are a fresh `newId`;
- the store read inside role resolution and the enrollment query each have an ok flag;
- Firebase Auth error messages are a `thrown` string;
- `createUser`'s own checks are a `createOk` flag.

A throw that follows from the data is modelled as the handler's 500 reply.
Examples: `doc()` given a non-string, `update` on a missing document,
`split` on a non-string, and `updateUser` for an unknown uid.

## Model

| member | source | states |
|---|---|---|
| Response.SuccessShape | functions/src/utils/response.ts:1-4 | `success(d)` has exactly the fields `success` = true and `data` = d |
| Response.ErrorShape | functions/src/utils/response.ts:6-9 | `error(c, m)` has exactly `success` = false and `error` = {code: c, message: m} |
| Response.DecodeInverts | functions/src/utils/response.ts:1-9 | reading an envelope by its flag recovers the data or the code and message; no success equals an error |
| FirebaseAdmin.Normalize | functions/src/firebaseAdmin.ts:31-52 | Timestamps and Dates become their ISO text; arrays keep their length and objects their keys; other values are left as they are; the result holds no Timestamp or Date |
| FirebaseAdmin.NormalizeDoc | functions/src/firebaseAdmin.ts:31-52 | a document keeps its keys, and each field is the normalised field |
| FirebaseAdmin.NormalizeFixesNormal | functions/src/firebaseAdmin.ts:31-52 | a value with no Timestamp or Date inside is left unchanged |
| FirebaseAdmin.NormalizeIdempotent | functions/src/firebaseAdmin.ts:31-52 | normalising twice gives the same as once |
| FirebaseAdmin.Identified | functions/src/firebaseAdmin.ts:54-57 | the object has the data's keys plus the id key; a data field of that name overrides the id, because it is spread last |
| FirebaseAdmin.MapDoc | functions/src/firebaseAdmin.ts:54-57 | `mapDoc`: `id` is the document id unless the data has its own `id`; every other field is normalised |
| FirebaseAdmin.Where | functions/src/routes/courses.ts:18-20 | an equality `where` keeps exactly the documents whose field equals the value, as a subsequence of the snapshot (in its order) |
| FirebaseAdmin.MapDocs | functions/src/routes/courses.ts:23 | one `mapDoc` per document, in snapshot order |
| FirebaseAdmin.Database.constructor | functions/src/firebaseAdmin.ts:27 | the database starts with every collection empty |
| FirebaseAdmin.Accounts.constructor | functions/src/firebaseAdmin.ts:28 | the Auth store starts with no accounts |
| Strings.Before | functions/src/middleware/verifyToken.ts:82 | the text before the first separator is a prefix that contains no separator |
| Strings.Lower | functions/src/routes/users.ts:40-44 | lowercasing keeps the length and maps each character |
| Strings.LowerIdempotent | functions/src/routes/users.ts:40-44 | lowercasing twice gives the same as once |
| Strings.LocalPart | functions/src/routes/users.ts:143 | `email.split("@")[0]` is a prefix of the email with no "@"; it is the whole email or is followed by "@" |
| VerifyToken.ResolveRole | functions/src/middleware/verifyToken.ts:24-50 | a truthy claim wins; next a truthy stored role; otherwise "student"; the result is always truthy |
| VerifyToken.ClaimNeedsNoRead | functions/src/middleware/verifyToken.ts:28-32 | with a role claim, the stored profile and a failing read make no difference |
| VerifyToken.ReadFailureFailsOpen | functions/src/middleware/verifyToken.ts:43-49 | a failing store read without a claim gives "student"; no error surfaces |
| VerifyToken.BearerTokenAfterPrefix | functions/src/middleware/verifyToken.ts:72-82 | the token is the text after the leading "Bearer ", up to the next "Bearer " or the end |
| VerifyToken.Authenticate | functions/src/middleware/verifyToken.ts:69-100 | malformed iff the header does not start with "Bearer "; invalid iff the verifier rejects the token; otherwise the user has the token's uid, its email or "", and the resolved role |
| VerifyToken.Rejection | functions/src/middleware/verifyToken.ts:72-108 | the two 401 replies and their messages |
| VerifyToken.Request.constructor | functions/src/middleware/verifyToken.ts:64-69 | a request starts with its header and no user |
| VerifyToken.RequireAuth | functions/src/middleware/verifyToken.ts:64-109 | a verified request gets `req.user` and calls `next()`; any other gets the matching 401, and `req.user` is left alone |
| VerifyToken.OptionalAuth | functions/src/middleware/verifyToken.ts:124-155 | always calls `next()`; attaches a user exactly when the token verifies |
| RoleGate.RequireRole | functions/src/middleware/requireRole.ts:3-23 | no user gives 401; a role outside the list gives 403; it passes iff there is a user whose role is in the list |
| RoleGate.RequireRoleIgnoresOrder | functions/src/middleware/requireRole.ts:13 | only membership in the allow-list matters |
| EnrollmentGate.CheckEnrollment | functions/src/middleware/checkEnrollment.ts:5-62 | the checks run in order: user (401), admin bypass, courseId (400), query failure (500), no enrollment (403); it passes iff admin, or the enrollment query finds the user's enrollment |
| EnrollmentGate.AdminNeedsNoQuery | functions/src/middleware/checkEnrollment.ts:18-22 | an admin passes whatever the enrollments, the query outcome or the courseId |
| EnrollmentGate.QueryFailureFailsClosed | functions/src/middleware/checkEnrollment.ts:53-61 | a failing query never lets a non-admin through |
| Gates.Admit | functions/src/middleware/verifyToken.ts:64-155 | the middleware chains: public admits with no user; optional attaches a verified user or none; token-guarded chains refuse with the 401 reply when authentication fails, and whoever gets through has the role or enrollment the chain demands |
| Gates.MissingTokenRefused | functions/src/middleware/verifyToken.ts:72-78 | a request without a Bearer header never reaches a guarded handler |
| Gates.AdminChainAdmitsOnlyAdmins | functions/src/middleware/requireRole.ts:13-19 | behind `requireRole("admin")`, exactly the verified admins get through |
| Rounding.RoundPercentHalfUp | functions/src/routes/quizzes.ts:258-260 | the rounded percentage r satisfies r − ½ ≤ 100c/n < r + ½, the `Math.round` rule |
| Rounding.RoundPercentBounded | functions/src/routes/quizzes.ts:258-260 | for c ≤ n the percentage lies in 0..100 |
| Rounding.RoundPercentExtremes | functions/src/routes/quizzes.ts:258-260 | all correct gives 100 and none gives 0 |
| Rounding.ThreeOfFour | functions/src/routes/quizzes.ts:258-260 | 3 of 4 gives 75, 1 of 8 rounds up to 13, 1 of 3 gives 33 |
| Rounding.Percentage | functions/src/routes/progress.ts:48-51 | no chapters gives 0; it stays at most 100 while the completed count is at most the total; all completed gives 100 |
| Courses.CourseGuards | functions/src/routes/courses.ts:15-141 | anyone reaches the list and the detail; only verified admins reach create, patch and delete |
| Courses.Visible | functions/src/routes/courses.ts:17-20 | an admin's query returns every course; anyone else's returns exactly the published ones |
| Courses.ListCourses | functions/src/routes/courses.ts:15-30 | the listed items are exactly the mapped visible courses |
| Courses.ShowCourse | functions/src/routes/courses.ts:33-52 | 404 "Course not found" for a missing course; otherwise the mapped document |
| Courses.NewCourse | functions/src/routes/courses.ts:75-82 | a falsy description or thumbnail becomes ""; a nullish `isPublished` becomes false; both timestamps are set |
| Courses.DefaultsDiffer | functions/src/routes/courses.ts:77-79 | `||` and `??` differ: an explicit false `isPublished` is kept, while an empty description is replaced |
| Courses.CreateCourse | functions/src/routes/courses.ts:55-92 | 400 without a truthy title; otherwise the new course is stored under the fresh id and echoed with 201 |
| Courses.PatchCourse | functions/src/routes/courses.ts:95-136 | the defined fields among title, description, thumbnailUrl and isPublished, plus `updatedAt`, are merged into an existing course; every other field is kept; a missing course gives 500 and no change |
| Courses.DeleteCourse | functions/src/routes/courses.ts:138-153 | the course is removed, and nothing else is |
| Chapters.ChapterGuards | functions/src/routes/chapters.ts:15-170 | reads need an enrolled user or an admin; writes need an admin |
| Chapters.ListChapters | functions/src/routes/chapters.ts:15-33 | the reply decodes to the mapped chapters in query order |
| Chapters.ShowChapter | functions/src/routes/chapters.ts:35-70 | 404 "Chapter not found" for a missing chapter; otherwise the mapped document |
| Chapters.NewChapter | functions/src/routes/chapters.ts:93-99 | content and videoUrl fall back to ""; `order` falls back to 0 only when nullish; only `createdAt` is set |
| Chapters.CreateChapter | functions/src/routes/chapters.ts:72-114 | 400 without a title; otherwise the chapter is stored in the course's sub-collection and echoed with 201 |
| Chapters.PatchChapter | functions/src/routes/chapters.ts:117-164 | the defined fields are merged into an existing chapter; there is no `updatedAt`; an empty update or a missing chapter gives 500 and no change |
| Chapters.PatchKeepsOthers | functions/src/routes/chapters.ts:132-143 | fields outside the patch, or undefined in the body, keep their value |
| Chapters.DeleteChapter | functions/src/routes/chapters.ts:167-189 | only that chapter of that course is removed |
| Quizzes.WritesNeedAdmin | functions/src/routes/quizzes.ts:96-189 | create, patch and delete admit only verified admins |
| Quizzes.SubmitNeedsEnrollment | functions/src/routes/quizzes.ts:211-214 | a submission reaches the handler only from an admin or an enrolled user |
| Quizzes.StripAnswers | functions/src/routes/quizzes.ts:79-83 | it fails iff a question is null or undefined; otherwise there is one entry per question, each with exactly that question's `question` and `options` |
| Quizzes.QuizView | functions/src/routes/quizzes.ts:73-86 | an admin sees the mapped quiz; for anyone else a view exists iff the normalised questions (falsy ones read as []) are an array with no null or undefined question |
| Quizzes.StudentViewShape | functions/src/routes/quizzes.ts:77-86 | a non-admin's view is the mapped quiz with only `questions` replaced: no question carries `correctAnswer`, and falsy questions show as [] |
| Quizzes.NonAdminSeesQuestions | functions/src/routes/quizzes.ts:79-83 | a student's i-th question keeps its text and options, and only those |
| Quizzes.Views | functions/src/routes/quizzes.ts:28-42 | all quizzes are viewable, or the list fails; one view per quiz, in order |
| Quizzes.ListQuizzes | functions/src/routes/quizzes.ts:19-50 | the list of views, or 500 "Failed to fetch quizzes" when a quiz cannot be stripped |
| Quizzes.ShowQuiz | functions/src/routes/quizzes.ts:53-93 | 404 "Quiz not found"; 500 when the quiz cannot be stripped; otherwise the view |
| Quizzes.CreateQuiz | functions/src/routes/quizzes.ts:96-135 | 400 unless it gets a truthy title and an array of questions; otherwise the quiz is stored with both timestamps and echoed with 201 |
| Quizzes.PatchQuiz | functions/src/routes/quizzes.ts:138-184 | the defined title and questions plus `updatedAt` are merged into an existing quiz; a missing quiz gives 500 and no change |
| Quizzes.DeleteQuiz | functions/src/routes/quizzes.ts:186-208 | only that quiz is removed |
| Quizzes.Correct | functions/src/routes/quizzes.ts:253-256 | the count of correct answers is at most the number of questions |
| Quizzes.CorrectCountsHits | functions/src/routes/quizzes.ts:253-256 | the count is exactly the number of positions whose stored `correctAnswer` is `===` to the answer |
| Quizzes.CountCorrect | functions/src/routes/quizzes.ts:253-256 | the `forEach` loop yields that count, or fails on a nullish question |
| Quizzes.Score | functions/src/routes/quizzes.ts:258-260 | the score is NaN for a quiz without questions; otherwise the rounded percentage, from 0 to 100 |
| Quizzes.SubmitQuiz | functions/src/routes/quizzes.ts:211-289 | error cases: 400 without an answers array; 404 for a missing quiz; 400 "Expected N answers, got M" when the lengths differ under `!==`; 500 when the questions cannot be read. Otherwise one result is appended, with the count, the score and the totals, and echoed with `submittedAt` null |
| Progress.ProgressIdInjective | functions/src/routes/progress.ts:28 | for user ids without "_", the record id determines both the user and the course |
| Progress.ProgressIdCollision | functions/src/routes/progress.ts:28 | without that condition two pairs share an id |
| Progress.CompletionExtends | functions/src/routes/progress.ts:42-46 | the list keeps its chapters in order and afterwards includes the chapter; it grows by one exactly when the chapter was missing |
| Progress.CompletionIdempotent | functions/src/routes/progress.ts:42-46 | recording a chapter twice changes nothing after the first time |
| Progress.ObjectChapterRepeats | functions/src/routes/progress.ts:44-45 | an object chapter id is never found, so it is appended on every post |
| Progress.UncheckedChapterOverflows | functions/src/routes/progress.ts:44-51 | chapter ids are not checked against the course, so one chapter with two recorded ones shows 200% |
| Progress.PostProgress | functions/src/routes/progress.ts:13-93 | 400 without both ids. An existing record gets the extended list, the percentage and `updatedAt` (200); a new one is created with the chapter alone (201). A list that cannot be extended, or a non-string course id, gives 500 and no change |
| Progress.GetProgress | functions/src/routes/progress.ts:96-124 | a success envelope: the empty default when there is no record; otherwise the raw record's fields plus `id`, which is the record id unless the record stores an `id` of its own (spread comes last) |
| Progress.PostThenGet | functions/src/routes/progress.ts:96-118 | reading back returns what was last stored |
| Enrollments.Enroll | functions/src/routes/enrollments.ts:13-62 | in order: 400 without a courseId, 404 for a missing course, 409 when already enrolled; otherwise the record is added (201) and the gate's enrollment test holds; at most one enrollment per user and course is kept |
| Enrollments.EnrollTwice | functions/src/routes/enrollments.ts:33-46 | a second enrollment right after a successful one gets 409 |
| Enrollments.MyEnrollments | functions/src/routes/enrollments.ts:65-86 | a success envelope whose list holds a value iff it is the mapped form of a snapshot document whose `userId` is the caller |
| Enrollments.MyEnrollmentsExact | functions/src/routes/enrollments.ts:65-86 | over a snapshot of the whole collection, the list holds exactly the caller's records |
| Enrollments.EnrollmentStatus | functions/src/routes/enrollments.ts:89-107 | `{enrolled}` is true iff the user has an enrollment in the course |
| Enrollments.StatusAgreesWithGate | functions/src/routes/enrollments.ts:89-101 | for a non-admin, the status says enrolled iff `checkEnrollment` admits the user when its query succeeds |
| Users.AllRoutesNeedAdmin | functions/src/routes/users.ts:14 | every user-management route admits only verified admins |
| Users.Profiles | functions/src/routes/users.ts:30-37 | one `{uid, ...data}` per document, in order |
| Users.Search | functions/src/routes/users.ts:39-46 | it keeps exactly the users whose lowercased name or email contains the lowercased term, in their order |
| Users.SearchIgnoresCase | functions/src/routes/users.ts:40 | the search does not depend on the case of the term |
| Users.RoleFilter | functions/src/routes/users.ts:25-27 | with a role, exactly the profiles with that role; without one, all of them |
| Users.ListUsers | functions/src/routes/users.ts:17-52 | the listed users are exactly the profiles with the requested role that match the search |
| Users.ShowUser | functions/src/routes/users.ts:55-72 | 404 "User not found" for a missing profile, else the profile under `uid` |
| Users.SyncAuth | functions/src/routes/users.ts:88-89 | a truthy email and then a truthy name are copied to the Auth account. It succeeds iff each call that is made has a string value and an existing account; the first failure stops the sync; no other account changes |
| Users.PatchUser | functions/src/routes/users.ts:75-101 | a missing profile gives 500 and no change. Otherwise the defined name and email plus `updatedAt` are written first, then synced to Auth; a failing sync answers 500 after the profile was written |
| Users.DeleteUser | functions/src/routes/users.ts:104-118 | the account is disabled and the profile marked inactive; nothing is removed; an unknown account gives 500 and no change |
| Users.Upserted | functions/src/routes/users.ts:139-159 | a new profile gets the display name or the email's local part, role "student", 0 points and both timestamps. A known one gets the email, the display name (else its old name, else ""), and `updatedAt`; every other field is kept. Without a display name, a non-string email fails |
| Users.UpsertKeepsRole | functions/src/routes/users.ts:150-158 | upserting a known user leaves its role and points alone |
| Users.UpsertUser | functions/src/routes/users.ts:121-171 | 400 without uid and email; 500 for a non-string uid or an email that cannot be split; otherwise the upserted profile is stored and returned |
| Auth.AuthGuards | functions/src/routes/auth.ts:12-63 | registration is open; role assignment admits only verified admins |
| Auth.DisplayName | functions/src/routes/auth.ts:27 | a truthy name wins, then the email's local part; it fails only for a non-string email with no name |
| Auth.NewProfile | functions/src/routes/auth.ts:36-43 | the new profile has exactly name, email, role "student", 0 points, active and `createdAt` |
| Auth.Register | functions/src/routes/auth.ts:12-56 | 400 without email and password; 500 with the thrown message when the name cannot be derived or the account cannot be created. Otherwise the account with claim role "student" and the profile are created together, and the reply is 201 `{uid, email, name, role}` |
| Auth.RegisteredAsStudent | functions/src/routes/auth.ts:34-43 | a new user's token resolves to "student", and the account and profile agree on name and email |
| Auth.InvalidRoleMessage | functions/src/routes/auth.ts:73-78 | the text of the invalid-role message |
| Auth.AssignRole | functions/src/routes/auth.ts:59-96 | in order: 400 without uid and role; 400 for a role outside student/admin/instructor; 500 with the thrown message for an unknown account. Otherwise the claim is set and the profile is merged (created when absent) with the role and `updatedAt`; afterwards claim and profile name the same role |
| Auth.Me | functions/src/routes/auth.ts:99-120 | 404 "User profile not found", or the caller's profile under `uid` |
| Leaderboard.Entry | functions/src/routes/leaderboard.ts:16-25 | name, then display name, then ""; the points when they are a number, else 0 |
| Leaderboard.Entries | functions/src/routes/leaderboard.ts:16 | one entry per document, in order |
| Leaderboard.Ranking | functions/src/routes/leaderboard.ts:9-33 | the reply decodes to the entries of the query's snapshot |
| Leaderboard.RankingFollowsQuery | functions/src/routes/leaderboard.ts:11-14 | over the `orderBy` result, the ranking lists each profile that has points exactly once, numeric points descending |
| Leaderboard.TextPointsShowZero | functions/src/routes/leaderboard.ts:22-23 | points stored as text show as 0 |
| Chatbot.ChatMessage | functions/src/routes/chatbot.ts:35-52 | a stored message has exactly role, content and timestamp |
| Chatbot.PostMessage | functions/src/routes/chatbot.ts:13-69 | 400 without message and session id, and 500 for a non-string session id, each with no change. Otherwise the user message and then the placeholder reply are written (kept in write order); the session records the last message; the reply carries the placeholder |
| Chatbot.PostTwice | functions/src/routes/chatbot.ts:34-61 | two posts keep both exchanges, oldest first, and the session shows the latest message |
| Legacy.Listing | functions/src/index.ts:24-108 | one `mapDoc` per document, bare, in snapshot order |
| Legacy.DraftsListed | functions/src/index.ts:24-28 | an unpublished course is listed here, though the enveloped list hides it from students |
| Legacy.AnswersListed | functions/src/index.ts:94-104 | the legacy quiz list keeps every question's `correctAnswer` |
| Legacy.Detail | functions/src/index.ts:34-51 | 404 with `{message}` for a missing document; otherwise the document under its id key |
| Legacy.ShowCourse | functions/src/index.ts:34-51 | 404 "Course not found" iff the course is missing; otherwise the mapped course |
| Legacy.ShowChapter | functions/src/index.ts:70-92 | 404 "Chapter not found" iff the chapter is missing; otherwise the mapped chapter |
| Legacy.ShowQuiz | functions/src/index.ts:110-132 | 404 "Quiz not found" iff the quiz is missing; otherwise the mapped quiz, answers included |
| Legacy.ShowUser | functions/src/index.ts:243-260 | 404 "User not found" iff the profile is missing; otherwise the profile under `uid` |
| Legacy.UserProgress | functions/src/index.ts:134-151 | 400 without a userId; otherwise exactly that user's mapped records |
| Legacy.DetailEntry | functions/src/index.ts:169-177 | the chapter id or ""; the Boolean coercion of `isCompleted`; the points when a number, else 0 |
| Legacy.DetailEntries | functions/src/index.ts:169 | one entry per record, in order |
| Legacy.OfUserCourse | functions/src/index.ts:163-167 | exactly the records of that user and course |
| Legacy.ProgressByCourse | functions/src/index.ts:153-183 | 400 unless both ids are given; otherwise `{userId, courseId, progressDetail}` with exactly the entries of that user's records in the course |
| Legacy.LegacyEntry | functions/src/index.ts:227-235 | the display name or "", and the same points rule as the enveloped leaderboard |
| Legacy.Ranking | functions/src/index.ts:220-241 | one legacy entry per document, in query order |
| Legacy.RecordIdCollision | functions/src/index.ts:199 | ids built from ids containing "_" can collide |
| Legacy.Payload | functions/src/index.ts:200-207 | the completion written is the three ids, completed, 0 points and `completedAt` |
| Legacy.Merged | functions/src/index.ts:210-212 | a merge-set: the payload's fields win, and the record's other fields stay |
| Legacy.MergeIdempotent | functions/src/index.ts:210-212 | recording the same completion twice stores what recording it once does |
| Legacy.PostProgress | functions/src/index.ts:185-218 | 400 unless all three ids are given; otherwise the merged record is stored under `courseId_chapterId_userId`, and the reply is 201 with the payload, the id and `completedAt` null |
| Legacy.UpsertUser | functions/src/index.ts:262-307 | the upsert rules with the name kept under `displayName` and no `isActive`; errors are `{message}` replies |
| Legacy.UpsertKeepsDisplayName | functions/src/index.ts:288-296 | a known user keeps its display name when none is given, and its role |

Where the written description of the API and the code differ, the model
follows the code. `isPublished ?? false` and `order ?? 0` also replace an
explicit null, not only a missing field. A quiz without questions scores
NaN, which JSON renders as null.

## Left out

- `functions/src/routes/storage.ts` (signed upload URLs) is not part of this model: it is a thin wrapper around Cloud Storage.
- These are HTTP plumbing and environment configuration:
  - Express routing and router mounting;
  - CORS;
  - the health route;
  - `express.json`;
  - the Firebase Admin bootstrap in `firebaseAdmin.ts`;
  - the `onRequest` export.
- Concurrency is not modelled; each handler runs to completion alone. The check-then-add in `Enroll` is therefore race-free only in the model.
- Store outages are modelled only for the two middleware reads. In every other handler the model reaches the `catch` only through the data-driven throws listed above; a failing network is not modelled.
- Firestore's own checks on written values are not modelled: an array directly inside an array, or a reserved field name, makes the write fail, and the handler answers 500 from its `catch`. The model stores such values and answers success. This affects `Quizzes.SubmitQuiz` (for example `answers: [[1]]`, which the source answers with 500 "Failed to submit quiz"), `Quizzes.CreateQuiz` and `Quizzes.PatchQuiz` (nested `questions`), `Courses.CreateCourse` and `Courses.PatchCourse` (a nested `title` or other field), `Chapters.CreateChapter` and `Chapters.PatchChapter`, `Progress.PostProgress`, `Chatbot.PostMessage` (a nested `message`), and the legacy writes.
- Register, AssignRole: Firebase Auth's own failure messages are the `thrown` parameter. Its validation is the `createOk` parameter: email syntax, password strength and duplicate emails.
- Auth.Register: the echoed email is the request's. Firebase Auth's normalisation of the stored email (lower-casing) is not modelled.
- Users.PatchUser: only a missing account and non-string values make `updateUser` fail. Firebase Auth's rejection of malformed or already-used emails is not modelled.
- Floating point is not modelled. `Math.round((c / n) * 100)` is modelled as exact half-up rounding of 100c/n, yet the product is computed in binary floating point, so some exact halves (such as 29 of 200) can come out just below .5 and round down in the source.
- Rounding.Percentage: with more recorded chapters than the course has, the value exceeds 100, as `UncheckedChapterOverflows` shows; the bound is stated only where the count allows it.
- Numbers are integers (`Num(int)`). Fractional numbers cannot be represented at all, in request bodies or in stored documents. The model is therefore silent on the tests that could meet one: the `===` comparison of a quiz answer with `correctAnswer` (functions/src/routes/quizzes.ts:253-256), the `typeof === "number"` points rule for `totalPoints` and `pointsAwarded` (functions/src/routes/leaderboard.ts:22-23, functions/src/index.ts:174-175), and a chapter's `order`.
- Chatbot.PostMessage: each `messages` `add` creates a document with an auto id in an unordered collection. The model keeps a session's messages as a sequence without ids. The sequence order stands for write order; it is not an order Firestore returns.
- `String(v)` of Timestamps, Dates and server timestamps is not modelled: JavaScript renders each through its own `toString` (a date string for a Date), but the model renders all three as "[object Object]". No handler renders one of them. Server timestamps stay an opaque `ServerTime` placeholder in the store and are never resolved to a time.
- `toLowerCase` is modelled for ASCII letters only; Unicode case mapping is left out.
- Query order is not modelled: `orderBy` for chapters and the leaderboard, and Firestore's order otherwise. The snapshot arrives in query order. `orderBy` leaving out documents without the field is stated for the leaderboard (`RankedFrom`) and assumed for chapter lists.
- `set(..., {merge: true})` is modelled as a top-level field merge; Firestore's deep merge of nested map values is left out.
- JSON serialisation is not modelled: a reply body is the value handed to `res.json`. Dropping undefined fields and writing NaN as null happen after that point.
- Document paths are not modelled. A route parameter or id containing "/" addresses a different document in Firestore; here it is an ordinary key.
- Repeated query parameters (arrays in `req.query`) are not modelled; query strings are taken as strings.
