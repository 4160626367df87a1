// functions/src/firebaseAdmin.ts: the value normaliser, `mapDoc`, and the
// in-memory stand-ins for the Firestore database and Firebase Auth.

module FirebaseAdmin {
  import opened Json

  /** No Timestamp or Date anywhere inside. */
  predicate IsNormal(v: Value) {
    match v
    case Timestamp(_) => false
    case Date(_) => false
    case Arr(items) => forall i | 0 <= i < |items| :: IsNormal(items[i])
    case Obj(fields) => forall k | k in fields :: IsNormal(fields[k])
    case _ => true
  }

  /** `normalizeFirestoreData`: Timestamps and Dates become their ISO text,
      arrays and objects are rewritten element- and value-wise, and every
      other value (null and undefined included) is returned as it is. */
  function Normalize(v: Value): (r: Value)
    ensures IsNormal(r)
    ensures v.Timestamp? || v.Date? ==> r == Str(v.iso)
    ensures v.Arr? ==> r.Arr? && |r.items| == |v.items|
    ensures v.Obj? ==> r.Obj? && r.fields.Keys == v.fields.Keys
    ensures IsPrimitive(v) || v.ServerTime? ==> r == v
  {
    match v
    case Timestamp(iso) => Str(iso)
    case Date(iso) => Str(iso)
    case Arr(items) => Arr(seq(|items|, i requires 0 <= i < |items| => Normalize(items[i])))
    case Obj(fields) => Obj(map k | k in fields :: Normalize(fields[k]))
    case _ => v
  }

  /** The normalised data of a document (`normalizeFirestoreData(doc.data())`). */
  function NormalizeDoc(d: Doc): (r: Doc)
    ensures r.Keys == d.Keys
    ensures forall k | k in d :: r[k] == Normalize(d[k])
  {
    Normalize(Obj(d)).fields
  }

  /** Reading a field of the normalised data is normalising the field. */
  lemma GetNormalized(d: Doc, k: string)
    ensures Get(NormalizeDoc(d), k) == Normalize(Get(d, k))
  {
  }

  /** `{[key]: id, ...normalizeFirestoreData(data)}`: a data field named
      `key` overrides the document id, because it is spread last. */
  function Identified(key: string, id: string, data: Doc): (r: Value)
    ensures r.Obj? && r.fields.Keys == data.Keys + {key}
    ensures r.fields[key] == if key in data then Normalize(data[key]) else Str(id)
    ensures forall k | k in data :: r.fields[k] == Normalize(data[k])
  {
    Obj(map[key := Str(id)] + NormalizeDoc(data))
  }

  /** `mapDoc(docSnap)` */
  function MapDoc(id: string, data: Doc): (r: Value)
    ensures r.Obj? && r.fields.Keys == data.Keys + {"id"}
    ensures r.fields["id"] == if "id" in data then Normalize(data["id"]) else Str(id)
    ensures forall k | k in data && k != "id" :: r.fields[k] == Normalize(data[k])
  {
    Identified("id", id, data)
  }

  /** An array normalises element by element, keeping length and order. */
  lemma NormalizeArray(items: seq<Value>, i: nat)
    requires i < |items|
    ensures Normalize(Arr(items)).items[i] == Normalize(items[i])
  {
  }

  /** An object normalises value by value under the same keys. */
  lemma NormalizeObject(fields: map<string, Value>, k: string)
    requires k in fields
    ensures k in Normalize(Obj(fields)).fields
    ensures Normalize(Obj(fields)).fields[k] == Normalize(fields[k])
  {
  }

  /** A value with no Timestamp or Date in it is left exactly as it is. */
  lemma {:induction false} NormalizeFixesNormal(v: Value)
    requires IsNormal(v)
    ensures Normalize(v) == v
  {
    match v
    case Arr(items) =>
      forall i | 0 <= i < |items| ensures Normalize(items[i]) == items[i] {
        NormalizeFixesNormal(items[i]);
      }
      assert Normalize(v).items == items;
    case Obj(fields) =>
      forall k | k in fields ensures Normalize(fields[k]) == fields[k] {
        NormalizeFixesNormal(fields[k]);
      }
      assert Normalize(v).fields == fields;
    case _ =>
  }

  /** Normalising twice is normalising once: ISO strings pass through. */
  lemma NormalizeIdempotent(v: Value)
    ensures Normalize(Normalize(v)) == Normalize(v)
  {
    NormalizeFixesNormal(Normalize(v));
  }

  /** A document snapshot from a query: document id and raw data, in the
      order the query returns them. */
  type Snapshot = seq<(string, Doc)>

  /** `b` keeps some of the elements of `a`, in their order. */
  predicate IsSubsequence<T(==)>(b: seq<T>, a: seq<T>)
    decreases |a|
  {
    if b == [] then true
    else if a == [] then false
    else (b[0] == a[0] && IsSubsequence(b[1..], a[1..])) || IsSubsequence(b, a[1..])
  }

  /** `where(field, "==", value)` applied to a snapshot, keeping order. */
  function Where(s: Snapshot, field: string, value: Value): (r: Snapshot)
    ensures |r| <= |s|
    ensures forall p :: p in r <==> p in s && Get(p.1, field) == value
    ensures IsSubsequence(r, s)
  {
    if s == [] then []
    else
      var rest := Where(s[1..], field, value);
      if Get(s[0].1, field) == value then
        assert ([s[0]] + rest)[1..] == rest;
        [s[0]] + rest
      else rest
  }

  /** `snapshot.docs.map(mapDoc)` */
  function MapDocs(s: Snapshot): (r: seq<Value>)
    ensures |r| == |s|
    ensures forall i | 0 <= i < |s| :: r[i] == MapDoc(s[i].0, s[i].1)
  {
    seq(|s|, i requires 0 <= i < |s| => MapDoc(s[i].0, s[i].1))
  }

  /** The mapped list holds exactly the mapped documents of the snapshot. */
  lemma MapDocsMembers(s: Snapshot)
    ensures forall v :: v in MapDocs(s) <==> exists p | p in s :: v == MapDoc(p.0, p.1)
  {
    var r := MapDocs(s);
    forall v | v in r ensures exists p | p in s :: v == MapDoc(p.0, p.1) {
      var i :| 0 <= i < |r| && r[i] == v;
      assert s[i] in s;
    }
    forall p | p in s ensures MapDoc(p.0, p.1) in r {
      var i :| 0 <= i < |s| && s[i] == p;
      assert r[i] == MapDoc(p.0, p.1);
    }
  }

  /** The snapshot is exactly the collection `m`, each document once. */
  ghost predicate Lists(s: Snapshot, m: map<string, Doc>) {
    && (forall i, j | 0 <= i < j < |s| :: s[i].0 != s[j].0)
    && (forall id :: id in m <==> exists i | 0 <= i < |s| :: s[i].0 == id)
    && (forall i | 0 <= i < |s| :: s[i].0 in m && m[s[i].0] == s[i].1)
  }

  /** A sub-collection of the document `parent`, empty when never written. */
  function Sub(m: map<string, map<string, Doc>>, parent: string): map<string, Doc> {
    if parent in m then m[parent] else map[]
  }

  /** The Firestore database: one map per collection, a nested map per
      sub-collection. */
  class Database {
    var users: map<string, Doc>
    var courses: map<string, Doc>
    var chapters: map<string, map<string, Doc>>       // courses/{courseId}/chapters
    var quizzes: map<string, map<string, Doc>>        // courses/{courseId}/quizzes
    var enrollments: map<string, Doc>
    var progress: map<string, Doc>
    var quizResults: map<string, Doc>
    var sessions: map<(string, string), Doc>          // chatHistory/{uid}/sessions/{sessionId}
    var messages: map<(string, string), seq<Doc>>     // .../{sessionId}/messages, in writing order

    constructor ()
      ensures users == map[] && courses == map[] && chapters == map[] && quizzes == map[]
      ensures enrollments == map[] && progress == map[] && quizResults == map[]
      ensures sessions == map[] && messages == map[]
    {
      users, courses, chapters, quizzes := map[], map[], map[], map[];
      enrollments, progress, quizResults := map[], map[], map[];
      sessions, messages := map[], map[];
    }
  }

  /** A Firebase Auth user record with its custom claims. */
  datatype Account = Account(email: Value, displayName: Value, disabled: bool, claims: Doc)

  /** Firebase Auth: the user records by uid. */
  class Accounts {
    var records: map<string, Account>

    constructor ()
      ensures records == map[]
    {
      records := map[];
    }
  }
}
