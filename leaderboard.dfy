// functions/src/routes/leaderboard.ts: the public ranking by points.

module Leaderboard {
  import opened Wrappers
  import opened Json
  import opened Response
  import opened FirebaseAdmin

  /** One ranking entry, from the raw (not normalised) profile data:
      the name falls back to the display name and then to "", points that
      are not a number read as 0. */
  function Entry(id: string, data: Doc): (e: Value)
    ensures e.Obj? && e.fields.Keys == {"uid", "name", "totalPoints"}
    ensures e.fields["uid"] == Str(id)
    ensures Truthy(Get(data, "name")) ==> e.fields["name"] == data["name"]
    ensures !Truthy(Get(data, "name")) && Truthy(Get(data, "displayName"))
            ==> e.fields["name"] == data["displayName"]
    ensures !Truthy(Get(data, "name")) && !Truthy(Get(data, "displayName"))
            ==> e.fields["name"] == Str("")
    ensures IsNumber(e.fields["totalPoints"])
    ensures IsNumber(Get(data, "totalPoints")) ==> e.fields["totalPoints"] == data["totalPoints"]
    ensures !IsNumber(Get(data, "totalPoints")) ==> e.fields["totalPoints"] == Num(0)
  {
    var points := Get(data, "totalPoints");
    Obj(map["uid" := Str(id),
            "name" := Or(Or(Get(data, "name"), Get(data, "displayName")), Str("")),
            "totalPoints" := if IsNumber(points) then points else Num(0)])
  }

  function Entries(s: Snapshot): (r: seq<Value>)
    ensures |r| == |s|
    ensures forall i | 0 <= i < |s| :: r[i] == Entry(s[i].0, s[i].1)
  {
    seq(|s|, i requires 0 <= i < |s| => Entry(s[i].0, s[i].1))
  }

  /** `GET /` over the snapshot of `users.orderBy("totalPoints", "desc")`:
      one entry per document, in the order of the query. */
  function Ranking(s: Snapshot): (reply: Reply)
    ensures reply.status == 200
    ensures Decode(reply.body) == Some(Succeeded(Arr(Entries(s))))
  {
    DecodeInverts(Arr(Entries(s)), "", "");
    Reply(200, Success(Arr(Entries(s))))
  }

  /** What the query yields from the `users` collection: each profile that
      has a `totalPoints` field, once, with numeric points descending. */
  ghost predicate RankedFrom(s: Snapshot, users: map<string, Doc>) {
    && (forall i, j | 0 <= i < j < |s| :: s[i].0 != s[j].0)
    && (forall i | 0 <= i < |s| :: s[i].0 in users && users[s[i].0] == s[i].1)
    && (forall i | 0 <= i < |s| :: "totalPoints" in s[i].1)
    && (forall id | id in users && "totalPoints" in users[id] :: exists i | 0 <= i < |s| :: s[i].0 == id)
    && (forall i, j | 0 <= i < j < |s| && s[i].1["totalPoints"].Num? && s[j].1["totalPoints"].Num? ::
          s[i].1["totalPoints"].n >= s[j].1["totalPoints"].n)
  }

  /** The ranking lists exactly the profiles that have points, each once,
      and keeps the descending order of numeric points. */
  lemma RankingFollowsQuery(s: Snapshot, users: map<string, Doc>)
    requires RankedFrom(s, users)
    ensures var r := Entries(s);
      && (forall id :: (exists i | 0 <= i < |r| :: r[i].fields["uid"] == Str(id))
                       <==> id in users && "totalPoints" in users[id])
      && (forall i, j | 0 <= i < j < |r| && r[i].fields["uid"] == r[j].fields["uid"] :: false)
      && (forall i, j | 0 <= i < j < |r| && Get(s[i].1, "totalPoints").Num? && Get(s[j].1, "totalPoints").Num? ::
            r[i].fields["totalPoints"].n >= r[j].fields["totalPoints"].n)
  {
    var r := Entries(s);
    forall id | id in users && "totalPoints" in users[id]
      ensures exists i | 0 <= i < |r| :: r[i].fields["uid"] == Str(id)
    {
      var i :| 0 <= i < |s| && s[i].0 == id;
      assert r[i].fields["uid"] == Str(id);
    }
  }

  /** A profile whose points are not a number shows 0 points. */
  lemma TextPointsShowZero(id: string)
    ensures Entry(id, map["totalPoints" := Str("12")]).fields["totalPoints"] == Num(0)
  {
  }
}
