// functions/src/routes/chatbot.ts: the chat history with its placeholder
// assistant.

module Chatbot {
  import opened Json
  import opened Response
  import opened FirebaseAdmin

  const Placeholder: string :=
    "Terima kasih atas pertanyaan Anda tentang literasi syariah. "
    + "Fitur chatbot AI sedang dalam pengembangan."

  /** A stored chat message. */
  function ChatMessage(role: string, content: Value): (m: Doc)
    ensures m.Keys == {"role", "content", "timestamp"}
    ensures m["role"] == Str(role) && m["content"] == content && m["timestamp"] == ServerTime
  {
    map["role" := Str(role), "content" := content, "timestamp" := ServerTime]
  }

  /** The messages of a session, empty before its first message. */
  function History(messages: map<(string, string), seq<Doc>>, key: (string, string)): seq<Doc> {
    if key in messages then messages[key] else []
  }

  /** `POST /message` for the user `uid` that `verifyToken` attached: saves
      the message and the placeholder answer, in that order, and records the
      message on the session. */
  method PostMessage(db: Database, uid: string, body: Doc) returns (reply: Reply)
    modifies db`messages, db`sessions
    ensures var message, sessionId := Get(body, "message"), Get(body, "sessionId");
      && (!Truthy(message) || !Truthy(sessionId) ==>
            reply == Reply(400, Error("BAD_REQUEST", "message and sessionId are required"))
            && db.messages == old(db.messages) && db.sessions == old(db.sessions))
      && (Truthy(message) && Truthy(sessionId) && !sessionId.Str? ==>
            reply == Reply(500, Error("CHATBOT_FAILED", "Failed to process chatbot message"))
            && db.messages == old(db.messages) && db.sessions == old(db.sessions))
      && (Truthy(message) && sessionId.Str? && sessionId.s != "" ==>
            var key := (uid, sessionId.s);
            var prior := if key in old(db.sessions) then old(db.sessions)[key] else map[];
            && db.messages == old(db.messages)[key := History(old(db.messages), key)
                 + [ChatMessage("user", message), ChatMessage("assistant", Str(Placeholder))]]
            && db.sessions == old(db.sessions)[key := prior["lastMessage" := message]["updatedAt" := ServerTime]]
            && reply == Reply(200, Success(Obj(map["sessionId" := sessionId, "response" := Str(Placeholder)]))))
  {
    var message := Get(body, "message");
    var sessionId := Get(body, "sessionId");
    if !Truthy(message) || !Truthy(sessionId) {
      reply := Reply(400, Error("BAD_REQUEST", "message and sessionId are required"));
      return;
    }
    if !sessionId.Str? {
      // `doc(sessionId)` refuses a path that is not a string.
      reply := Reply(500, Error("CHATBOT_FAILED", "Failed to process chatbot message"));
      return;
    }
    var key := (uid, sessionId.s);
    db.messages := db.messages[key := History(db.messages, key) + [ChatMessage("user", message)]];
    ghost var before := History(old(db.messages), key);
    db.messages := db.messages[key := History(db.messages, key) + [ChatMessage("assistant", Str(Placeholder))]];
    assert before + [ChatMessage("user", message)] + [ChatMessage("assistant", Str(Placeholder))]
        == before + [ChatMessage("user", message), ChatMessage("assistant", Str(Placeholder))];
    var prior := if key in db.sessions then db.sessions[key] else map[];
    assert prior + map["lastMessage" := message, "updatedAt" := ServerTime]
        == prior["lastMessage" := message]["updatedAt" := ServerTime];
    db.sessions := db.sessions[key := prior + map["lastMessage" := message, "updatedAt" := ServerTime]];
    reply := Reply(200, Success(Obj(map["sessionId" := sessionId, "response" := Str(Placeholder)])));
  }

  /** Posting twice to a session keeps both exchanges, oldest first, and
      the session shows the latest message. */
  method PostTwice(db: Database, uid: string, sessionId: string, first: Value, second: Value)
    returns (r1: Reply, r2: Reply)
    requires sessionId != "" && Truthy(first) && Truthy(second)
    modifies db`messages, db`sessions
    ensures r1.status == 200 && r2.status == 200
    ensures History(db.messages, (uid, sessionId)) == History(old(db.messages), (uid, sessionId))
      + [ChatMessage("user", first), ChatMessage("assistant", Str(Placeholder)),
         ChatMessage("user", second), ChatMessage("assistant", Str(Placeholder))]
    ensures (uid, sessionId) in db.sessions
    ensures Get(db.sessions[(uid, sessionId)], "lastMessage") == second
  {
    r1 := PostMessage(db, uid, map["message" := first, "sessionId" := Str(sessionId)]);
    r2 := PostMessage(db, uid, map["message" := second, "sessionId" := Str(sessionId)]);
  }
}
