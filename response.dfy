// The response envelope of functions/src/utils/response.ts, and the HTTP
// replies the handlers and middleware produce.

module Response {
  import opened Wrappers
  import opened Json

  /** `success(data)` */
  function Success(data: Value): Value {
    Obj(map["success" := Bool(true), "data" := data])
  }

  /** `error(code, message)` */
  function Error(code: string, message: string): Value {
    Obj(map["success" := Bool(false),
            "error" := Obj(map["code" := Str(code), "message" := Str(message)])])
  }

  /** What a client reads back from an envelope. */
  datatype Envelope = Succeeded(data: Value) | Failed(code: string, message: string)

  /** Reads an envelope by its `success` flag alone. */
  function Decode(body: Value): Option<Envelope> {
    if !body.Obj? then None
    else if Get(body.fields, "success") == Bool(true) then
      Some(Succeeded(Get(body.fields, "data")))
    else if Get(body.fields, "success") == Bool(false) then
      var e := Get(body.fields, "error");
      var code := Field(e, "code");
      var message := Field(e, "message");
      if code.Str? && message.Str? then Some(Failed(code.s, message.s)) else None
    else None
  }

  /** An HTTP reply: status code and JSON body. */
  datatype Reply = Reply(status: nat, body: Value)

  /** What a middleware does: call `next()`, or answer the request itself. */
  datatype Step = Next | Respond(reply: Reply)

  /** `success(d)` has exactly the fields `success` (true) and `data` (d). */
  lemma SuccessShape(d: Value)
    ensures Success(d).Obj? && Success(d).fields.Keys == {"success", "data"}
    ensures Success(d).fields["success"] == Bool(true) && Success(d).fields["data"] == d
  {
  }

  /** `error(c, m)` has exactly `success` (false) and `error`, which holds
      exactly `code` and `message`. */
  lemma ErrorShape(c: string, m: string)
    ensures Error(c, m).Obj? && Error(c, m).fields.Keys == {"success", "error"}
    ensures Error(c, m).fields["success"] == Bool(false)
    ensures Error(c, m).fields["error"].Obj?
    ensures Error(c, m).fields["error"].fields.Keys == {"code", "message"}
    ensures Error(c, m).fields["error"].fields["code"] == Str(c)
    ensures Error(c, m).fields["error"].fields["message"] == Str(m)
  {
  }

  /** Decoding inverts both constructors, so the `success` flag alone tells
      the two kinds apart and nothing is lost. */
  lemma DecodeInverts(d: Value, c: string, m: string)
    ensures Decode(Success(d)) == Some(Succeeded(d))
    ensures Decode(Error(c, m)) == Some(Failed(c, m))
    ensures Success(d) != Error(c, m)
  {
    assert Success(d).fields["success"] != Error(c, m).fields["success"];
  }
}
