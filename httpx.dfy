/**
 * The uniform response envelope `{code, message, data}` and the helper that
 * writes it.  The code and message come from the error taxonomy; `data` is
 * passed through untouched.
 */
module Httpx {
  import opened Wrappers
  import opened Errors
  import opened Gin
  import Http

  /** `Response`: the envelope every business reply is wrapped in. */
  datatype Response = Response(code: int, message: string, data: Json)

  /** `newResponse(data, e)` */
  function NewResponse(data: Json, e: Error): (r: Response)
    ensures r.data == data
    ensures e.NoError? ==> r.code == 0 && r.message == ""
    ensures e.App? ==> r.code == e.code && r.message == e.msg
    ensures e.Other? ==> r.code == CodeUnknown && r.message == "未知错误"
  {
    Response(Code(e), Msg(e), data)
  }

  /** The JSON object `encoding/json` makes of a `Response`: fields in declaration order, under their tags. */
  function Encode(r: Response): Json {
    JObject([("code", JNumber(r.code)), ("message", JString(r.message)), ("data", r.data)])
  }

  /** The value of the first member named `key` of a JSON object. */
  function Member(members: seq<(string, Json)>, key: string): Option<Json> {
    if members == [] then None
    else if members[0].0 == key then Some(members[0].1)
    else Member(members[1..], key)
  }

  /** What a client reads back out of an envelope body. */
  function Decode(j: Json): Option<Response> {
    match j
    case JObject(ms) =>
      (match (Member(ms, "code"), Member(ms, "message"), Member(ms, "data"))
       case (Some(JNumber(c)), Some(JString(m)), Some(d)) => Some(Response(c, m, d))
       case _ => None)
    case _ => None
  }

  /** A client reads back exactly the envelope that was encoded. */
  lemma DecodeEncode(r: Response)
    ensures Decode(Encode(r)) == Some(r)
  {
    var ms := Encode(r).members;
    assert Member(ms, "code") == Some(JNumber(r.code));
    assert ms[1..][0].0 == "message";
    assert Member(ms, "message") == Some(JString(r.message));
    var tail := ms[1..][1..];
    assert tail[0].0 == "data";
    assert Member(tail, "data") == Some(r.data);
    assert Member(ms[1..], "data") == Member(tail, "data");
  }

  /** The envelope's code and message are those the taxonomy assigns to the error. */
  lemma EnvelopeFollowsTaxonomy(data: Json, e: Error)
    ensures NewResponse(data, e).code == Code(e) && NewResponse(data, e).message == Msg(e)
  {
  }

  /** The text of an unrecognised error never reaches the envelope: any two such errors give the same one. */
  lemma UnknownErrorTextHidden(data: Json, text: string, text': string)
    ensures NewResponse(data, Other(text)) == NewResponse(data, Other(text')) == NewResponse(data, ErrUnknown)
  {
  }

  /**
   * `SendResponse(c, data, err)`: without a context nothing happens; otherwise
   * exactly one JSON body, the encoded envelope, is written with status 200,
   * with a JSON Content-Type unless one was already set.
   */
  method SendResponse(c: Context?, data: Json, e: Error)
    modifies c
    ensures c != null ==> c.written == old(c.written) + [JsonReply(Http.StatusOK, Encode(NewResponse(data, e)))]
    ensures c != null ==> c.responseHeader == WithJsonContentType(old(c.responseHeader))
    ensures c != null ==> c.keys == old(c.keys)
    ensures c != null ==> c.aborted == old(c.aborted) && c.nextCalls == old(c.nextCalls)
    ensures c != null ==> c.logs == old(c.logs) && c.handoffs == old(c.handoffs)
  {
    if c == null {
      return;
    }
    var rsp := NewResponse(data, e);
    c.JSON(Http.StatusOK, Encode(rsp));
  }
}
