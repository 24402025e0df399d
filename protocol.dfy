/** The protocol messages handed to handlers and the wire shape of the
    requests and notifications that handlers send. */
module Protocol {

  import opened Wrappers
  import opened JsonValues
  import opened NumberText
  import opened ErrorCodes
  import opened Channels

  /** `JsonIntOrString`: a request or response id. */
  datatype Identifier = IntegerValue(n: int) | StringValue(s: string)

  /** The `error` member of a response. */
  datatype ErrorObject = ErrorObject(code: ErrorCode, message: string, data: Option<Json>)

  /** The payload of a decoded message, by its kind. */
  datatype Payload =
    | Request(jsonrpc: string, id: Identifier, methodName: string, params: Option<Json>)
    | Notification(jsonrpc: string, methodName: string, params: Option<Json>)
    | Response(jsonrpc: string, responseId: Option<Identifier>, result: Option<Json>,
               error: Option<ErrorObject>)

  /** A decoded message and the channel it arrived on (set by the dispatch
      loop; `None` until then). */
  datatype Message = Message(payload: Payload, channel: Option<TestJsonRpcChannel>)

  /** The JSON form of an id: an integer primitive or a string. */
  function IdJson(id: Identifier): Json
  {
    match id
    case IntegerValue(n) => JInteger(n, IntText(n))
    case StringValue(s) => JString(s)
  }

  /** The optional `params` member: absent when there are no parameters. */
  function ParamsMember(params: Option<Json>): seq<(string, Json)>
  {
    match params
    case None => []
    case Some(p) => [("params", p)]
  }

  /** A request as `sendRequest` puts it on the channel. */
  function RequestJson(methodName: string, id: Identifier, params: Option<Json>): (j: Json)
    ensures j.JObject?
  {
    JObject([("jsonrpc", JString("2.0")), ("id", IdJson(id)), ("method", JString(methodName))]
            + ParamsMember(params))
  }

  /** A notification as `sendNotification` puts it on the channel. */
  function NotificationJson(methodName: string, params: Option<Json>): (j: Json)
    ensures j.JObject?
  {
    JObject([("jsonrpc", JString("2.0")), ("method", JString(methodName))] + ParamsMember(params))
  }

  /** The keys of an object's members, in order. */
  function Keys(members: seq<(string, Json)>): seq<string>
  {
    seq(|members|, i requires 0 <= i < |members| => members[i].0)
  }

  /** A sent request carries exactly the keys jsonrpc, id, method and, only
      when there are parameters, params, in that order. */
  lemma RequestKeys(methodName: string, id: Identifier, params: Option<Json>)
    ensures Keys(RequestJson(methodName, id, params).members)
         == ["jsonrpc", "id", "method"] + (if params.Some? then ["params"] else [])
  {
    var ms := RequestJson(methodName, id, params).members;
    assert Keys(ms) == ["jsonrpc", "id", "method"] + (if params.Some? then ["params"] else []);
  }

  /** The jsonrpc, id and method members of a sent request read back as
      what was sent. */
  lemma RequestShape(methodName: string, id: Identifier, params: Option<Json>)
    ensures Lookup(RequestJson(methodName, id, params).members, "jsonrpc") == Some(JString("2.0"))
    ensures Lookup(RequestJson(methodName, id, params).members, "id") == Some(IdJson(id))
    ensures Lookup(RequestJson(methodName, id, params).members, "method") == Some(JString(methodName))
  {
    var ms := RequestJson(methodName, id, params).members;
    assert "method"[0] != "jsonrpc"[0] && "method"[0] != "id"[0];
    assert Lookup(ms, "method") == Lookup(ms[1..], "method") == Lookup(ms[1..][1..], "method");
  }

  /** `params` is present in a sent request exactly when there are
      parameters, and then reads back as them. */
  lemma RequestParams(methodName: string, id: Identifier, params: Option<Json>)
    ensures Lookup(RequestJson(methodName, id, params).members, "params") == params
  {
    var ms := RequestJson(methodName, id, params).members;
    assert "params"[0] != "jsonrpc"[0] && "params"[0] != "id"[0] && "params"[0] != "method"[0];
    assert ms[1..][1..][1..] == ParamsMember(params);
  }


  /** A sent notification carries exactly the keys jsonrpc, method and, only
      when there are parameters, params, in that order. */
  lemma NotificationKeys(methodName: string, params: Option<Json>)
    ensures Keys(NotificationJson(methodName, params).members)
         == ["jsonrpc", "method"] + (if params.Some? then ["params"] else [])
  {
    var ms := NotificationJson(methodName, params).members;
    assert Keys(ms) == ["jsonrpc", "method"] + (if params.Some? then ["params"] else []);
  }

  /** The jsonrpc and method members of a sent notification read back as
      what was sent, and it has no id. */
  lemma NotificationShape(methodName: string, params: Option<Json>)
    ensures Lookup(NotificationJson(methodName, params).members, "jsonrpc") == Some(JString("2.0"))
    ensures Lookup(NotificationJson(methodName, params).members, "method") == Some(JString(methodName))
    ensures Lookup(NotificationJson(methodName, params).members, "id") == None
  {
    var ms := NotificationJson(methodName, params).members;
    assert "method"[0] != "jsonrpc"[0];
    assert "id"[0] != "jsonrpc"[0] && "id"[0] != "method"[0] && "id"[0] != "params"[0];
    assert forall i :: 0 <= i < |ms| ==> ms[i].0 != "id";
  }

  /** `params` is present in a sent notification exactly when there are
      parameters, and then reads back as them. */
  lemma NotificationParams(methodName: string, params: Option<Json>)
    ensures Lookup(NotificationJson(methodName, params).members, "params") == params
  {
    var ms := NotificationJson(methodName, params).members;
    assert "params"[0] != "jsonrpc"[0] && "params"[0] != "method"[0];
    assert ms[1..][1..] == ParamsMember(params);
  }

}
