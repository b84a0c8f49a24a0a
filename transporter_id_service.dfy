/**
 * `update_transporter_id`: one call to the transporter-update endpoint and a
 * decision tree over its reply (the HTTP status, then the "results" object's
 * "code", "status" and "message").
 */
module TransporterIdService {
  import opened Optional
  import opened Text
  import opened JsonValue
  import opened Upstream
  import opened AuthService
  import opened TransporterRequest

  const UpdatedMessage := "Transporter ID updated successfully"

  /** The results object reports "no content": its code is 204 or its status is "No Content". */
  predicate NoContent(results: seq<Member>)
  {
    Get(results, "code") == Some(JInt(204)) || Get(results, "status") == Some(JStr("No Content"))
  }

  /** `results.get("message", {})` */
  function MessageField(results: seq<Member>): Json
  {
    Get(results, "message").GetOr(EmptyObject)
  }

  /**
   * The message field reports a failure: a dict whose "error" is truthy, or a
   * text containing "Error:". Any other value, an absent message included, is success.
   */
  predicate ReportsError(message: Json)
  {
    || (message.JObject? && Truthy(Get(message.members, "error").GetOr(JBool(false))))
    || (message.JStr? && Contains(message.s, "Error:"))
  }

  /** The result of an HTTP 200 reply, by what its "results" object says. */
  function ClassifyOk(json: Option<Json>): (o: Outcome)
    ensures SuccessIff200(o)
    ensures json.None? ==> o == RequestFailed
    ensures json.Some? && ResultsOf(json).None? ==> o == Unexpected
    ensures ResultsOf(json).Some? && NoContent(ResultsOf(json).value) ==>
              o.statusCode == Some(204) &&
              o.message == Relayed(Get(ResultsOf(json).value, "message").GetOr(JStr("Unknown error")))
    ensures ResultsOf(json).Some? && !NoContent(ResultsOf(json).value) ==>
              (o.statusCode == Some(400) <==> ReportsError(MessageField(ResultsOf(json).value)))
    ensures ResultsOf(json).Some? && !NoContent(ResultsOf(json).value) ==>
              (o.status == Success <==> !ReportsError(MessageField(ResultsOf(json).value)))
    ensures ResultsOf(json).Some? && !NoContent(ResultsOf(json).value) &&
            MessageField(ResultsOf(json).value).JObject? && ReportsError(MessageField(ResultsOf(json).value)) ==>
              o.message == Literal("Operation failed")
    ensures ResultsOf(json).Some? && !NoContent(ResultsOf(json).value) &&
            MessageField(ResultsOf(json).value).JStr? && ReportsError(MessageField(ResultsOf(json).value)) ==>
              o.message == Relayed(MessageField(ResultsOf(json).value))
    ensures o.status == Success ==> o.message == Literal(UpdatedMessage)
  {
    if json.None? then RequestFailed
    else match DictGet(json.value, "results", EmptyObject)
      case None => Unexpected
      case Some(results) =>
        if !results.JObject? then Unexpected
        else
          var rs := results.members;
          var code := Get(rs, "code").GetOr(JInt(200));
          var status := Get(rs, "status").GetOr(JStr(""));
          var details := [Member("results", results)];
          if code == JInt(204) || status == JStr("No Content") then
            Outcome(Error, Relayed(Get(rs, "message").GetOr(JStr("Unknown error"))), Some(204), details)
          else
            var message := MessageField(rs);
            if message.JObject? then
              if Truthy(Get(message.members, "error").GetOr(JBool(false))) then
                Outcome(Error, Literal("Operation failed"), Some(400), details)
              else Outcome(Success, Literal(UpdatedMessage), Some(200), details)
            else if message.JStr? && Contains(message.s, "Error:") then
              Outcome(Error, Relayed(message), Some(400), details)
            else Outcome(Success, Literal(UpdatedMessage), Some(200), details)
  }

  /** The result of an HTTP 204 reply: error 204 with the results' message, or 500 when the body cannot be read. */
  function ClassifyNoContent(json: Option<Json>): (o: Outcome)
    ensures o.status == Error
    ensures o.statusCode == Some(204) || o.statusCode == Some(500)
    ensures json.None? ==> o == RequestFailed
    ensures json.Some? && ResultsOf(json).None? ==> o == Unexpected
    ensures ResultsOf(json).Some? ==>
              o.statusCode == Some(204) &&
              o.message == Relayed(Get(ResultsOf(json).value, "message").GetOr(JStr("Unknown error")))
  {
    if json.None? then RequestFailed
    else match DictGet(json.value, "results", EmptyObject)
      case None => Unexpected
      case Some(results) =>
        match DictGet(results, "message", JStr("Unknown error"))
        case None => Unexpected
        case Some(message) => Outcome(Error, Relayed(message), Some(204), [Member("results", results)])
  }

  /** The result of any other HTTP status: always an error carrying that status unchanged. */
  function ClassifyOther(status: int, text: string, json: Option<Json>): (o: Outcome)
    ensures o.status == Error && o.statusCode == Some(status)
    ensures json.Some? && json.value.JObject? ==>
              o.message == Relayed(Get(json.value.members, "message").GetOr(JStr("Failed to update transporter ID")))
    ensures !(json.Some? && json.value.JObject?) ==>
              o.message == Literal("Failed to update transporter ID: " + text)
  {
    if json.Some? && json.value.JObject? then
      var members := json.value.members;
      Outcome(Error, Relayed(Get(members, "message").GetOr(JStr("Failed to update transporter ID"))), Some(status),
              [Member("results", Get(members, "results").GetOr(EmptyObject))])
    else
      Outcome(Error, Literal("Failed to update transporter ID: " + text), Some(status), [])
  }

  /** The result for the reply to the one request. */
  function Classify(reply: HttpReply): (o: Outcome)
    ensures SuccessIff200(o) && o.status != PartialSuccess && o.statusCode.Some?
    ensures o.status == Success ==> reply.Http? && reply.status == 200
    ensures reply.Timeout? ==> o.statusCode == Some(408)
    ensures reply.RequestError? ==> o.statusCode == Some(500)
    ensures reply.Http? && reply.status != 200 && reply.status != 204 ==> o.statusCode == Some(reply.status)
    ensures reply.Http? && reply.status == 204 ==> o.statusCode == Some(204) || o.statusCode == Some(500)
    ensures reply.Timeout? ==> o == TimedOut
    ensures reply.RequestError? ==> o == RequestFailed
    ensures reply.Http? && reply.status == 200 ==> o == ClassifyOk(reply.json)
    ensures reply.Http? && reply.status == 204 ==> o == ClassifyNoContent(reply.json)
    ensures reply.Http? && reply.status != 200 && reply.status != 204 ==>
              o == ClassifyOther(reply.status, reply.text, reply.json)
  {
    match reply
    case Timeout => TimedOut
    case RequestError => RequestFailed
    case Http(status, text, json) =>
      if status == 200 then ClassifyOk(json)
      else if status == 204 then ClassifyNoContent(json)
      else ClassifyOther(status, text, json)
  }

  /**
   * `update_transporter_id` with `jwt_token.json` holding `f`: the token comes
   * from `load_jwt_token`, whose file and exchanges the call carries. Without
   * a token, error 401 and no request; when the bill number is not an integer,
   * error 500 and no request; otherwise exactly one request, and the result is
   * the reply's classification. In every result "success" goes with 200 and
   * only with 200.
   */
  function UpdateTransporterId(f: JwtFile, now: int, identity: string, a: Attempt, args: TransporterArgs,
                               reply: HttpReply): (r: Call)
    ensures r.file == Load(f, now, identity, a).file && r.exchanges == Load(f, now, identity, a).exchanges
    ensures SuccessIff200(r.outcome) && r.outcome.status != PartialSuccess && r.outcome.statusCode.Some?
    ensures var token := Load(f, now, identity, a).token;
            !IsToken(token) ==> r.outcome == TokenMissing && r.sent == []
    ensures var token := Load(f, now, identity, a).token;
            IsToken(token) && ToInt(args.ewayBillNumber).None? ==> r.outcome == Unexpected && r.sent == []
    ensures var token := Load(f, now, identity, a).token;
            IsToken(token) && ToInt(args.ewayBillNumber).Some? ==>
              r.sent == [BuildRequest(token.value, args).value] && r.outcome == Classify(reply)
    ensures r.outcome.status == Success ==> |r.sent| == 1 && reply.Http? && reply.status == 200
  {
    var l := Load(f, now, identity, a);
    if !IsToken(l.token) then Call(TokenMissing, [], l.file, l.exchanges)
    else match BuildRequest(l.token.value, args)
      case None => Call(Unexpected, [], l.file, l.exchanges)
      case Some(request) => Call(Classify(reply), [request], l.file, l.exchanges)
  }

  /** A 200 reply whose message is a dict without a truthy "error", or absent altogether, is a success. */
  lemma DictMessageWithoutErrorSucceeds(results: seq<Member>, text: string)
    requires !NoContent(results)
    requires MessageField(results).JObject? && !Truthy(Get(MessageField(results).members, "error").GetOr(JBool(false)))
    ensures Classify(Http(200, text, Some(JObject([Member("results", JObject(results))])))).status == Success
  {
  }
}
