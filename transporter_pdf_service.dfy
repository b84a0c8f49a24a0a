/**
 * `update_transporter_and_get_pdf`: the transporter update sent twice with the
 * same URL, headers and payload; the second reply is searched for a mention of
 * a PDF. Writing `transporter_update_with_pdf_result.json` is an input
 * (`snapshotOk`): a failed write is an exception like any other.
 */
module TransporterPdfService {
  import opened Optional
  import opened Text
  import opened JsonValue
  import opened Upstream
  import opened AuthService
  import opened TransporterRequest

  const PdfRetrieved := "Transporter updated and PDF retrieved"
  const NoPdf := "Transporter updated but no PDF in response"
  const PdfFailed := "Transporter updated but PDF retrieval failed"
  const SnapshotNote := "Check transporter_update_with_pdf_result.json for full response"

  /** `"pdf" in str(data).lower() or "base64" in str(data).lower()` */
  predicate MentionsPdf(data: Json)
  {
    Contains(Lower(PyStr(data)), "pdf") || Contains(Lower(PyStr(data)), "base64")
  }

  /**
   * The first reply lets the second call go ahead: HTTP 200, a JSON object
   * whose "results" is an object, and a "code" in it other than 204.
   */
  predicate FirstAccepted(first: HttpReply)
  {
    first.Http? && first.status == 200 && ResultsOf(first.json).Some? &&
    Get(ResultsOf(first.json).value, "code") != Some(JInt(204))
  }

  /**
   * The result of the second reply, given the decoded first body `data1`. A
   * success needs HTTP 200, a body that is an object whose "results" is an
   * object, and the snapshot written; any other status is a partial success.
   */
  function SecondOutcome(data1: Json, second: HttpReply, snapshotOk: bool): (o: Outcome)
    ensures SuccessIff200(o)
    ensures o.status == Success <==>
              second.Http? && second.status == 200 && ResultsOf(second.json).Some? && snapshotOk
    ensures second.Timeout? ==> o == TimedOut
    ensures second.RequestError? ==> o == RequestFailed
    ensures second.Http? && second.status == 200 && second.json.None? ==> o == RequestFailed
    ensures second.Http? && second.status == 200 && second.json.Some? && !(ResultsOf(second.json).Some? && snapshotOk) ==>
              o == Unexpected
    ensures o.status == PartialSuccess <==> second.Http? && second.status != 200
    ensures o.status == PartialSuccess ==>
              o.statusCode == Some(second.status) && Get(o.details, "update_result") == Some(data1)
    ensures o.status == Success ==>
              second.Http? && second.status == 200 && second.json.Some? && snapshotOk &&
              Get(o.details, "update_result") == Some(data1) &&
              (o.message == Literal(PdfRetrieved) <==> MentionsPdf(second.json.value))
  {
    match second
    case Timeout => TimedOut
    case RequestError => RequestFailed
    case Http(status, text, json) =>
      if status != 200 then
        Outcome(PartialSuccess, Literal(PdfFailed), Some(status),
                [Member("update_result", data1), Member("pdf_error", JStr(text))])
      else if json.None? then RequestFailed
      else
        var data2 := json.value;
        match DictGet(data2, "results", EmptyObject)
        case None => Unexpected
        case Some(results2) =>
          if DictGet(results2, "message", EmptyObject).None? then Unexpected
          else if !snapshotOk then Unexpected
          else if MentionsPdf(data2) then
            Outcome(Success, Literal(PdfRetrieved), Some(200),
                    [Member("update_result", data1), Member("pdf_result", data2)])
          else
            Outcome(Success, Literal(NoPdf), Some(200),
                    [Member("update_result", data1), Member("second_call_result", data2),
                     Member("note", JStr(SnapshotNote))])
  }

  /**
   * `update_transporter_and_get_pdf` with `jwt_token.json` holding `f` and the
   * two replies the endpoint would give: the token comes from
   * `load_jwt_token`, whose file and exchanges the call carries. Without a
   * token or an integer bill number nothing is sent; a first reply that is not
   * accepted ends the call after one request; otherwise the same request goes
   * out a second time and the second reply decides. Only then can the result
   * be a success or a partial success.
   */
  function UpdateAndGetPdf(f: JwtFile, now: int, identity: string, a: Attempt, args: TransporterArgs,
                           first: HttpReply, second: HttpReply, snapshotOk: bool): (r: Call)
    ensures r.file == Load(f, now, identity, a).file && r.exchanges == Load(f, now, identity, a).exchanges
    ensures SuccessIff200(r.outcome) && r.outcome.statusCode.Some?
    ensures var token := Load(f, now, identity, a).token;
            !IsToken(token) ==> r.outcome == TokenMissing && r.sent == []
    ensures var token := Load(f, now, identity, a).token;
            IsToken(token) && ToInt(args.ewayBillNumber).None? ==> r.outcome == Unexpected && r.sent == []
    ensures var token := Load(f, now, identity, a).token;
            IsToken(token) && ToInt(args.ewayBillNumber).Some? ==>
              var request := BuildRequest(token.value, args).value;
              r.sent == if FirstAccepted(first) then [request, request] else [request]
    ensures |r.sent| == 1 && first.Timeout? ==> r.outcome == TimedOut
    ensures |r.sent| == 1 && first.RequestError? ==> r.outcome == RequestFailed
    ensures |r.sent| == 1 && first.Http? && first.status != 200 ==>
              r.outcome.statusCode == Some(first.status) &&
              r.outcome.message == Literal("Failed to update transporter: " + first.text)
    ensures |r.sent| == 1 && first.Http? && first.status == 200 && first.json.None? ==> r.outcome == RequestFailed
    ensures |r.sent| == 1 && first.Http? && first.status == 200 && first.json.Some? && ResultsOf(first.json).None? ==>
              r.outcome == Unexpected
    ensures |r.sent| == 1 && FirstAccepted(first) == false && first.Http? && first.status == 200 &&
            ResultsOf(first.json).Some? ==>
              r.outcome.statusCode == Some(204) &&
              r.outcome.message == Relayed(Get(ResultsOf(first.json).value, "message").GetOr(JStr("Update failed")))
    ensures |r.sent| == 2 ==> r.outcome == SecondOutcome(first.json.value, second, snapshotOk)
    ensures r.outcome.status != Error ==> |r.sent| == 2
  {
    var l := Load(f, now, identity, a);
    if !IsToken(l.token) then Call(TokenMissing, [], l.file, l.exchanges)
    else match BuildRequest(l.token.value, args)
      case None => Call(Unexpected, [], l.file, l.exchanges)
      case Some(request) =>
        var one := [request];
        match first
        case Timeout => Call(TimedOut, one, l.file, l.exchanges)
        case RequestError => Call(RequestFailed, one, l.file, l.exchanges)
        case Http(status, text, json) =>
          if status != 200 then
            Call(Outcome(Error, Literal("Failed to update transporter: " + text), Some(status), []), one, l.file, l.exchanges)
          else if json.None? then Call(RequestFailed, one, l.file, l.exchanges)
          else match DictGet(json.value, "results", EmptyObject)
            case None => Call(Unexpected, one, l.file, l.exchanges)
            case Some(results1) =>
              match DictGet(results1, "code", JNull)
              case None => Call(Unexpected, one, l.file, l.exchanges)
              case Some(code) =>
                if code == JInt(204) then
                  Call(Outcome(Error, Relayed(DictGet(results1, "message", JStr("Update failed")).value), Some(204), []),
                       one, l.file, l.exchanges)
                else Call(SecondOutcome(json.value, second, snapshotOk), [request, request], l.file, l.exchanges)
  }

  /**
   * A string inside the second body that mentions "pdf" or "base64", in any
   * letter case, is found by the search over the whole body's text.
   */
  lemma MentionDetected(data: Json, s: string)
    requires Occurs(s, data)
    requires Contains(Lower(s), "pdf") || Contains(Lower(s), "base64")
    ensures MentionsPdf(data)
  {
    var pre, post := "", "";
    if !data.JStr? {
      pre, post := ReprInfix(s, data);
    }
    assert PyStr(data) == pre + s + post;
    LowerConcat(pre + s, post);
    LowerConcat(pre, s);
    if Contains(Lower(s), "pdf") {
      ContainsInfix(Lower(pre), Lower(s), Lower(post), "pdf");
    } else {
      ContainsInfix(Lower(pre), Lower(s), Lower(post), "base64");
    }
  }
}
