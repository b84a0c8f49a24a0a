/**
 * The decision logic of the Flask application: the `ensure_valid_token`
 * middleware that runs before every handler, the handlers' checks on the
 * request body, the mapping from a service result to an HTTP status, and the
 * `refresh_token` handler. A handler runs only when the middleware lets the
 * request through.
 */
module App {
  import opened Optional
  import opened Text
  import opened JsonValue
  import opened Upstream
  import opened Fields
  import opened AuthService
  import opened TransporterRequest
  import opened TransporterIdService
  import opened TransporterPdfService
  import opened ConsolidatedService

  const HealthPath := "/api/health"

  /** An HTTP response: the status code and the JSON dictionary sent back. */
  datatype Response = Response(code: int, body: Outcome)

  const AuthUnavailable := Outcome(Error, Literal("Authentication failed. Unable to obtain valid JWT token."), None, [])
  const NoData := Outcome(Error, Literal("No data provided"), None, [])
  const MissingParameters := Outcome(Error, Literal("Missing required parameters: eway_bill_number and gstin"), None, [])
  /** The result of an exception caught by a handler; the exception text is not modelled. */
  const InternalError := Outcome(Error, Raised("Internal server error: "), None, [])

  const TransporterFields: seq<string> := ["user_gstin", "eway_bill_number", "transporter_id", "transporter_name"]

  /** What the middleware decides, the token file after it, and the token exchanges it made. */
  datatype Gate = Gate(rejection: Option<Response>, file: JwtFile, exchanges: nat)

  /**
   * `ensure_valid_token`: the health path passes untouched. Any other path
   * loads the token; a truthy one lets the request through, otherwise one more
   * exchange is made, and only when that also yields nothing is the request
   * answered with 503.
   */
  function EnsureValidToken(path: string, f: JwtFile, now: int, identity: string, load: Attempt, refresh: Attempt)
    : (g: Gate)
    ensures path == HealthPath ==> g == Gate(None, f, 0)
    ensures path != HealthPath && IsToken(Load(f, now, identity, load).token) ==>
              var l := Load(f, now, identity, load);
              g == Gate(None, l.file, l.exchanges)
    ensures path != HealthPath && !IsToken(Load(f, now, identity, load).token) ==>
              var l := Load(f, now, identity, load);
              var r := Fetch(l.file, now, identity, refresh);
              && g.file == r.file && g.exchanges == l.exchanges + 1
              && (g.rejection.Some? <==> !IsToken(r.token))
    ensures g.rejection.Some? ==> g.rejection.value == Response(503, AuthUnavailable)
    ensures g.exchanges <= 2
  {
    if path == HealthPath then Gate(None, f, 0)
    else
      var l := Load(f, now, identity, load);
      if IsToken(l.token) then Gate(None, l.file, l.exchanges)
      else
        var r := Fetch(l.file, now, identity, refresh);
        Gate(if IsToken(r.token) then None else Some(Response(503, AuthUnavailable)), r.file, l.exchanges + 1)
  }

  /**
   * A file holding an unexpired record with a non-empty token lets every
   * request through with no exchange and the file untouched.
   */
  lemma CachedTokenPasses(path: string, f: JwtFile, now: int, identity: string, load: Attempt, refresh: Attempt)
    requires f.Stored? && !IsTokenExpired(f.rec, now) && IsToken(f.rec.token)
    ensures EnsureValidToken(path, f, now, identity, load, refresh) == Gate(None, f, 0)
  {
  }

  /**
   * An unexpired record whose token is empty or absent is returned by
   * `load_jwt_token` without an exchange, so the middleware makes exactly one:
   * the refreshing `get_jwt_token`.
   */
  lemma StoredEmptyTokenRefreshesOnce(path: string, f: JwtFile, now: int, identity: string, load: Attempt,
                                      refresh: Attempt)
    requires path != HealthPath
    requires f.Stored? && !IsTokenExpired(f.rec, now) && !IsToken(f.rec.token)
    ensures var g := EnsureValidToken(path, f, now, identity, load, refresh);
            g.exchanges == 1 && (g.rejection.None? <==> IsToken(Fetch(f, now, identity, refresh).token))
  {
  }

  /**
   * The HTTP status a handler answers with for a service result: 200 for
   * "success", otherwise the result's "status_code", or 500 when it has none.
   */
  function HttpStatusFor(o: Outcome): (code: int)
    ensures o.status == Success ==> code == 200
    ensures o.status != Success ==> code == o.statusCode.GetOr(500)
  {
    if o.status == Success then 200 else o.statusCode.GetOr(500)
  }

  /** For a result whose "success" goes with 200 and only with 200, the HTTP status is its "status_code". */
  lemma StatusCodeIsHttpStatus(o: Outcome)
    requires SuccessIff200(o) && o.statusCode.Some?
    ensures HttpStatusFor(o) == o.statusCode.value
  {
  }

  /** `request.get_json()`: a decoded body, or the exception Flask raises for a body that is not JSON. */
  datatype RequestBody = Unparseable | Parsed(value: Json)

  /**
   * The required names for which `field in data` holds, on a decoded body: keys
   * of an object, text elements of a list, substrings of a text. None when `in`
   * raises, as it does on a number or a boolean.
   */
  function PresentFields(required: seq<string>, data: Json): (r: Option<set<string>>)
    ensures r.Some? <==> data.JObject? || data.JArray? || data.JStr?
    ensures r.Some? ==> r.value <= set f | f in required
    ensures data.JObject? ==> forall f :: f in required ==> (f in r.value <==> Get(data.members, f).Some?)
  {
    match data
    case JObject(members) => Some(set f | f in required && Get(members, f).Some?)
    case JArray(items) => Some(set f | f in required && JStr(f) in items)
    case JStr(s) => Some(set f | f in required && Contains(s, f))
    case _ => None
  }

  function MissingResponse(missing: seq<string>): Response
  {
    Response(400, Outcome(Error, Literal(MissingFieldsMessage(missing)), None, []))
  }

  /** The checks both transporter handlers make on the body before calling their service. */
  datatype Admission = Rejected(response: Response) | Admitted(args: TransporterArgs)

  /** `data.get(name)`: the member's value, or null when absent. */
  function Arg(members: seq<Member>, name: string): Json
  {
    Get(members, name).GetOr(JNull)
  }

  /**
   * The body is admitted exactly when it is an object holding all four
   * transporter fields, and the service then gets their values. A non-empty
   * object missing fields is rejected with 400 naming them in the order of the
   * required list, an empty body with 400, and a body that is not JSON with
   * 500; every rejection is 400 or 500.
   */
  function AdmitTransporter(body: RequestBody): (a: Admission)
    ensures a.Admitted? <==>
              body.Parsed? && body.value.JObject? &&
              forall f :: f in TransporterFields ==> Get(body.value.members, f).Some?
    ensures a.Admitted? ==>
              var ms := body.value.members;
              a.args == TransporterArgs(Arg(ms, "user_gstin"), Arg(ms, "eway_bill_number"),
                                        Arg(ms, "transporter_id"), Arg(ms, "transporter_name"))
    ensures a.Rejected? ==> a.response.code == 400 || a.response.code == 500
    ensures body.Parsed? && Truthy(body.value) && body.value.JObject? &&
            MissingFields(TransporterFields, PresentFields(TransporterFields, body.value).value) != [] ==>
              a == Rejected(MissingResponse(MissingFields(TransporterFields, PresentFields(TransporterFields, body.value).value)))
    ensures body.Unparseable? ==> a == Rejected(Response(500, InternalError))
    ensures body.Parsed? && !Truthy(body.value) ==> a == Rejected(Response(400, NoData))
  {
    match body
    case Unparseable => Rejected(Response(500, InternalError))
    case Parsed(data) =>
      if !Truthy(data) then
        assert data.JObject? ==> Get(data.members, TransporterFields[0]).None?;
        Rejected(Response(400, NoData))
      else match PresentFields(TransporterFields, data)
        case None => Rejected(Response(500, InternalError))
        case Some(present) =>
          var missing := MissingFields(TransporterFields, present);
          if missing != [] then
            assert missing[0] in missing;
            Rejected(MissingResponse(missing))
          else if !data.JObject? then Rejected(Response(500, InternalError))
          else
            var ms := data.members;
            Admitted(TransporterArgs(Arg(ms, "user_gstin"), Arg(ms, "eway_bill_number"),
                                     Arg(ms, "transporter_id"), Arg(ms, "transporter_name")))
  }

  /** A handler's response and whether it called its service. */
  datatype Handled = Handled(response: Response, served: bool)

  /**
   * A transporter handler's response, whether it called its service, the
   * token file and token exchanges after it, and the requests sent upstream.
   */
  datatype TransporterHandled = TransporterHandled(response: Response, served: bool, file: JwtFile, exchanges: nat,
                                                   sent: seq<Request>)

  /**
   * `/api/transporter-update` with `jwt_token.json` holding `f` and the
   * endpoint's reply: the service is called exactly when the body is admitted,
   * and then the HTTP status is the service's "status_code", and the file,
   * exchanges and requests are the service's; a rejected body touches nothing.
   */
  function TransporterUpdate(body: RequestBody, f: JwtFile, now: int, identity: string, a: Attempt,
                             reply: HttpReply): (h: TransporterHandled)
    ensures h.served <==> AdmitTransporter(body).Admitted?
    ensures !h.served ==> h.response == AdmitTransporter(body).response && h.file == f && h.exchanges == 0 && h.sent == []
    ensures h.served ==>
              var c := UpdateTransporterId(f, now, identity, a, AdmitTransporter(body).args, reply);
              h == TransporterHandled(Response(c.outcome.statusCode.value, c.outcome), true, c.file, c.exchanges, c.sent)
  {
    match AdmitTransporter(body)
    case Rejected(response) => TransporterHandled(response, false, f, 0, [])
    case Admitted(args) =>
      var c := UpdateTransporterId(f, now, identity, a, args, reply);
      StatusCodeIsHttpStatus(c.outcome);
      TransporterHandled(Response(HttpStatusFor(c.outcome), c.outcome), true, c.file, c.exchanges, c.sent)
  }

  /**
   * `/api/transporter-update-with-pdf`: the same checks, and when the service
   * is called the HTTP status is its "status_code", a partial success included.
   */
  function TransporterUpdateWithPdf(body: RequestBody, f: JwtFile, now: int, identity: string, a: Attempt,
                                    first: HttpReply, second: HttpReply, snapshotOk: bool): (h: TransporterHandled)
    ensures h.served <==> AdmitTransporter(body).Admitted?
    ensures !h.served ==> h.response == AdmitTransporter(body).response && h.file == f && h.exchanges == 0 && h.sent == []
    ensures h.served ==>
              var c := UpdateAndGetPdf(f, now, identity, a, AdmitTransporter(body).args, first, second, snapshotOk);
              h == TransporterHandled(Response(c.outcome.statusCode.value, c.outcome), true, c.file, c.exchanges, c.sent)
  {
    match AdmitTransporter(body)
    case Rejected(response) => TransporterHandled(response, false, f, 0, [])
    case Admitted(args) =>
      var c := UpdateAndGetPdf(f, now, identity, a, args, first, second, snapshotOk);
      StatusCodeIsHttpStatus(c.outcome);
      TransporterHandled(Response(HttpStatusFor(c.outcome), c.outcome), true, c.file, c.exchanges, c.sent)
  }

  /** A query parameter that is present and not empty. */
  predicate Given(p: Option<string>)
  {
    p.Some? && p.value != ""
  }

  /**
   * `/api/ewaybill` with the result `get_ewaybill_details` would give: both
   * query parameters are needed, and without either the answer is 400 and
   * the service is not called.
   */
  function GetEwaybill(ewayBillNumber: Option<string>, gstin: Option<string>, result: Outcome): (h: Handled)
    ensures h.served <==> Given(ewayBillNumber) && Given(gstin)
    ensures !h.served ==> h.response == Response(400, MissingParameters)
    ensures h.served ==> h.response == Response(HttpStatusFor(result), result)
  {
    if !Given(ewayBillNumber) || !Given(gstin) then Handled(Response(400, MissingParameters), false)
    else Handled(Response(HttpStatusFor(result), result), true)
  }

  /** A decoded object as the dictionary Python builds from it (keys are taken to be distinct). */
  function ToMap(members: seq<Member>): (m: map<string, Json>)
    ensures forall k :: k in m <==> Get(members, k).Some?
    ensures forall k :: k in m ==> m[k] == Get(members, k).value
  {
    if members == [] then map[]
    else ToMap(members[1..])[members[0].key := members[0].value]
  }

  /** The consolidated handler's response, the token file after it, and what it posted. */
  datatype ConsolidatedHandled = ConsolidatedHandled(response: Response, file: JwtFile, exchanges: nat,
                                                     sent: seq<ConsolidatedRequest>)

  /**
   * `/api/consolidated-ewaybill`: an object body goes to the service, and the
   * answer is 200 for its success and otherwise its "status_code" or 500. The
   * service's missing-field error carries no status code, so it is answered
   * with 500, not 400. A list or text body fails inside the service with 500.
   */
  function ConsolidatedEndpoint(body: RequestBody, f: JwtFile, now: int, identity: string, a: Attempt,
                                reply: HttpReply, snapshotOk: bool): (h: ConsolidatedHandled)
    ensures body.Parsed? && body.value.JObject? && Truthy(body.value) ==>
              var r := Consolidated(ToMap(body.value.members), f, now, identity, a, reply, snapshotOk);
              && h == ConsolidatedHandled(Response(HttpStatusFor(r.outcome), r.outcome), r.file, r.exchanges, r.sent)
    ensures !(body.Parsed? && body.value.JObject? && Truthy(body.value)) ==>
              h.file == f && h.exchanges == 0 && h.sent == [] && h.response.code != 200
    ensures h.response.code == 200 <==> h.response.body.status == Success
    ensures h.response.code == 200 ==> |h.sent| == 1
  {
    match body
    case Unparseable => ConsolidatedHandled(Response(500, InternalError), f, 0, [])
    case Parsed(data) =>
      if !Truthy(data) then ConsolidatedHandled(Response(400, NoData), f, 0, [])
      else if data.JObject? then
        var r := Consolidated(ToMap(data.members), f, now, identity, a, reply, snapshotOk);
        ConsolidatedHandled(Response(HttpStatusFor(r.outcome), r.outcome), r.file, r.exchanges, r.sent)
      else match PresentFields(RequiredFields, data)
        case None => ConsolidatedHandled(Response(500, InternalError), f, 0, [])
        case Some(present) =>
          var missing := MissingFields(RequiredFields, present);
          if missing != [] then
            ConsolidatedHandled(Response(500, Outcome(Error, Literal(MissingFieldsMessage(missing)), None, [])), f, 0, [])
          else ConsolidatedHandled(Response(500, InternalError), f, 0, [])
  }

  /**
   * An object body lacking a required consolidation field is answered with
   * 500 and the list of missing fields, before any token lookup or post.
   */
  lemma ConsolidatedMissingFieldsIs500(members: seq<Member>, f: JwtFile, now: int, identity: string, a: Attempt,
                                       reply: HttpReply, snapshotOk: bool)
    requires members != []
    requires exists i :: 0 <= i < |RequiredFields| && Get(members, RequiredFields[i]).None?
    ensures var h := ConsolidatedEndpoint(Parsed(JObject(members)), f, now, identity, a, reply, snapshotOk);
            && h.response.code == 500 && h.file == f && h.exchanges == 0 && h.sent == []
            && h.response.body.message == Literal(MissingFieldsMessage(MissingFields(RequiredFields, ToMap(members).Keys)))
  {
    var i :| 0 <= i < |RequiredFields| && Get(members, RequiredFields[i]).None?;
    var m := ToMap(members);
    var missing := MissingFields(RequiredFields, m.Keys);
    assert RequiredFields[i] !in m.Keys;
    assert RequiredFields[i] in missing;
    var r := Consolidated(m, f, now, identity, a, reply, snapshotOk);
    assert r == Run(Outcome(Error, Literal(MissingFieldsMessage(missing)), None, []), [], f, 0);
    assert Truthy(JObject(members));
  }

  /** The refresh handler's response and the token file after it. */
  datatype Refreshed = Refreshed(response: Response, file: JwtFile)

  /**
   * `/api/refresh-token`: one exchange; 200 with the token exactly when
   * `get_jwt_token` yields a non-empty one, 500 otherwise.
   */
  function RefreshToken(f: JwtFile, now: int, identity: string, a: Attempt): (r: Refreshed)
    ensures var s := Fetch(f, now, identity, a);
            && r.file == s.file
            && (r.response.code == 200 <==> IsToken(s.token))
            && (r.response.code != 200 ==> r.response.code == 500 && r.response.body.status == Error)
            && (r.response.code == 200 ==> r.response.body.status == Success &&
                                           Get(r.response.body.details, "token") == Some(JStr(s.token.value)))
  {
    var s := Fetch(f, now, identity, a);
    if IsToken(s.token) then
      Refreshed(Response(200, Outcome(Success, Literal("JWT token refreshed successfully"), None,
                                      [Member("token", JStr(s.token.value))])), s.file)
    else Refreshed(Response(500, Outcome(Error, Literal("Failed to refresh JWT token"), None, [])), s.file)
  }

  /**
   * A token handed out by `/api/refresh-token` at `t0` lets every request
   * through the middleware, with no exchange, for the next 23 hours.
   */
  lemma RefreshedTokenPasses(f: JwtFile, t0: int, identity: string, a: Attempt, path: string, later: int,
                             load: Attempt, refresh: Attempt)
    requires RefreshToken(f, t0, identity, a).response.code == 200
    requires t0 <= later <= t0 + TokenLifetime
    ensures var file := RefreshToken(f, t0, identity, a).file;
            EnsureValidToken(path, file, later, identity, load, refresh) == Gate(None, file, 0)
  {
    var file := RefreshToken(f, t0, identity, a).file;
    CachedTokenPasses(path, file, later, identity, load, refresh);
  }
}
