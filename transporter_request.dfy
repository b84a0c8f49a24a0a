/**
 * What the two transporter-update services share: the request they build
 * from the handler's arguments and the token `load_jwt_token` gives, and the
 * results they give for a missing token, a timeout and an exception.
 */
module TransporterRequest {
  import opened Optional
  import opened Text
  import opened JsonValue
  import opened Upstream
  import opened AuthService

  const TransporterUpdateUrl := "https://prod-api.mastersindia.co/api/v1/transporterIdUpdate/"

  /** The four values the handler takes from the request body. */
  datatype TransporterArgs = TransporterArgs(userGstin: Json, ewayBillNumber: Json, transporterId: Json, transporterName: Json)

  /** The JSON payload sent upstream; the bill number goes out as an integer. */
  datatype Payload = Payload(userGstin: Json, ewayBillNumber: int, transporterId: Json, transporterName: Json)

  datatype Request = Request(url: string, headers: Headers, payload: Payload)

  /**
   * A service's result together with the requests it sent, in order, and the
   * token file and the number of token exchanges its `load_jwt_token` left.
   */
  datatype Call = Call(outcome: Outcome, sent: seq<Request>, file: JwtFile, exchanges: nat)

  /** The result when no token could be loaded. */
  const TokenMissing := Outcome(Error, Literal("Failed to load JWT token"), Some(401), [])
  /** The result of `requests.exceptions.Timeout`. */
  const TimedOut := Outcome(Error, Literal("Request timed out"), Some(408), [])
  /** The result of any other `requests.exceptions.RequestException`, including an undecodable body. */
  const RequestFailed := Outcome(Error, Raised("Request failed: "), Some(500), [])
  /** The result of any other exception. */
  const Unexpected := Outcome(Error, Raised("Unexpected error: "), Some(500), [])

  /**
   * Python's `int(v)` on a decoded JSON value: an integer is itself, a boolean
   * is 1 or 0, a string is parsed; None stands for the exception anything else raises.
   */
  function ToInt(v: Json): (r: Option<int>)
    ensures v.JInt? ==> r == Some(v.i)
    ensures v.JNull? || v.JArray? || v.JObject? ==> r.None?
    ensures v.JStr? && r.Some? ==> Strip(v.s) != ""
  {
    match v
    case JInt(i) => Some(i)
    case JBool(b) => Some(if b then 1 else 0)
    case JStr(s) => ParseInt(s)
    case _ => None
  }

  /** A bill number given as the decimal text of `n` is sent as `n`. */
  lemma DecimalBillNumber(n: int)
    ensures ToInt(JStr(IntToString(n))) == Some(n)
  {
    IntToStringRoundTrip(n);
  }

  /**
   * The request both services send, with the token in the JWT headers and the
   * four arguments in the payload; None when `int()` of the bill number fails.
   */
  function BuildRequest(token: string, args: TransporterArgs): (r: Option<Request>)
    ensures r.Some? <==> ToInt(args.ewayBillNumber).Some?
    ensures r.Some? ==> r.value.url == TransporterUpdateUrl
    ensures r.Some? ==> r.value.headers == JwtHeaders(token)
    ensures r.Some? ==>
              r.value.payload == Payload(args.userGstin, ToInt(args.ewayBillNumber).value, args.transporterId, args.transporterName)
  {
    match ToInt(args.ewayBillNumber)
    case None => None
    case Some(n) =>
      Some(Request(TransporterUpdateUrl, JwtHeaders(token),
                   Payload(args.userGstin, n, args.transporterId, args.transporterName)))
  }

  /** `response_data.get("results", {})` on a decoded body, when that is an object holding an object. */
  function ResultsOf(json: Option<Json>): (r: Option<seq<Member>>)
    ensures r.Some? ==> json.Some? && json.value.JObject?
  {
    if json.None? then None
    else match DictGet(json.value, "results", EmptyObject)
      case Some(JObject(members)) => Some(members)
      case _ => None
  }
}
