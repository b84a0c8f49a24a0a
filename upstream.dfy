/**
 * What the proxy exchanges with the e-way-bill API: the replies of the
 * token-auth endpoint and of the resource endpoints, the request headers, and
 * the result dictionaries the services hand back to the HTTP layer.
 * The HTTP calls themselves are not modelled: their outcomes are inputs.
 */
module Upstream {
  import opened Optional
  import opened JsonValue

  /** Python truthiness of a token that is a string or `None`. */
  predicate IsToken(t: Option<string>)
  {
    t.Some? && t.value != ""
  }

  /** The reply of the token-auth endpoint to one username/password exchange. */
  datatype AuthReply =
    | AuthHttp(status: int, token: Option<string>)  // a JSON object; `token` is its "token" member (absent or null: None)
    | AuthUnparseable(status: int)                  // a body that is not a JSON object
    | AuthNetworkError                              // connection failure, timeout or any other transport error

  /**
   * What one token exchange meets outside the program: the endpoint's reply,
   * and whether writing the token file succeeds.
   */
  datatype Attempt = Attempt(reply: AuthReply, writeOk: bool)

  /** The reply of a resource endpoint: the status, the body text and its JSON decoding (None when it is not JSON). */
  datatype HttpReply =
    | Http(status: int, text: string, json: Option<Json>)
    | Timeout        // requests.exceptions.Timeout
    | RequestError   // any other requests.exceptions.RequestException

  type Headers = map<string, string>

  /** `{"Authorization": f"JWT {token}", "Content-Type": "application/json"}`. */
  function JwtHeaders(token: string): Headers
  {
    map["Authorization" := "JWT " + token, "Content-Type" := "application/json"]
  }

  /**
   * The headers built from a token, or None when the token is falsy: both
   * `get_auth_headers` functions give up exactly then.
   */
  function HeadersFor(token: Option<string>): (h: Option<Headers>)
    ensures h.Some? <==> IsToken(token)
    ensures h.Some? ==> h.value.Keys == {"Authorization", "Content-Type"}
    ensures h.Some? ==> h.value["Authorization"] == "JWT " + token.value
    ensures h.Some? ==> h.value["Content-Type"] == "application/json"
  {
    if IsToken(token) then Some(JwtHeaders(token.value)) else None
  }

  /** The "status" entry of a service result. */
  datatype Status = Success | Error | PartialSuccess

  /** The "message" entry of a service result. */
  datatype Message =
    | Literal(text: string)   // a fixed text, possibly followed by the reply's body text
    | Relayed(value: Json)    // a value taken over from the reply's JSON
    | Raised(prefix: string)  // `prefix` followed by the text of a caught exception (not modelled)

  /**
   * A service result `{"status": …, "message": …, "status_code": …, …}`;
   * `statusCode` is None when the dictionary has no "status_code", and
   * `details` holds its remaining entries.
   */
  datatype Outcome = Outcome(status: Status, message: Message, statusCode: Option<int>, details: seq<Member>)

  /** A result whose status is "success" iff its status code is 200. */
  predicate SuccessIff200(o: Outcome)
  {
    o.status == Success <==> o.statusCode == Some(200)
  }
}
