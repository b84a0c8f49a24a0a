# E-way-bill proxy: token lifecycle, response classifiers and request checks

A Dafny model of the core of a small HTTP proxy in front of the MastersIndia
e-way-bill API. The model covers three kinds of logic.

- **Token lifecycle.** There are two independent implementations, each modelled as written.
  - `MastersIndiaAuth` keeps a token and its expiry in memory and mirrors them in `auth_token.json`. The file's `expires_at` is written five minutes before the assumed one-hour lifetime ends. The model is a class with those fields.
  - The authentication service keeps only a timestamped `jwt_token.json` and treats a token as expired 23 hours after its timestamp. Its pure parts are `IsTokenExpired`, `Fetch` (`get_jwt_token`) and `Load` (`load_jwt_token`). The class `JwtTokenStore` runs the same steps on a file field and is proved equal to those functions.
  - The application's `ensure_valid_token` middleware combines load and refresh.
- **Upstream-response classifiers.** Both transporter-update services map the upstream reply to a `{status, message, status_code}` result through a fixed decision tree.
- **Request checks.** Covered here:
  - the handlers' required-field checks;
  - the mapping from a service result to an HTTP status;
  - the consolidated-bill service's required fields;
  - the in-place rewrite of `list_of_eway_bills`, a class `RequestData` whose method `NormaliseBillList` has a loop proved against the function `Normalised`;
  - the consolidated-bill service's reply mapping.

Time is whole seconds, passed in as `now`; each operation uses one `now`. The token files are input datatypes: absent, unreadable, or a record. Things outside the program are inputs:
- the reply of every HTTP call;
- whether a file write succeeds (`writeOk`, `snapshotOk`).

The ghost field `exchanges` counts exchanges with the token endpoint, and the `sent` lists record the requests the services send. These state "no exchange on a cache hit" and "no request without a token".

Results follow the code where it differs from its own comments and documentation:
- `MastersIndiaAuth` never looks at its in-memory token before reading the file.
- `load_jwt_token` returns a stored empty or absent token when the record has not expired, without an exchange.
- HTTP 204 from the transporter endpoint has an empty body. Decoding it fails, which gives "Request failed" with 500, not 204.
- A missing field in the consolidated request gives a result without a `status_code`. The handler therefore answers 500, not 400 (`App.ConsolidatedMissingFieldsIs500`).
- A body Flask cannot decode gives 500, because the handlers catch every exception. This is Flask's behaviour from version 2.1 on.

## Model

| member | source | states |
|---|---|---|
| MastersAuth.CachedToken | masters_auth.py:18-38 | the stored token is returned exactly when `now` is strictly before the stored `expires_at`; a record without `expires_at` is expired at any time after 2000-01-01; a missing, unreadable or unparseable file gives nothing |
| MastersAuth.SavedFileFreshFor55Minutes | masters_auth.py:40-50 | a file written with the default 3600-second lifetime at `t0` counts as fresh exactly while `now < t0 + 3300` |
| MastersAuth.Exchanged | masters_auth.py:61-100 | an exchange yields a token exactly on HTTP 200 with a non-empty token; any other status, a missing token, an unparseable body or a network error gives None |
| MastersAuth.ValidToken | masters_auth.py:102-110 | a truthy cached token is used as it is; otherwise the result is the exchange's; an empty token is never returned |
| MastersAuth.MastersIndiaAuth.constructor | masters_auth.py:8-16 | a new instance holds no token and no expiry, with the file as found on disk |
| MastersAuth.MastersIndiaAuth.LoadCachedToken | masters_auth.py:18-38 | on a fresh file both fields take the stored token and expiry; otherwise it returns None and leaves `token` and `token_expires_at` unchanged; it never writes the file |
| MastersAuth.MastersIndiaAuth.SaveTokenToFile | masters_auth.py:40-59 | the file becomes `{token, expires_at = now + expires_in - 300, created_at = now}`; a failed write is swallowed and leaves the file unchanged |
| MastersAuth.MastersIndiaAuth.GetNewToken | masters_auth.py:61-100 | exactly one exchange. On success it returns the token, adopts it with an in-memory expiry of `now + 3600` and saves it with the 3600-second lifetime. On any failure it returns None and changes neither field nor the file |
| MastersAuth.MastersIndiaAuth.GetValidToken | masters_auth.py:102-110 | on a fresh non-empty cached token: that token, no exchange, no write, and the fields set from the file. Otherwise exactly one exchange with `get_new_token`'s effect: on success the token is adopted with expiry `now + 3600` and saved with the 3600-second lifetime when the write succeeds. When nothing is returned, the file is unchanged and the fields hold what `load_cached_token` left |
| MastersAuth.MastersIndiaAuth.GetAuthHeaders | masters_auth.py:112-122 | `Authorization: JWT <token>` and `Content-Type: application/json` for the valid token; None, standing for the raised exception, when there is none; the instance's fields, file and exchanges change exactly as in `get_valid_token` |
| MastersAuth.GetToken | masters_auth.py:131-133 | the result, the exchanges, the file and the fields of the shared instance are exactly as in `get_valid_token` |
| MastersAuth.ForceRefreshToken | masters_auth.py:135-137 | always exactly one exchange, whatever the file holds, with `get_new_token`'s result, adopted fields and saved file; on failure nothing changes |
| MastersAuth.CachedAfterExchange | masters_auth.py:102-110 | after a successful exchange and write at `t0`, `get_valid_token` at any time before `t0 + 3300` returns the same token, and the instance has made exactly one exchange |
| MastersAuth.RefreshedAfterBuffer | masters_auth.py:18-38 | from `t0 + 3300` on the same file no longer counts: `get_valid_token` returns a new exchange's result, the instance's second exchange |
| MastersAuth.ValidTokenTwice | masters_auth.py:102-110 | two `get_valid_token` calls in a row: after a cache miss whose exchange and write succeed, the second call before `t0 + 3300` returns the same token with one exchange in all; after a cache hit with the file still fresh, no exchange at all; never more than two |
| Upstream.HeadersFor | auth_service.py:107-118 | None exactly when the token is falsy; otherwise exactly the two headers, `Authorization` being `"JWT " + token` |
| AuthService.IsTokenExpired | auth_service.py:40-57 | a record is expired unless its timestamp parses and at most 23 hours have passed since it; a missing, empty or unparseable timestamp counts as expired |
| AuthService.ExpiryBoundary | auth_service.py:49-54 | exactly 23 hours after the timestamp the token is still valid, one second later it is expired |
| AuthService.Fetch | auth_service.py:59-105 | one exchange. HTTP 200 with a successful write stores `{token, timestamp = now, username, status: "success"}` and returns the reply's token, even when that is absent. Any other reply, or a failed write, gives None, and a non-200 reply leaves the file alone |
| AuthService.Load | auth_service.py:17-38 | no exchange exactly when the file holds an unexpired record, whose token is then returned as stored; otherwise the result and the file are exactly `get_jwt_token`'s |
| AuthService.FetchThenLoad | auth_service.py:76-95 | a token written at `t0` is loaded back with no exchange and the file unchanged at any time up to `t0 + 23h`; after that loading exchanges again |
| AuthService.JwtTokenStore.constructor | auth_service.py:14 | the store starts from the file as found on disk and with no exchanges |
| AuthService.JwtTokenStore.GetJwtToken | auth_service.py:59-105 | the returned token and the new file are `Fetch`'s, with one exchange |
| AuthService.JwtTokenStore.LoadJwtToken | auth_service.py:17-38 | the returned token, the new file and the number of exchanges are `Load`'s |
| AuthService.JwtTokenStore.GetAuthHeaders | auth_service.py:107-118 | the headers for the token `load_jwt_token` gives, None when it is falsy, with `Load`'s file and exchanges |
| Fields.MissingFields | consolidated_ewaybill_service.py:29 | exactly the required names not present, in the order of the required list |
| Text.Strip | consolidated_ewaybill_service.py:43 | `str.strip()`: an infix of the input that neither starts nor ends with whitespace |
| Text.StripCutsSpaces | consolidated_ewaybill_service.py:43 | `str.strip()` cuts off only whitespace, and gives the empty text exactly for an all-whitespace input |
| Text.ParseInt | transporter_id_service.py:48 | `int(text)` succeeds only on a text that is not blank |
| Text.IntToStringRoundTrip | transporter_id_service.py:48 | `int(str(i)) == i` for every integer |
| Text.Lower | transporter_update_with_pdf_service.py:129 | `lower()`: the same length, each ASCII capital replaced by its small letter, every other character kept |
| Text.ContainsAt | transporter_id_service.py:112 | `p in s` for texts holds exactly when `p` is the slice of `s` at some position |
| TransporterRequest.ToInt | transporter_id_service.py:48 | `int()` of the bill number: an integer is itself; null, a list or an object raise; a text that parses is not blank |
| TransporterRequest.DecimalBillNumber | transporter_id_service.py:48 | a bill number given as decimal text is sent as that integer |
| TransporterRequest.BuildRequest | transporter_id_service.py:39-62 | a request exists exactly when the bill number converts; it goes to the update URL with the JWT headers and the payload `userGstin`, integer `eway_bill_number`, `transporter_id`, `transporter_name` |
| TransporterRequest.ResultsOf | transporter_id_service.py:71 | `response_data.get("results", {})` is defined only on a body that is an object |
| JsonValue.DictGet | transporter_id_service.py:71 | `.get` succeeds exactly on an object, giving the member or the default |
| JsonValue.Get | transporter_id_service.py:72 | the lookup in a decoded object finds a value exactly when some member has the key, and that value belongs to such a member |
| TransporterIdService.ClassifyOk | transporter_id_service.py:67-129 | HTTP 200 results are classified as follows. A body that does not decode gives "Request failed" with 500; a body or "results" that is not an object gives "Unexpected error" with 500. A results code of 204, or a status of "No Content", gives error 204 carrying `results.message` or "Unknown error". Otherwise the result is error 400 exactly when the message is a dict with a truthy "error" (message "Operation failed") or a text containing "Error:" (that text as message), and success 200 with "Transporter ID updated successfully" exactly when it is not |
| TransporterIdService.ClassifyNoContent | transporter_id_service.py:131-141 | HTTP 204 is always an error: 204 carrying the results' message or "Unknown error"; "Request failed" with 500 when the body does not decode, "Unexpected error" with 500 when it or its "results" is not an object |
| TransporterIdService.ClassifyOther | transporter_id_service.py:143-160 | any other status is an error carrying that status unchanged, with the body's message or the fallback text |
| TransporterIdService.Classify | transporter_id_service.py:66-176 | success iff status code 200, and success only on HTTP 200; a timeout gives "Request timed out" with 408, other request errors "Request failed" with 500; HTTP 200, 204 and every other status are classified by `ClassifyOk`, `ClassifyNoContent` and `ClassifyOther` respectively |
| TransporterIdService.UpdateTransporterId | transporter_id_service.py:25-184 | the token file and exchanges are those of `load_jwt_token`. Without a token: error 401 and no request. A bill number that is not an integer: "Unexpected error" with 500 and no request. Otherwise exactly one request, classified as above. In every result success goes with 200 and only with 200 |
| TransporterIdService.DictMessageWithoutErrorSucceeds | transporter_id_service.py:88-109 | a 200 reply whose message is a dict without a truthy "error" is a success |
| TransporterPdfService.SecondOutcome | transporter_update_with_pdf_service.py:102-181 | a timeout gives 408, other request errors 500. A non-200 second reply gives `partial_success` with its status code and the first call's data. Success exactly for HTTP 200 whose body is an object with an object "results" and with the snapshot written; it carries the first call's data, and the message says "PDF retrieved" exactly when the lower-cased text of the body mentions "pdf" or "base64". A 200 body that does not decode gives "Request failed", any other 200 failure "Unexpected error" |
| TransporterPdfService.UpdateAndGetPdf | transporter_update_with_pdf_service.py:26-181 | the token file and exchanges are those of `load_jwt_token`. No token: error 401 and nothing sent; a bill number that is not an integer: "Unexpected error" and nothing sent. Otherwise the second request, identical to the first, is sent exactly when the first reply is 200 with an object "results" whose code is not 204. After one request: a timeout gives 408, other request errors 500, a non-200 reply its own status code, an undecodable 200 body "Request failed", a 200 body without an object "results" "Unexpected error", a results code of 204 error 204. After two, the result is `SecondOutcome`'s. Success iff 200 throughout, and success or partial success only after two calls |
| TransporterPdfService.MentionDetected | transporter_update_with_pdf_service.py:129 | a key or text anywhere in the second body that mentions "pdf" or "base64", in any letter case, is found by the search over the body's text |
| JsonValue.ReprInfix | transporter_update_with_pdf_service.py:129 | every key and text inside a value appears verbatim in `str()` of it |
| ConsolidatedService.Normalised | consolidated_ewaybill_service.py:42-46 | the rewritten list is no longer than the original |
| ConsolidatedService.BillRecordOfKept | consolidated_ewaybill_service.py:43-45 | a kept entry becomes `{"eway_bill_number": s}` with `s` stripped and non-empty |
| ConsolidatedService.NormalisedRecords | consolidated_ewaybill_service.py:42-46 | every element of the rewritten list is such a record |
| ConsolidatedService.NormalisedConcat | consolidated_ewaybill_service.py:42-46 | the rewrite works entry by entry: the rewrite of a concatenation is the concatenation of the rewrites |
| ConsolidatedService.NormalisedSplit | consolidated_ewaybill_service.py:42-46 | order is preserved: each entry contributes its part between those of the entries before and after it |
| ConsolidatedService.NormalisedSingle | consolidated_ewaybill_service.py:43-45 | a falsy or blank entry contributes nothing, a kept one exactly its record |
| ConsolidatedService.NormaliseFields | consolidated_ewaybill_service.py:38-46 | the rewrite runs only on a non-empty list whose first entry is a text; the keys and every other entry are unchanged |
| ConsolidatedService.NormaliseFieldsIdempotent | consolidated_ewaybill_service.py:40 | rewriting an already-rewritten request changes nothing |
| ConsolidatedService.RequestData.constructor | consolidated_ewaybill_service.py:12 | the object holds the caller's dictionary |
| ConsolidatedService.RequestData.NormaliseBillList | consolidated_ewaybill_service.py:36-47 | the loop leaves the dictionary equal to `NormaliseFields` of what it was |
| ConsolidatedService.ConsolidatedReply | consolidated_ewaybill_service.py:57-95 | success exactly for HTTP 200 or 201 with a JSON body and the snapshot written, carrying the body and no status code. A result carries a status code exactly for any other status with an empty or JSON body, and then it is that status, with the body as `error`, or `{"error": "Unknown error"}` for an empty body. Exceptions give an error without a status code |
| ConsolidatedService.Consolidated | consolidated_ewaybill_service.py:12-95 | missing fields give an error naming them, before any token lookup or request. Otherwise the token comes from `load_jwt_token`; without it, an error and nothing posted; with it, exactly one post of the rewritten data under the JWT headers, and the reply's result |
| ConsolidatedService.PostedBillsAreRecords | consolidated_ewaybill_service.py:42-62 | every bill-list entry that is posted is a record with a stripped, non-empty number |
| ConsolidatedService.CreateConsolidatedEwaybill | consolidated_ewaybill_service.py:12-95 | result, requests, token file and exchanges are `Consolidated`'s; the caller's dictionary is rewritten in place only when no field is missing |
| App.EnsureValidToken | app.py:20-39 | the health path loads nothing. A truthy loaded token passes with no further exchange. Otherwise one refresh is made, and the answer is 503 exactly when that also yields nothing. At most two exchanges |
| App.CachedTokenPasses | app.py:31-32 | an unexpired stored non-empty token lets every request through with no exchange and the file untouched |
| App.StoredEmptyTokenRefreshesOnce | app.py:31-39 | an unexpired record with an empty token costs exactly one exchange, the refresh, which decides whether the request passes |
| App.HttpStatusFor | app.py:181-186 | "success" is answered with 200, anything else with its `status_code`, or 500 without one |
| App.StatusCodeIsHttpStatus | app.py:181-186 | when success goes with 200 and only with 200, the HTTP status is the result's `status_code` |
| App.PresentFields | app.py:158-159 | Python's `field in data` on a decoded body; only object, list and text bodies support it |
| App.AdmitTransporter | app.py:147-171 | the service gets the four values exactly when the body is an object holding all four fields. Missing fields in a non-empty object give 400 naming them in the required order; an empty body gives 400 "No data provided"; a body that is not JSON gives 500; every rejection is 400 or 500 |
| App.TransporterUpdate | app.py:135-193 | the service is called exactly when the body is admitted, and then the HTTP status is the service's `status_code` and the token file, exchanges and requests are the service's; a rejected body makes no exchange and no request |
| App.TransporterUpdateWithPdf | app.py:195-257 | the same for the two-call service, partial success included |
| App.GetEwaybill | app.py:41-69 | either query parameter missing or empty gives 400 and no service call; otherwise the result's mapped status |
| App.ToMap | app.py:86 | the dictionary built from a decoded object has exactly its keys and values |
| App.ConsolidatedEndpoint | app.py:78-109 | an object body is answered from the service's result and the result-to-status mapping. Any other body makes no exchange and no post and is not answered with 200. The answer is 200 exactly for a success, and only after one post |
| App.ConsolidatedMissingFieldsIs500 | app.py:95-102 | a consolidated request missing a required field is answered with 500 and the missing-fields message, with no exchange and no post |
| App.RefreshToken | app.py:111-133 | one exchange. The answer is 200 with the token exactly when `get_jwt_token` yields a non-empty one, and 500 with status "error" otherwise |
| App.RefreshedTokenPasses | app.py:111-123 | a token handed out by the refresh handler lets every request through the middleware with no exchange for the next 23 hours |

## Left out

- The HTTP calls, JSON decoding, file reads and writes and the clock are outside the model. Replies, decoded bodies, write outcomes and `now` are inputs.
- Flask routing, CORS, `app.run`, the startup banner and the health handler's body are left out. The middleware's treatment of the health path is modelled.
- main.py, services.py (a background thread with a sleep loop), ewaybill_service.py, ewaybill.py, capture_payload.py and test_transporter_update.py are not part of this model. The e-way-bill handler takes the result of `get_ewaybill_details` as an input.
- All `print` output and the debug snapshot files are left out. Their write failures are kept, as `snapshotOk`, where they change the result.
- Exception texts are left out. `Raised(prefix)` stands for "prefix + str(e)".
- Python's `repr` of nested values is simplified: texts go in single quotes with no escaping, and there are no floats. `lower()` covers only ASCII letters, which is exact for the "pdf"/"base64" test.
- `int()` of a text covers ASCII digits with sign, underscores and surrounding whitespace. Unicode digits and float bill numbers are left out.
- Decoded objects are taken to have distinct keys.
- Token values that are not texts are left out.
- A partly written token file is left out: a failed write leaves the file as it was.
- Each operation uses one `now`, where the code reads the clock more than once.
- AuthService.JwtTokenStore.constructor: the username written into `jwt_token.json` is the parameter `identity`; the configured credentials are not copied.
- A `response.json()` that fails on a 200 or 204 reply is taken to raise `requests.exceptions.JSONDecodeError`, a `RequestException` from requests 2.27 on, giving "Request failed". With older requests it is "Unexpected error"; the status code is 500 either way.
- The handlers are not composed with the `ensure_valid_token` middleware. In the application every request except the health check first passes it, which may add up to two token exchanges and decide the token file each handler then starts from. The exchange counts stated for `App.RefreshToken` and the transporter and consolidated handlers are the handlers' own.
- MastersAuth.MastersIndiaAuth.GetNewToken: the in-memory expiry is stored as the integer `now + 3600`, not as a datetime.
