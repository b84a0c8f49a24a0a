/**
 * `create_consolidated_ewaybill`: the required-field check, the in-place
 * rewrite of `list_of_eway_bills` from plain bill numbers to
 * `{"eway_bill_number": …}` records, the header lookup through the
 * authentication service and the mapping of the upstream reply. Writing
 * `consolidated_ewaybill_response.json` is an input (`snapshotOk`): a failed
 * write is an exception like any other.
 */
module ConsolidatedService {
  import opened Optional
  import opened Text
  import opened JsonValue
  import opened Upstream
  import opened Fields
  import opened AuthService

  const ConsolidatedUrl := "https://prod-api.mastersindia.co/api/v1/consolidatedEwayBillsGenerate/"
  const BillListKey := "list_of_eway_bills"
  const BillNumberKey := "eway_bill_number"

  const RequiredFields: seq<string> :=
    ["userGstin", "place_of_consignor", "state_of_consignor",
     "vehicle_number", "mode_of_transport", "transporter_document_number",
     "transporter_document_date", "data_source", BillListKey]

  const CreatedMessage := "Consolidated E-Way Bill created successfully"
  const FailedMessage := "Failed to create consolidated e-way bill"
  /** The result when no authentication headers could be had; it carries no status code. */
  const NoAuth := Outcome(Error, Literal("Failed to get authentication token"), None, [])
  /** The result of any exception while posting; it carries no status code. */
  const ServerError := Outcome(Error, Raised("Internal server error: "), None, [])
  /** The error body assumed for a reply with an empty text. */
  const UnknownError := JObject([Member("error", JStr("Unknown error"))])

  /** An entry of the list survives the rewrite: `ewb and str(ewb).strip()`. */
  predicate Kept(x: Json)
  {
    Truthy(x) && Strip(PyStr(x)) != ""
  }

  /** `{"eway_bill_number": str(ewb).strip()}` */
  function BillRecord(x: Json): Json
  {
    JObject([Member(BillNumberKey, JStr(Strip(PyStr(x))))])
  }

  /** A one-member object whose "eway_bill_number" is a non-empty text with no surrounding whitespace. */
  predicate IsBillRecord(v: Json)
  {
    && v.JObject? && |v.members| == 1
    && v.members[0].key == BillNumberKey && v.members[0].value.JStr?
    && var s := v.members[0].value.s;
       s != "" && !IsSpace(s[0]) && !IsSpace(s[|s| - 1])
  }

  /**
   * The rewritten list: one record per kept entry, in order. It is no longer
   * than the original.
   */
  function Normalised(xs: seq<Json>): (ys: seq<Json>)
    ensures |ys| <= |xs|
  {
    if xs == [] then []
    else
      var init := Normalised(xs[..|xs| - 1]);
      var x := xs[|xs| - 1];
      if Kept(x) then init + [BillRecord(x)] else init
  }

  /** `{"eway_bill_number": str(ewb).strip()}` of a kept entry is a bill record. */
  lemma BillRecordOfKept(x: Json)
    requires Kept(x)
    ensures IsBillRecord(BillRecord(x))
  {
  }

  /** Every element of the rewritten list is a bill record. */
  lemma {:induction false} NormalisedRecords(xs: seq<Json>)
    ensures forall k :: 0 <= k < |Normalised(xs)| ==> IsBillRecord(Normalised(xs)[k])
  {
    if xs != [] {
      var init, x := xs[..|xs| - 1], xs[|xs| - 1];
      NormalisedRecords(init);
      if Kept(x) {
        BillRecordOfKept(x);
      }
    }
  }

  lemma {:induction false} NormalisedConcat(a: seq<Json>, b: seq<Json>)
    ensures Normalised(a + b) == Normalised(a) + Normalised(b)
    decreases |b|
  {
    if b == [] {
      assert a + b == a;
    } else {
      assert (a + b)[..|a + b| - 1] == a + b[..|b| - 1];
      NormalisedConcat(a, b[..|b| - 1]);
    }
  }

  /**
   * Order is kept, entry by entry: a kept entry contributes its record between
   * the records of the entries before it and after it; a falsy or blank entry
   * contributes nothing.
   */
  lemma NormalisedSplit(xs: seq<Json>, k: int)
    requires 0 <= k < |xs|
    ensures Normalised(xs) == Normalised(xs[..k]) + Normalised([xs[k]]) + Normalised(xs[k + 1..])
  {
    SplitAt(xs, k);
    NormalisedConcat(xs[..k] + [xs[k]], xs[k + 1..]);
    NormalisedConcat(xs[..k], [xs[k]]);
  }

  lemma SplitAt(xs: seq<Json>, k: int)
    requires 0 <= k < |xs|
    ensures xs == (xs[..k] + [xs[k]]) + xs[k + 1..]
  {
  }

  lemma NormalisedSingle(x: Json)
    ensures Normalised([x]) == if Kept(x) then [BillRecord(x)] else []
  {
    assert [x][..0] == [];
  }

  /** The rewrite applies: the list is a non-empty list whose first entry is a text. */
  predicate NeedsNormalising(v: Json)
  {
    v.JArray? && |v.items| > 0 && v.items[0].JStr?
  }

  /**
   * The request data after the rewrite: the same keys, every entry but
   * `list_of_eway_bills` as it was, and that one rewritten when it needs it.
   */
  function NormaliseFields(m: map<string, Json>): (r: map<string, Json>)
    requires BillListKey in m
    ensures r.Keys == m.Keys
    ensures forall k :: k in m && k != BillListKey ==> r[k] == m[k]
    ensures NeedsNormalising(m[BillListKey]) ==> r[BillListKey] == JArray(Normalised(m[BillListKey].items))
    ensures !NeedsNormalising(m[BillListKey]) ==> r == m
  {
    var v := m[BillListKey];
    if NeedsNormalising(v) then m[BillListKey := JArray(Normalised(v.items))] else m
  }

  /** A rewritten list starts with a record, not a text, so rewriting again changes nothing. */
  lemma NormaliseFieldsIdempotent(m: map<string, Json>)
    requires BillListKey in m
    ensures NormaliseFields(NormaliseFields(m)) == NormaliseFields(m)
  {
    if NeedsNormalising(m[BillListKey]) {
      NormalisedRecords(m[BillListKey].items);
    }
  }

  /** The dictionary `data` the handler passes in and the service rewrites in place. */
  class RequestData {
    var fields: map<string, Json>

    constructor (fields: map<string, Json>)
      ensures this.fields == fields
    {
      this.fields := fields;
    }

    /** The rewrite of `data['list_of_eway_bills']`, entry by entry. */
    method NormaliseBillList()
      requires BillListKey in fields
      modifies this
      ensures fields == NormaliseFields(old(fields))
    {
      var v := fields[BillListKey];
      if v.JArray? && |v.items| > 0 && v.items[0].JStr? {
        var items := v.items;
        var out: seq<Json> := [];
        var i := 0;
        while i < |items|
          invariant 0 <= i <= |items|
          invariant out == Normalised(items[..i])
        {
          var x := items[i];
          if Truthy(x) && Strip(PyStr(x)) != "" {
            out := out + [BillRecord(x)];
          }
          assert items[..i + 1][..i] == items[..i];
          i := i + 1;
        }
        assert items[..|items|] == items;
        fields := fields[BillListKey := JArray(out)];
      }
    }
  }

  /**
   * The result for the reply to the post. HTTP 200 or 201 with a JSON body is
   * a success carrying the body, and the only success; any other status is an
   * error carrying that status code and the body (an empty body counts as
   * `{"error": "Unknown error"}`); an exception, including a non-JSON body
   * where one is decoded and a failed snapshot write, is an error with no
   * status code.
   */
  function ConsolidatedReply(reply: HttpReply, snapshotOk: bool): (o: Outcome)
    ensures o.status != PartialSuccess
    ensures o.status == Success <==>
              reply.Http? && (reply.status == 200 || reply.status == 201) && reply.json.Some? && snapshotOk
    ensures o.status == Success ==> o.statusCode.None? && o.details == [Member("data", reply.json.value)]
    ensures o.statusCode.Some? <==>
              reply.Http? && reply.status != 200 && reply.status != 201 && (reply.text == "" || reply.json.Some?)
    ensures o.statusCode.Some? ==>
              o.statusCode == Some(reply.status) &&
              o.details == [Member("error", if reply.text == "" then UnknownError else reply.json.value)]
  {
    match reply
    case Timeout => ServerError
    case RequestError => ServerError
    case Http(status, text, json) =>
      if status == 200 || status == 201 then
        if json.None? || !snapshotOk then ServerError
        else Outcome(Success, Literal(CreatedMessage), None, [Member("data", json.value)])
      else if text == "" then
        Outcome(Error, Literal(FailedMessage), Some(status), [Member("error", UnknownError)])
      else if json.None? then ServerError
      else Outcome(Error, Literal(FailedMessage), Some(status), [Member("error", json.value)])
  }

  /** The post the service makes: the URL, the JWT headers and the rewritten data. */
  datatype ConsolidatedRequest = ConsolidatedRequest(url: string, headers: Headers, body: map<string, Json>)

  /** The service's result, the requests it sent, the token file after it and the token exchanges it made. */
  datatype Run = Run(outcome: Outcome, sent: seq<ConsolidatedRequest>, file: JwtFile, exchanges: nat)

  /**
   * `create_consolidated_ewaybill(data)` with `jwt_token.json` holding `f`.
   * Missing fields end it before any token lookup; otherwise the headers come
   * from `load_jwt_token`, and without them nothing is posted.
   */
  function Consolidated(fields: map<string, Json>, f: JwtFile, now: int, identity: string, a: Attempt,
                        reply: HttpReply, snapshotOk: bool): (r: Run)
    ensures var missing := MissingFields(RequiredFields, fields.Keys);
            missing != [] ==>
              r == Run(Outcome(Error, Literal(MissingFieldsMessage(missing)), None, []), [], f, 0)
    ensures MissingFields(RequiredFields, fields.Keys) == [] ==>
              var l := Load(f, now, identity, a);
              && r.file == l.file && r.exchanges == l.exchanges
              && (r.sent != [] <==> IsToken(l.token))
              && (r.sent == [] ==> r.outcome == NoAuth)
              && (r.sent != [] ==>
                    r.sent == [ConsolidatedRequest(ConsolidatedUrl, JwtHeaders(l.token.value), NormaliseFields(fields))] &&
                    r.outcome == ConsolidatedReply(reply, snapshotOk))
    ensures r.outcome.status == Success ==> |r.sent| == 1
  {
    var missing := MissingFields(RequiredFields, fields.Keys);
    if missing != [] then Run(Outcome(Error, Literal(MissingFieldsMessage(missing)), None, []), [], f, 0)
    else
      assert RequiredFields[8] == BillListKey;
      var l := Load(f, now, identity, a);
      match HeadersFor(l.token)
      case None => Run(NoAuth, [], l.file, l.exchanges)
      case Some(h) =>
        Run(ConsolidatedReply(reply, snapshotOk), [ConsolidatedRequest(ConsolidatedUrl, h, NormaliseFields(fields))],
            l.file, l.exchanges)
  }

  /** Every bill-list entry the service posts is a record with a stripped, non-empty number. */
  lemma PostedBillsAreRecords(fields: map<string, Json>, f: JwtFile, now: int, identity: string, a: Attempt,
                              reply: HttpReply, snapshotOk: bool)
    requires BillListKey in fields && NeedsNormalising(fields[BillListKey])
    ensures var r := Consolidated(fields, f, now, identity, a, reply, snapshotOk);
            r.sent != [] ==>
              var list := r.sent[0].body[BillListKey];
              list.JArray? && forall k :: 0 <= k < |list.items| ==> IsBillRecord(list.items[k])
  {
    NormalisedRecords(fields[BillListKey].items);
  }

  /** `create_consolidated_ewaybill(data)`, rewriting `data` in place and loading the token from `store`. */
  method CreateConsolidatedEwaybill(data: RequestData, store: JwtTokenStore, now: int, a: Attempt,
                                    reply: HttpReply, snapshotOk: bool)
    returns (o: Outcome, sent: seq<ConsolidatedRequest>)
    modifies data, store
    ensures var r := Consolidated(old(data.fields), old(store.file), now, store.identity, a, reply, snapshotOk);
            o == r.outcome && sent == r.sent && store.file == r.file &&
            store.exchanges == old(store.exchanges) + r.exchanges
    ensures data.fields ==
              if MissingFields(RequiredFields, old(data.fields).Keys) == [] then NormaliseFields(old(data.fields))
              else old(data.fields)
  {
    var missing := MissingFields(RequiredFields, data.fields.Keys);
    if missing != [] {
      return Outcome(Error, Literal(MissingFieldsMessage(missing)), None, []), [];
    }
    assert RequiredFields[8] == BillListKey;
    data.NormaliseBillList();
    var h := store.GetAuthHeaders(now, a);
    if h.None? {
      return NoAuth, [];
    }
    o := ConsolidatedReply(reply, snapshotOk);
    sent := [ConsolidatedRequest(ConsolidatedUrl, h.value, data.fields)];
  }
}
