/**
 * JSON values as Python's `json` module decodes them (floats left out), with
 * the Python operations the services apply to them: truthiness, `dict.get`,
 * `str()` and `repr()`.
 */
module JsonValue {
  import opened Optional
  import opened Text

  /** A decoded JSON value; an object keeps its members in document order, with distinct keys. */
  datatype Json =
    | JNull
    | JBool(b: bool)
    | JInt(i: int)
    | JStr(s: string)
    | JArray(items: seq<Json>)
    | JObject(members: seq<Member>)

  datatype Member = Member(key: string, value: Json)

  const EmptyObject: Json := JObject([])

  /** Python's `bool(v)`: `None`, `False`, `0`, `""`, `[]` and `{}` are falsy. */
  predicate Truthy(v: Json)
  {
    match v
    case JNull => false
    case JBool(b) => b
    case JInt(i) => i != 0
    case JStr(s) => s != ""
    case JArray(items) => items != []
    case JObject(members) => members != []
  }

  /** The value stored under `key`, if there is one. */
  function Get(members: seq<Member>, key: string): (r: Option<Json>)
    ensures r.Some? <==> exists k :: 0 <= k < |members| && members[k].key == key
    ensures r.Some? ==> exists k :: 0 <= k < |members| && members[k] == Member(key, r.value)
  {
    if members == [] then None
    else if members[0].key == key then Some(members[0].value)
    else Get(members[1..], key)
  }

  /**
   * Python's `v.get(key, default)`. It exists only on dicts: `None` stands for
   * the `AttributeError` raised when `v` is not an object.
   */
  function DictGet(v: Json, key: string, default: Json): (r: Option<Json>)
    ensures r.Some? <==> v.JObject?
    ensures v.JObject? && (exists k :: 0 <= k < |v.members| && v.members[k].key == key) ==>
              r == Get(v.members, key)
    ensures v.JObject? && Get(v.members, key).None? ==> r == Some(default)
  {
    if v.JObject? then Some(Get(v.members, key).GetOr(default)) else None
  }

  /**
   * Python's `repr(v)` of the decoded value. Strings are written between
   * single quotes without escaping; Python would escape quotes, backslashes and
   * unprintable characters.
   */
  function Repr(v: Json): string
  {
    match v
    case JNull => "None"
    case JBool(b) => if b then "True" else "False"
    case JInt(i) => IntToString(i)
    case JStr(s) => "'" + s + "'"
    case JArray(items) => "[" + ReprItems(items) + "]"
    case JObject(members) => "{" + ReprMembers(members) + "}"
  }

  function ReprItems(items: seq<Json>): string
  {
    if items == [] then ""
    else Repr(items[0]) + (if |items| == 1 then "" else ", " + ReprItems(items[1..]))
  }

  function ReprMember(m: Member): string
  {
    "'" + m.key + "': " + Repr(m.value)
  }

  function ReprMembers(members: seq<Member>): string
  {
    if members == [] then ""
    else ReprMember(members[0]) + (if |members| == 1 then "" else ", " + ReprMembers(members[1..]))
  }

  /** Python's `str(v)`: a string is itself, anything else is its `repr`. */
  function PyStr(v: Json): string
  {
    if v.JStr? then v.s else Repr(v)
  }

  /** `s` is a key or a string value somewhere inside `v`. */
  predicate Occurs(s: string, v: Json)
  {
    match v
    case JStr(t) => t == s
    case JArray(items) => exists k :: 0 <= k < |items| && Occurs(s, items[k])
    case JObject(members) =>
      exists k :: 0 <= k < |members| && (members[k].key == s || Occurs(s, members[k].value))
    case _ => false
  }

  lemma {:induction false} ItemsInfix(items: seq<Json>, k: nat) returns (pre: string, post: string)
    requires k < |items|
    ensures ReprItems(items) == pre + Repr(items[k]) + post
  {
    if k == 0 {
      pre, post := "", if |items| == 1 then "" else ", " + ReprItems(items[1..]);
    } else {
      var p, q := ItemsInfix(items[1..], k - 1);
      pre, post := Repr(items[0]) + ", " + p, q;
    }
  }

  lemma {:induction false} MembersInfix(members: seq<Member>, k: nat) returns (pre: string, post: string)
    requires k < |members|
    ensures ReprMembers(members) == pre + ReprMember(members[k]) + post
  {
    if k == 0 {
      pre, post := "", if |members| == 1 then "" else ", " + ReprMembers(members[1..]);
    } else {
      var p, q := MembersInfix(members[1..], k - 1);
      pre, post := ReprMember(members[0]) + ", " + p, q;
    }
  }

  /** Every key and string value of `v` appears verbatim in `repr(v)`. */
  lemma {:induction false} ReprInfix(s: string, v: Json) returns (pre: string, post: string)
    requires Occurs(s, v)
    ensures Repr(v) == pre + s + post
    decreases v, 1
  {
    match v
    case JStr(t) =>
      pre, post := "'", "'";
    case JArray(items) =>
      pre, post := ArrayInfix(s, v);
    case JObject(members) =>
      pre, post := ObjectInfix(s, v);
  }

  lemma {:induction false} ArrayInfix(s: string, v: Json) returns (pre: string, post: string)
    requires v.JArray? && Occurs(s, v)
    ensures Repr(v) == pre + s + post
    decreases v, 0
  {
    var items := v.items;
    var k :| 0 <= k < |items| && Occurs(s, items[k]);
    var p, q := ItemsInfix(items, k);
    var p', q' := ReprInfix(s, items[k]);
    pre, post := "[" + p + p', q' + q + "]";
    Regroup("[", p, p', s, q', q, "]");
  }

  lemma {:induction false} ObjectInfix(s: string, v: Json) returns (pre: string, post: string)
    requires v.JObject? && Occurs(s, v)
    ensures Repr(v) == pre + s + post
    decreases v, 0
  {
    var members := v.members;
    var k :| 0 <= k < |members| && (members[k].key == s || Occurs(s, members[k].value));
    var p, q := MembersInfix(members, k);
    var m := members[k];
    assert ReprMember(m) == "'" + m.key + "': " + Repr(m.value);
    if m.key == s {
      assert ReprMember(m) == "'" + s + ("': " + Repr(m.value));
      pre, post := "{" + p + "'", "': " + Repr(m.value) + q + "}";
      Regroup("{", p, "'", s, "': " + Repr(m.value), q, "}");
    } else {
      var p', q' := ReprInfix(s, m.value);
      assert ReprMember(m) == ("'" + m.key + "': " + p') + s + q';
      pre, post := "{" + p + ("'" + m.key + "': " + p'), q' + q + "}";
      Regroup("{", p, "'" + m.key + "': " + p', s, q', q, "}");
    }
  }

  lemma Regroup(a: string, b: string, c: string, s: string, d: string, e: string, f: string)
    ensures a + (b + (c + s + d) + e) + f == (a + b + c) + s + (d + e + f)
  {
  }
}
