/** The required-field check the request handlers and the consolidation service share. */
module Fields {
  import opened Text

  /** `a` is `b` with some elements deleted: the elements of `a` occur in `b` in the same order. */
  predicate IsSubsequence<T(==)>(a: seq<T>, b: seq<T>)
    decreases |b|
  {
    || a == []
    || (b != [] && ((a[0] == b[0] && IsSubsequence(a[1..], b[1..])) || IsSubsequence(a, b[1..])))
  }

  /**
   * `[field for field in required if field not in data]`, where `present` holds
   * the names for which `field in data` is true: exactly the required names
   * not present, in the order of `required`.
   */
  function MissingFields(required: seq<string>, present: set<string>): (missing: seq<string>)
    ensures forall f :: f in missing <==> f in required && f !in present
    ensures IsSubsequence(missing, required)
    ensures |missing| <= |required|
  {
    if required == [] then []
    else if required[0] in present then MissingFields(required[1..], present)
    else [required[0]] + MissingFields(required[1..], present)
  }

  /** The error message the handlers and the consolidation service give for missing fields. */
  function MissingFieldsMessage(missing: seq<string>): string
  {
    "Missing required fields: " + Join(", ", missing)
  }
}
