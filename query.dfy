/**
  Query parameters as the client builds them: Python values, their
  truthiness, the `{k: v for k, v in kwargs.items() if v}` filter, and the
  request handed to the HTTP transport.
*/
module Query {
  /** A Python value passed as a query parameter; `Null` is Python's None. */
  datatype Value =
    | Str(s: string)
    | Int(i: int)
    | Bool(b: bool)
    | Dict(entries: map<string, Value>)
    | Null

  /** Python truthiness: empty string, 0, False, empty dict and None are falsy. */
  predicate Truthy(v: Value) {
    match v
    case Str(s) => s != ""
    case Int(i) => i != 0
    case Bool(b) => b
    case Dict(entries) => entries != map[]
    case Null => false
  }

  /** One GET request: the full URL and its parameter map. */
  datatype Request = Request(url: string, params: map<string, Value>)

  /** The dict comprehension that keeps the keyword arguments with truthy values. */
  function KeepTruthy(kwargs: map<string, Value>): (r: map<string, Value>)
    ensures forall k :: k in r <==> k in kwargs && Truthy(kwargs[k])
    ensures forall k :: k in r ==> r[k] == kwargs[k]
  {
    map k | k in kwargs && Truthy(kwargs[k]) :: kwargs[k]
  }

  /** Filtering twice keeps the same parameters as filtering once. */
  lemma KeepTruthyIdempotent(kwargs: map<string, Value>)
    ensures KeepTruthy(KeepTruthy(kwargs)) == KeepTruthy(kwargs)
  {
  }

  /** A map with only truthy values passes through the filter unchanged. */
  lemma KeepTruthyOfTruthy(kwargs: map<string, Value>)
    requires forall k :: k in kwargs ==> Truthy(kwargs[k])
    ensures KeepTruthy(kwargs) == kwargs
  {
  }
}
