/** Values held in a cached record, the error taxonomy and the result type
    that every asynchronous store operation resolves to. */
module Values {

  /** An attribute value of a record. A key that is absent from a record map
      plays the part of JavaScript's `undefined`. Nested maps (such as a
      request's `material_type`) are opaque atoms. `UnixOf(v)` is the value
      `moment(v).unix()` yields for an input outside the date-time shape
      this model parses. */
  datatype Value =
    | Str(s: string)
    | Num(n: int)
    | Bool(b: bool)
    | Null
    | List(items: seq<Value>)
    | Opaque(tag: nat)
    | UnixOf(source: Value)

  /** A record as held in memory and as handed to the store: attribute name to value. */
  type Record = map<string, Value>

  /** JavaScript truthiness of a value (NaN is not modelled). */
  predicate Truthy(v: Value) {
    match v
    case Str(s) => s != ""
    case Num(n) => n != 0
    case Bool(b) => b
    case Null => false
    case List(_) => true
    case Opaque(_) => true
    case UnixOf(_) => true
  }

  /** Truthiness of `record[field]`, where a missing key is `undefined`. */
  predicate FieldSet(record: Record, field: string) {
    field in record && Truthy(record[field])
  }

  /** Why an operation was rejected: the store's own error, passed through
      unchanged, or the layer's `CacheError`. */
  datatype Failure = StoreFailure(message: string) | CacheError(message: string)

  /** What a promise settles to. */
  datatype Result<+T> = Ok(value: T) | Err(error: Failure)

  datatype Option<+T> = None | Some(value: T)

  /** ASCII lower-casing of one character. */
  function LowerChar(c: char): (r: char)
    ensures 'A' <= c <= 'Z' ==> 'a' <= r <= 'z' && r as int - c as int == 32
    ensures !('A' <= c <= 'Z') ==> r == c
  {
    if 'A' <= c <= 'Z' then (c as int + 32) as char else c
  }

  /** The `lowercase: true` attribute option: every upper-case letter becomes
      its lower-case letter, everything else is kept. */
  function Lower(s: string): (r: string)
    ensures |r| == |s|
    ensures forall i :: 0 <= i < |s| ==> r[i] == LowerChar(s[i])
  {
    seq(|s|, i requires 0 <= i < |s| => LowerChar(s[i]))
  }

  predicate IsLowerCase(s: string) {
    forall i :: 0 <= i < |s| ==> !('A' <= s[i] <= 'Z')
  }

  /** Lower-casing leaves no upper-case letter and is idempotent. */
  lemma LowerIsCanonical(s: string)
    ensures IsLowerCase(Lower(s))
    ensures Lower(Lower(s)) == Lower(s)
  {
  }
}
