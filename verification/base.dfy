/** Shared vocabulary of the model: optional values, results, clock
    arithmetic and the JSON-like payloads the gateway and the webhook carry. */
module Base {

  datatype Option<+T> = None | Some(value: T)

  /** The outcome of an operation that the original raises an exception for. */
  datatype Result<+T, +E> = Ok(value: T) | Err(error: E)

  /** Wall-clock instants are whole seconds since the epoch. */
  type Time = int

  /** Seconds in one `timedelta(days=1)`. */
  const DAY: int := 86400

  /** The length of `timedelta(days=n)` in seconds. */
  function Days(n: int): int
  {
    n * DAY
  }

  /** A JSON value as stored in the JSON columns and exchanged with the gateway. */
  datatype Value =
    | JNull
    | JBool(b: bool)
    | JInt(i: int)
    | JStr(s: string)
    | JObj(fields: map<string, Value>)

  type Json = map<string, Value>

  /** Python truthiness of a dict: it is non-empty. */
  predicate Truthy(j: Json)
  {
    j != map[]
  }

  /** Python truthiness of an optional string: present and non-empty. */
  predicate Given(s: Option<string>)
  {
    s.Some? && s.value != ""
  }

  /** `j.get(key)` where only a string value is of use to the caller. */
  function GetText(j: Json, key: string): (r: Option<string>)
    ensures r.Some? <==> key in j && j[key].JStr?
    ensures r.Some? ==> j[key] == JStr(r.value)
  {
    if key in j && j[key].JStr? then Some(j[key].s) else None
  }

  /** True when `j.get('status') == 'Completed'`. */
  predicate StatusCompleted(j: Json)
  {
    GetText(j, "status") == Some("Completed")
  }

  function Pow2(n: nat): (r: nat)
    ensures r >= 1
  {
    if n == 0 then 1 else 2 * Pow2(n - 1)
  }

  predicate HasPrefix(s: string, prefix: string)
  {
    |prefix| <= |s| && s[..|prefix|] == prefix
  }
}
