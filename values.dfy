/**
 * Python values as the asfquart code sees them: the JSON-like payloads stored in
 * the session cookie and returned by the OAuth provider, plus the few string
 * helpers (`in` on strings, `str(int)`) the code relies on.
 */
module Values {

  datatype Option<+T> = None | Some(value: T)

  datatype Result<+T, +E> = Ok(value: T) | Err(error: E)

  /** A Python value that can appear in a session record or a JSON body. */
  datatype Value =
    | Null
    | Bool(b: bool)
    | Int(i: int)
    | Str(s: string)
    | List(items: seq<Value>)
    | Dict(fields: map<string, Value>)

  /** A Python dict with string keys. */
  type Record = map<string, Value>

  /** `d.get(k)` */
  function Get<V>(d: map<string, V>, k: string): Option<V>
  {
    if k in d then Some(d[k]) else None
  }

  /** Truthiness of an optional string (`None` and `""` are falsy). */
  predicate TruthyStr(o: Option<string>) {
    o.Some? && o.value != ""
  }

  /** Truthiness of an optional dict (`None` and `{}` are falsy). */
  predicate TruthyRecord(o: Option<Record>) {
    o.Some? && |o.value| > 0
  }

  /** `d.get(k) is True`: only the boolean `True` itself, not any truthy value. */
  predicate IsTrue(d: Record, k: string) {
    k in d && d[k] == Bool(true)
  }

  /** `sub in s` for Python strings. */
  predicate ContainsAt(s: string, sub: string, i: nat) {
    i + |sub| <= |s| && s[i..i + |sub|] == sub
  }

  predicate Contains(s: string, sub: string) {
    exists i: nat | i <= |s| :: ContainsAt(s, sub, i)
  }

  function DigitChar(d: nat): (c: char)
    requires d < 10
    ensures '0' <= c <= '9'
  {
    "0123456789"[d]
  }

  /** `str(n)` for a non-negative int. */
  function NatToString(n: nat): (s: string)
    ensures |s| > 0
    ensures forall i :: 0 <= i < |s| ==> '0' <= s[i] <= '9'
    decreases n
  {
    if n < 10 then [DigitChar(n)] else NatToString(n / 10) + [DigitChar(n % 10)]
  }

  /** `str(i)` for any Python int. */
  function IntToString(i: int): (s: string)
    ensures |s| > 0
    ensures (s[0] == '-') <==> i < 0
  {
    if i < 0 then "-" + NatToString(-i) else NatToString(i)
  }
}
