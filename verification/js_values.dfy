/**
 * The JavaScript values that a field configuration can hold, with the two
 * pieces of language behaviour the compiler relies on: truthiness (for
 * `value.from || key`) and the conversion of a value to a property key
 * (for `record[from[0]]`).
 */
module JsValues {

  import opened Wrappers

  /** A JSON/YAML-shaped JavaScript value. Numbers are integers here. */
  datatype JsValue =
    | Undefined
    | Null
    | Bool(b: bool)
    | Num(n: int)
    | Str(s: string)
    | Arr(items: seq<JsValue>)
    | Obj(props: map<string, JsValue>)

  /** A CSV row as produced by the row reader: column name to raw text. */
  type Record = map<string, string>

  /** JavaScript truthiness: `undefined`, `null`, `false`, `0` and `""` are falsy. */
  predicate Truthy(v: JsValue) {
    match v
    case Undefined => false
    case Null => false
    case Bool(b) => b
    case Num(n) => n != 0
    case Str(s) => s != []
    case Arr(_) => true
    case Obj(_) => true
  }

  function DigitChar(d: nat): (c: char)
    requires d < 10
    ensures '0' <= c <= '9'
  {
    "0123456789"[d]
  }

  /** Decimal numeral of a natural number, without leading zeros. */
  function NatToDecimal(n: nat): (s: string)
    ensures |s| >= 1
    ensures forall i :: 0 <= i < |s| ==> '0' <= s[i] <= '9'
    ensures |s| > 1 ==> s[0] != '0'
  {
    if n < 10 then [DigitChar(n)] else NatToDecimal(n / 10) + [DigitChar(n % 10)]
  }

  /** Value of a decimal numeral; the inverse of NatToDecimal. */
  function DecimalValue(s: string): nat
    requires forall i :: 0 <= i < |s| ==> '0' <= s[i] <= '9'
  {
    if s == [] then 0
    else 10 * DecimalValue(s[..|s| - 1]) + (s[|s| - 1] as int - '0' as int)
  }

  lemma {:induction false} DecimalRoundTrip(n: nat)
    ensures DecimalValue(NatToDecimal(n)) == n
  {
    if n >= 10 {
      var s := NatToDecimal(n);
      assert s[..|s| - 1] == NatToDecimal(n / 10);
      DecimalRoundTrip(n / 10);
    }
  }

  /** Distinct numbers give distinct numerals, so index keys never collide. */
  lemma NatToDecimalInjective(m: nat, n: nat)
    requires NatToDecimal(m) == NatToDecimal(n)
    ensures m == n
  {
    DecimalRoundTrip(m);
    DecimalRoundTrip(n);
  }

  /** `String(n)` for an integer. */
  function IntToDecimal(n: int): string {
    if n < 0 then "-" + NatToDecimal(-n) else NatToDecimal(n)
  }

  /** `parts.join(",")`. */
  function JoinWithCommas(parts: seq<string>): string {
    if |parts| <= 1 then (if parts == [] then "" else parts[0])
    else JoinWithCommas(parts[..|parts| - 1]) + "," + parts[|parts| - 1]
  }

  /**
   * The property key a value becomes when used as `object[v]`: strings are
   * used as they are, `undefined` becomes "undefined", arrays are joined
   * with commas (holding `null`/`undefined` as empty text), plain objects
   * become "[object Object]".
   */
  function ToKey(v: JsValue): string {
    match v
    case Undefined => "undefined"
    case Null => "null"
    case Bool(b) => if b then "true" else "false"
    case Num(n) => IntToDecimal(n)
    case Str(s) => s
    case Arr(items) =>
      JoinWithCommas(seq(|items|, i requires 0 <= i < |items| =>
        if items[i].Undefined? || items[i].Null? then "" else ToKey(items[i])))
    case Obj(_) => "[object Object]"
  }

  /** `object[key]`, with a missing property read as `undefined`. */
  function Lookup(record: Record, key: string): (v: Option<string>)
    ensures v.Some? <==> key in record
    ensures v.Some? ==> v.value == record[key]
  {
    if key in record then Some(record[key]) else None
  }

  /** A sequence spread into an object: element i under the key `String(i)`. */
  function Indexed(xs: seq<JsValue>): (m: map<string, JsValue>)
    ensures forall i :: 0 <= i < |xs| ==> NatToDecimal(i) in m && m[NatToDecimal(i)] == xs[i]
    ensures forall k :: k in m ==> exists i :: 0 <= i < |xs| && k == NatToDecimal(i)
  {
    if xs == [] then map[]
    else
      var m := Indexed(xs[..|xs| - 1])[NatToDecimal(|xs| - 1) := xs[|xs| - 1]];
      forall i | 0 <= i < |xs| - 1
        ensures m[NatToDecimal(i)] == xs[i]
      {
        if NatToDecimal(i) == NatToDecimal(|xs| - 1) {
          NatToDecimalInjective(i, |xs| - 1);
        }
      }
      m
  }

  /**
   * The own enumerable properties that object spread (`{...v}`) copies out
   * of `v`: an object's properties, a string's characters or an array's
   * elements under their indices, and nothing for any other value.
   */
  function Spread(v: JsValue): map<string, JsValue> {
    match v
    case Obj(props) => props
    case Str(s) => Indexed(seq(|s|, i requires 0 <= i < |s| => Str([s[i]])))
    case Arr(items) => Indexed(items)
    case _ => map[]
  }

  /** A record as a JavaScript object value, each column holding a string. */
  function RecordValue(record: Record): (v: JsValue)
    ensures v.Obj? && v.props.Keys == record.Keys
    ensures forall k :: k in record ==> v.props[k] == Str(record[k])
  {
    Obj(map k | k in record :: Str(record[k]))
  }
}
