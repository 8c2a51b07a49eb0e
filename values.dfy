/** The values JavaScript code passes around in this system: job payloads, job
    options, correlation keys and aggregation results, with the two JavaScript
    conversions the core relies on (truthiness and template-literal rendering). */
module Values {
  import opened Optional
  import opened Decimal

  /** A JSON-like JavaScript value. Numbers are integers; floating point and
      `NaN` are not modelled. */
  datatype Value =
    | Undefined
    | Null
    | Bool(b: bool)
    | Num(n: int)
    | Str(s: string)
    | Arr(items: seq<Value>)
    | Obj(fields: map<string, Value>)

  /** JavaScript truthiness, as used by `if (x)` and `!x`. */
  predicate Truthy(v: Value)
  {
    match v
    case Undefined => false
    case Null => false
    case Bool(b) => b
    case Num(n) => n != 0
    case Str(s) => s != ""
    case Arr(_) => true
    case Obj(_) => true
  }

  /** `${v}`: the text a value becomes inside a template literal, which is how
      keys end up in store key names. */
  function KeyString(v: Value): string
  {
    match v
    case Undefined => "undefined"
    case Null => "null"
    case Bool(b) => if b then "true" else "false"
    case Num(n) => IntToString(n)
    case Str(s) => s
    case Arr(items) =>
      JoinWithCommas(seq(|items|, i requires 0 <= i < |items| =>
        if items[i].Undefined? || items[i].Null? then "" else KeyString(items[i])))
    case Obj(_) => "[object Object]"
  }

  /** `Array.prototype.join(',')` on already rendered elements. */
  function JoinWithCommas(parts: seq<string>): string
  {
    if |parts| == 0 then ""
    else if |parts| == 1 then parts[0]
    else JoinWithCommas(parts[..|parts| - 1]) + "," + parts[|parts| - 1]
  }

  /** Distinct integer keys render to distinct key text, so they name distinct
      store entries. */
  lemma NumKeysDistinct(m: int, n: int)
    requires m != n
    ensures KeyString(Num(m)) != KeyString(Num(n))
  {
    if KeyString(Num(m)) == KeyString(Num(n)) {
      if m >= 0 && n >= 0 {
        NatToStringInjective(m, n);
      } else if m < 0 && n < 0 {
        assert NatToString(-m) == KeyString(Num(m))[1..];
        assert NatToString(-n) == KeyString(Num(n))[1..];
        NatToStringInjective(-m, -n);
      }
    }
  }

  /** Property access `v.name`: a missing property, or a non-object, gives `undefined`. */
  function Get(v: Value, name: string): (r: Value)
    ensures !v.Obj? ==> r == Undefined
  {
    if v.Obj? && name in v.fields then v.fields[name] else Undefined
  }

  /** The own properties object spread (`{...v}`) copies. Spreading strings and
      arrays (which copies index keys) is not modelled: they give no properties. */
  function Spread(v: Value): map<string, Value>
  {
    if v.Obj? then v.fields else map[]
  }

  /** The JSON text codec used on stream entry fields. It is an abstract pair of
      functions; `decode` returns None where `JSON.parse` throws. */
  datatype Codec = Codec(encode: Value -> string, decode: string -> Option<Value>)

  /** Decoding an encoded value gives the value back. */
  ghost predicate Lossless(c: Codec)
  {
    forall v :: c.decode(c.encode(v)) == Some(v)
  }

  /** A time-to-live as handed to the store: `expire` counts seconds,
      `pexpire` milliseconds. */
  datatype Expiry = Seconds(amount: int) | Milliseconds(amount: int)
  {
    function InMillis(): int
    {
      match this
      case Seconds(s) => s * 1000
      case Milliseconds(ms) => ms
    }
  }

  /** No element occurs twice. */
  predicate NoDuplicates<T(==)>(s: seq<T>)
  {
    forall i, j :: 0 <= i < j < |s| ==> s[i] != s[j]
  }
}
