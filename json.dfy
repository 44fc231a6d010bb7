/**
  Decoded JSON values as the Python server sees them after `request.get_json()`
  or `response.json()`, and the few pieces of Python's runtime behaviour that the
  dispatcher relies on: truth values, `str()`, `dict.get`, subscripting and the
  text of the exceptions these raise.
 */
module Json {
  import opened Wrappers

  datatype Json =
    | JNull
    | JBool(b: bool)
    | JInt(i: int)
    | JStr(s: string)
    | JArr(items: seq<Json>)
    | JObj(fields: map<string, Json>)

  /** The Python exceptions the tool translator can raise and catch. */
  datatype PyException =
    | KeyError(key: string)
    | TypeError(detail: string)
    | AttributeError(typeName: string, attr: string)
    | RemoteError(detail: string)   // transport failure or undecodable body from the remote endpoint

  /**
    Library output the model does not re-specify: `json.dumps(v, indent=2)` and
    `str(v)` of a list or dict.
   */
  datatype Formatter = Formatter(dumps: Json -> string, repr: Json -> string)

  /** Python's `bool(v)`. */
  predicate Truthy(v: Json) {
    match v
    case JNull => false
    case JBool(b) => b
    case JInt(i) => i != 0
    case JStr(s) => s != []
    case JArr(a) => a != []
    case JObj(m) => m != map[]
  }

  /** `type(v).__name__`. */
  function TypeName(v: Json): string {
    match v
    case JNull => "NoneType"
    case JBool(_) => "bool"
    case JInt(_) => "int"
    case JStr(_) => "str"
    case JArr(_) => "list"
    case JObj(_) => "dict"
  }

  /**
    `str(e)` for a caught exception. For a `KeyError` Python shows `repr(key)`,
    which is the key between single quotes for every key the translator looks up
    with a subscript (`command`, `path`, `content`).
   */
  function Message(e: PyException): (msg: string)
    ensures e.KeyError? ==> msg == "'" + e.key + "'"
  {
    match e
    case KeyError(k) => "'" + k + "'"
    case TypeError(d) => d
    case AttributeError(t, a) => "'" + t + "' object has no attribute '" + a + "'"
    case RemoteError(d) => d
  }

  /** `v[key]` with a string key. */
  function Subscript(v: Json, key: string): (r: Result<Json, PyException>)
    ensures r.Success? <==> v.JObj? && key in v.fields
    ensures r.Success? ==> r.value == v.fields[key]
    ensures v.JObj? && key !in v.fields ==> r == Failure(KeyError(key))
  {
    match v
    case JObj(m) => if key in m then Success(m[key]) else Failure(KeyError(key))
    case JArr(_) => Failure(TypeError("list indices must be integers or slices, not str"))
    case JStr(_) => Failure(TypeError("string indices must be integers, not 'str'"))
    case _ => Failure(TypeError("'" + TypeName(v) + "' object is not subscriptable"))
  }

  /** `m.get(key, default)` on a dict. */
  function Lookup(m: map<string, Json>, key: string, default: Json): Json {
    if key in m then m[key] else default
  }

  /** Python's `str(n)` for an int: optional minus sign, then decimal digits. */
  function IntToString(n: int): (s: string)
    ensures |s| >= 1
    ensures n >= 0 ==> s == NatToString(n)
    ensures n < 0 ==> s == "-" + NatToString(-n)
  {
    if n < 0 then "-" + NatToString(-n) else NatToString(n)
  }

  function DigitChar(d: nat): (c: char)
    requires d < 10
    ensures IsDigit(c) && DigitValue(c) == d
  {
    (('0' as int) + d) as char
  }

  predicate IsDigit(c: char) {
    '0' <= c <= '9'
  }

  function DigitValue(c: char): nat
    requires IsDigit(c)
  {
    (c as int) - ('0' as int)
  }

  /** Decimal digits of `n`, most significant first, with no leading zero. */
  function NatToString(n: nat): (s: string)
    ensures |s| >= 1
    ensures forall i :: 0 <= i < |s| ==> IsDigit(s[i])
    ensures s[0] == '0' <==> n == 0
    decreases n
  {
    if n < 10 then [DigitChar(n)] else NatToString(n / 10) + [DigitChar(n % 10)]
  }

  /** Reads a string of decimal digits back as a number. */
  function ParseDigits(s: string): nat
    requires forall i :: 0 <= i < |s| ==> IsDigit(s[i])
  {
    if s == [] then 0 else ParseDigits(s[..|s| - 1]) * 10 + DigitValue(s[|s| - 1])
  }

  /** The decimal text of a number reads back as that number. */
  lemma {:induction false} ParseNatToString(n: nat)
    ensures ParseDigits(NatToString(n)) == n
    decreases n
  {
    var s := NatToString(n);
    if n >= 10 {
      var prefix := NatToString(n / 10);
      assert s == prefix + [DigitChar(n % 10)];
      assert s[..|s| - 1] == prefix;
      ParseNatToString(n / 10);
    }
  }

  predicate AllDigits(s: string) {
    forall i :: 0 <= i < |s| ==> IsDigit(s[i])
  }

  /** Reads an optionally signed decimal numeral, as Python's `int(s)` does; `None` if it is not one. */
  function ParseInt(s: string): Option<int> {
    if |s| >= 2 && s[0] == '-' && AllDigits(s[1..]) then Some(0 - ParseDigits(s[1..]) as int)
    else if |s| >= 1 && AllDigits(s) then Some(ParseDigits(s))
    else None
  }

  /**
    The decimal text of an int starts with a minus sign exactly when the int is
    negative, and reads back as the same int.
   */
  lemma IntToStringRoundTrip(n: int)
    ensures IntToString(n)[0] == '-' <==> n < 0
    ensures ParseInt(IntToString(n)) == Some(n)
  {
    var s := IntToString(n);
    if n < 0 {
      ParseNatToString(-n);
      assert s[1..] == NatToString(-n);
    } else {
      ParseNatToString(n);
      assert IsDigit(s[0]);
    }
  }

  /**
    Python's `str(v)`, which is also what an f-string placeholder shows: strings
    unchanged, `None`, `True`/`False`, decimal ints; lists and dicts are left to
    the formatter.
   */
  function Str(fmt: Formatter, v: Json): (s: string)
    ensures v.JStr? ==> s == v.s
    ensures v.JInt? ==> s == IntToString(v.i)
  {
    match v
    case JNull => "None"
    case JBool(b) => if b then "True" else "False"
    case JInt(i) => IntToString(i)
    case JStr(s) => s
    case _ => fmt.repr(v)
  }
}
