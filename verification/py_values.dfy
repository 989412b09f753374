/**
  * The Python values that cross the model: request parameters and bodies,
  * and what `json.loads` produces, together with the two textual renderings
  * the source relies on: `str(v)` (used by f-strings) and `repr(v)` (used
  * for the items of a list or dict), and ASCII `str.upper`.
  */
module PyValues {

  /** One element of a `bytes` object. */
  newtype byte = x: int | 0 <= x < 256

  /** A JSON-shaped Python value. A dict's entries are in insertion order and its keys are distinct. */
  datatype Value =
    | PyNone
    | PyBool(b: bool)
    | PyInt(i: int)
    | PyStr(s: string)
    | PyList(items: seq<Value>)
    | PyDict(entries: seq<(string, Value)>)

  /** `d.get(key)`: the value bound to `key`, or `None` when the key is absent. */
  function DictGet(entries: seq<(string, Value)>, key: string): (r: Value)
    ensures (forall k | 0 <= k < |entries| :: entries[k].0 != key) ==> r == PyNone
    ensures forall k | 0 <= k < |entries| && entries[k].0 == key ::
              (forall j | 0 <= j < k :: entries[j].0 != key) ==> r == entries[k].1
  {
    if entries == [] then PyNone
    else if entries[0].0 == key then entries[0].1
    else DictGet(entries[1..], key)
  }

  // ---------------------------------------------------------------------------
  // str() and repr()
  // ---------------------------------------------------------------------------

  /** `str(v)`: a string is itself, every other value is its repr. */
  function ToStr(v: Value): (r: string)
    ensures v.PyStr? ==> r == v.s
    ensures !v.PyStr? ==> r == ToRepr(v)
  {
    match v
    case PyStr(s) => s
    case _ => ToRepr(v)
  }

  /** `repr(v)` for the JSON-shaped values. */
  function ToRepr(v: Value): string
    decreases v
  {
    match v
    case PyNone => "None"
    case PyBool(b) => if b then "True" else "False"
    case PyInt(i) => IntToString(i)
    case PyStr(s) => QuoteString(s)
    case PyList(items) => "[" + JoinItems(items) + "]"
    case PyDict(entries) => "{" + JoinEntries(entries) + "}"
  }

  /** `", ".join(repr(x) for x in items)` */
  function JoinItems(items: seq<Value>): string
    decreases items
  {
    if items == [] then ""
    else if |items| == 1 then ToRepr(items[0])
    else ToRepr(items[0]) + ", " + JoinItems(items[1..])
  }

  /** `", ".join(f"{k!r}: {v!r}" for k, v in entries)` */
  function JoinEntries(entries: seq<(string, Value)>): string
    decreases entries
  {
    if entries == [] then ""
    else
      var entry0 := entries[0];
      assert entries decreases to entry0;
      assert entry0 decreases to entry0.1;
      var entry := QuoteString(entry0.0) + ": " + ToRepr(entry0.1);
      if |entries| == 1 then entry else entry + ", " + JoinEntries(entries[1..])
  }

  /**
    * `repr(s)` for a string: single quotes unless the text holds a single quote
    * and no double quote; the chosen quote, the backslash and ASCII control
    * characters are escaped.
    */
  function QuoteString(s: string): (r: string)
    ensures |r| >= 2 && r[0] == r[|r| - 1] == QuoteFor(s)
  {
    var q := QuoteFor(s);
    [q] + EscapeChars(s, q) + [q]
  }

  function QuoteFor(s: string): (q: char)
    ensures q == '\'' || q == '"'
    ensures q == '"' <==> '\'' in s && '"' !in s
  {
    if '\'' in s && '"' !in s then '"' else '\''
  }

  function EscapeChars(s: string, q: char): string
  {
    if s == [] then "" else EscapeChar(s[0], q) + EscapeChars(s[1..], q)
  }

  function EscapeChar(c: char, q: char): (r: string)
    ensures |r| >= 1
  {
    if c == q || c == '\\' then ['\\', c]
    else if c == '\t' then "\\t"
    else if c == '\n' then "\\n"
    else if c == '\r' then "\\r"
    else if c < ' ' || c == '\U{7f}' then "\\x" + [HexDigit(c as int / 16), HexDigit(c as int % 16)]
    else [c]
  }

  function HexDigit(d: int): char
    requires 0 <= d < 16
  {
    if d < 10 then ('0' as int + d) as char else ('a' as int + d - 10) as char
  }

  // ---------------------------------------------------------------------------
  // Decimal rendering of int
  // ---------------------------------------------------------------------------

  predicate IsDigit(c: char) { '0' <= c <= '9' }

  /** `str(n)` for an int: optional minus sign, then decimal digits without leading zeros. */
  function IntToString(n: int): (r: string)
    ensures |r| >= 1
    ensures n >= 0 ==> forall k | 0 <= k < |r| :: IsDigit(r[k])
    ensures n < 0 ==> |r| >= 2 && r[0] == '-' && forall k | 1 <= k < |r| :: IsDigit(r[k])
  {
    if n < 0 then "-" + NatToString(-n) else NatToString(n)
  }

  function NatToString(n: nat): (r: string)
    ensures |r| >= 1
    ensures forall k | 0 <= k < |r| :: IsDigit(r[k])
    decreases n
  {
    var last := ('0' as int + n % 10) as char;
    if n < 10 then [last] else NatToString(n / 10) + [last]
  }

  // ---------------------------------------------------------------------------
  // str.upper
  // ---------------------------------------------------------------------------

  function UpperChar(c: char): char
  {
    if 'a' <= c <= 'z' then (c as int - 'a' as int + 'A' as int) as char else c
  }

  /** `s.upper()` restricted to the ASCII letters. */
  function Upper(s: string): (r: string)
    ensures |r| == |s|
    ensures forall k | 0 <= k < |s| :: r[k] == UpperChar(s[k])
  {
    seq(|s|, k requires 0 <= k < |s| => UpperChar(s[k]))
  }
}
