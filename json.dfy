/** The JSON tree the block table is serialised into, and its compact text form
    (used where the source stores `Json.encodeToString(...)` inside a string). */
module Json {
  import opened Wrappers
  import opened Ordered

  datatype Json =
    | JNull
    | JBool(b: bool)
    | JInt(i: int)
    | JNumber(text: string)          // a non-integral number, kept as its text
    | JStr(s: string)
    | JArr(items: seq<Json>)
    | JObj(members: Entries<Json>)   // insertion-ordered, keys unique

  /** `JsonPrimitive(s)` for a nullable string. */
  function StrOrNull(s: Option<string>): (j: Json)
    ensures s.None? <==> j == JNull
  {
    if s.Some? then JStr(s.value) else JNull
  }

  /** An array of string primitives, in order. */
  function Strings(xs: seq<string>): (j: Json)
    ensures j.JArr? && |j.items| == |xs|
    ensures forall i | 0 <= i < |xs| :: j.items[i] == JStr(xs[i])
  {
    JArr(seq(|xs|, i requires 0 <= i < |xs| => JStr(xs[i])))
  }

  function Digit(d: nat): char
    requires d < 10
  {
    "0123456789"[d]
  }

  /** Decimal digits of a natural number, most significant first. */
  function NatText(n: nat): (t: string)
    ensures |t| >= 1
    ensures forall c | c in t :: '0' <= c <= '9'
    decreases n
  {
    if n < 10 then [Digit(n)] else NatText(n / 10) + [Digit(n % 10)]
  }

  function IntText(i: int): (t: string)
    ensures |t| >= 1
  {
    if i < 0 then "-" + NatText(-i) else NatText(i)
  }

  function HexDigit(d: nat): char
    requires d < 16
  {
    "0123456789abcdef"[d]
  }

  /** One character inside a quoted string: quote and backslash are escaped, control
      characters use their short escape or `\u00XX`. */
  function EscapeChar(c: char): (t: string)
    ensures |t| >= 1
    ensures t[0] == '\\' <==> (c == '"' || c == '\\' || c < ' ')
  {
    if c == '"' then "\\\""
    else if c == '\\' then "\\\\"
    else if c == '\n' then "\\n"
    else if c == '\r' then "\\r"
    else if c == '\t' then "\\t"
    else if c == '\U{8}' then "\\b"
    else if c == '\U{C}' then "\\f"
    else if c < ' ' then "\\u00" + [HexDigit(c as nat / 16), HexDigit(c as nat % 16)]
    else [c]
  }

  function EscapeText(s: string): string
  {
    if s == [] then "" else EscapeText(s[..|s| - 1]) + EscapeChar(s[|s| - 1])
  }

  function Quote(s: string): (t: string)
    ensures |t| >= 2 && t[0] == '"' && t[|t| - 1] == '"'
  {
    "\"" + EscapeText(s) + "\""
  }

  /** Pieces joined by commas. */
  function Join(parts: seq<string>): string
  {
    if parts == [] then ""
    else if |parts| == 1 then parts[0]
    else parts[0] + "," + Join(parts[1..])
  }

  /** Compact encoding, no whitespace, members in insertion order. */
  function Encode(j: Json): string
    decreases j
  {
    match j
    case JNull => "null"
    case JBool(b) => if b then "true" else "false"
    case JInt(i) => IntText(i)
    case JNumber(t) => t
    case JStr(s) => Quote(s)
    case JArr(items) =>
      "[" + Join(seq(|items|, i requires 0 <= i < |items| => Encode(items[i]))) + "]"
    case JObj(members) =>
      "{" + Join(seq(|members|, i requires 0 <= i < |members| =>
        assert members[i] in members;
        Quote(members[i].0) + ":" + Encode(members[i].1))) + "}"
  }
}
