/** The loosely typed `data` payloads that events carry, and `JSON.stringify` over them.
    Payloads are flat objects of scalars, which covers every payload the application builds
    (route changes, clicks, input focus, page loads, inactivity). */
module Json {
  import opened Common

  datatype Scalar = JStr(s: string) | JNum(n: int) | JBool(b: bool) | JNull

  /** An object with its keys in insertion order. */
  datatype Data = Object(fields: seq<(string, Scalar)>)

  const EmptyObject := Object([])

  function HexDigit(d: nat): char
    requires d < 16
  {
    "0123456789abcdef"[d]
  }

  /** One character inside a JSON string literal. */
  function EscapeChar(c: char): string
  {
    if c == '"' then "\\\""
    else if c == '\\' then "\\\\"
    else if c == '\n' then "\\n"
    else if c == '\r' then "\\r"
    else if c == '\t' then "\\t"
    else if c == '\U{08}' then "\\b"
    else if c == '\U{0C}' then "\\f"
    else if c < ' ' then "\\u00" + [HexDigit(c as int / 16), HexDigit(c as int % 16)]
    else [c]
  }

  /** A JSON string literal. */
  function Quote(s: string): string
  {
    "\"" + EscapeBody(s) + "\""
  }

  function EscapeBody(s: string): string
  {
    if |s| == 0 then "" else EscapeChar(s[0]) + EscapeBody(s[1..])
  }

  function ScalarText(v: Scalar): string
  {
    match v
    case JStr(s) => Quote(s)
    case JNum(n) => IntToString(n)
    case JBool(b) => if b then "true" else "false"
    case JNull => "null"
  }

  function MemberTexts(fields: seq<(string, Scalar)>): (r: seq<string>)
    ensures |r| == |fields|
  {
    if |fields| == 0 then [] else [Quote(fields[0].0) + ":" + ScalarText(fields[0].1)] + MemberTexts(fields[1..])
  }

  /** `JSON.stringify(data)`, compact form. */
  function Stringify(d: Data): (text: string)
    ensures StartsWith(text, "{") && EndsWith(text, "}")
  {
    "{" + Join(MemberTexts(d.fields), ",") + "}"
  }
}
