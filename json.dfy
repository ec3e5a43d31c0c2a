/**
  JSON values and `JSON.stringify` for them. Numbers are integers; Dafny
  characters are Unicode scalar values, so there are no lone surrogates to
  escape.
 */
module Json {
  import opened Js

  datatype Json =
    | JNull
    | JBool(b: bool)
    | JNumber(n: int)
    | JString(s: string)
    | JArray(items: seq<Json>)
    | JObject(members: seq<(string, Json)>)

  /** JavaScript truthiness of the value: null, false, 0 and "" are falsy. */
  predicate Truthy(j: Json) {
    match j
    case JNull => false
    case JBool(b) => b
    case JNumber(n) => n != 0
    case JString(s) => s != ""
    case _ => true
  }

  function HexDigit(d: nat): char
    requires d < 16
  {
    "0123456789abcdef"[d]
  }

  /** How `JSON.stringify` writes one character inside a string literal. */
  function EscapeChar(c: char): (r: string)
    ensures |r| >= 1
    ensures r[0] == '\\' <==> (c == '"' || c == '\\' || (c as int) < 0x20)
  {
    if c == '"' then "\\\""
    else if c == '\\' then "\\\\"
    else if c == '\U{0008}' then "\\b"
    else if c == '\U{000C}' then "\\f"
    else if c == '\n' then "\\n"
    else if c == '\r' then "\\r"
    else if c == '\t' then "\\t"
    else if (c as int) < 0x20 then "\\u00" + [HexDigit((c as int) / 16), HexDigit((c as int) % 16)]
    else [c]
  }

  function Escape(s: string): string {
    if s == [] then "" else EscapeChar(s[0]) + Escape(s[1..])
  }

  /** A string literal: the escaped text between double quotes. */
  function Quote(s: string): (r: string)
    ensures |r| >= 2 && r[0] == '"' && r[|r| - 1] == '"'
  {
    "\"" + Escape(s) + "\""
  }

  function JoinWithCommas(parts: seq<string>): string {
    if parts == [] then ""
    else if |parts| == 1 then parts[0]
    else parts[0] + "," + JoinWithCommas(parts[1..])
  }

  /** `JSON.stringify(j)`. */
  function Stringify(j: Json): (r: string)
    ensures |r| >= 1
    decreases j
  {
    match j
    case JNull => "null"
    case JBool(b) => if b then "true" else "false"
    case JNumber(n) => IntToString(n)
    case JString(s) => Quote(s)
    case JArray(items) =>
      "[" + JoinWithCommas(seq(|items|, i requires 0 <= i < |items| => Stringify(items[i]))) + "]"
    case JObject(members) =>
      "{" + JoinWithCommas(seq(|members|, i requires 0 <= i < |members| =>
        Quote(members[i].0) + ":" + Stringify(members[i].1))) + "}"
  }

  /** What kind of JSON text a serialisation is, read from its first character. */
  lemma StringifyShape(j: Json)
    ensures j.JString? <==> Stringify(j)[0] == '"'
    ensures j.JObject? <==> Stringify(j)[0] == '{'
    ensures j.JArray? <==> Stringify(j)[0] == '['
  {
    match j
    case JNumber(n) =>
      NatToStringIsDigits(if n < 0 then -n else n);
    case _ =>
  }

  /** A string serialises to a quoted literal, so a serialised value serialised
      again is a string literal and never an object. */
  lemma {:induction false} StringifyTwiceIsString(j: Json)
    ensures Stringify(JString(Stringify(j))) == Quote(Stringify(j))
    ensures Stringify(JString(Stringify(j)))[0] == '"'
    ensures Stringify(JString(Stringify(j))) != Stringify(j) || !j.JObject?
  {
    StringifyShape(j);
  }
}
