/**
 * `JSON.stringify` applied to a string (QuoteJSONString of ECMA-262), which the literal renderer
 * uses to quote each line, and its inverse, the string-literal half of `JSON.parse`.
 */
module JsonString {
  import opened Base

  function HexDigit(d: int): char
    requires 0 <= d < 16
  {
    if d < 10 then ('0' as int + d) as char else ('a' as int + d - 10) as char
  }

  function HexValue(c: char): Option<nat>
  {
    if '0' <= c <= '9' then Some(c as int - '0' as int)
    else if 'a' <= c <= 'f' then Some(c as int - 'a' as int + 10)
    else if 'A' <= c <= 'F' then Some(c as int - 'A' as int + 10)
    else None
  }

  /** The escape of one character: the two-character escapes, `\u00xx` for the other control
      characters, the character itself otherwise. */
  function EscapeChar(c: char): string
  {
    if c == '"' then "\\\""
    else if c == '\\' then "\\\\"
    else if c == '\U{8}' then "\\b"
    else if c == '\U{C}' then "\\f"
    else if c == '\n' then "\\n"
    else if c == '\r' then "\\r"
    else if c == '\t' then "\\t"
    else if c < ' ' then "\\u00" + [HexDigit(c as int / 16), HexDigit(c as int % 16)]
    else [c]
  }

  function Escape(s: string): (r: string)
    ensures forall i :: 0 <= i < |r| ==> r[i] >= ' '
  {
    if s == [] then [] else EscapeChar(s[0]) + Escape(s[1..])
  }

  /** Text without quotes, backslashes or control characters is not escaped. */
  lemma {:induction false} EscapePlain(s: string)
    requires forall i :: 0 <= i < |s| ==> s[i] >= ' ' && s[i] != '"' && s[i] != '\\'
    ensures Escape(s) == s
  {
    if s != [] {
      EscapePlain(s[1..]);
    }
  }

  /** `JSON.stringify(s)` for a string `s`: double quotes around the escaped text; the result holds
      no control character, in particular no line break. */
  function Stringify(s: string): (r: string)
    ensures |r| >= 2 && r[0] == '"' && r[|r| - 1] == '"'
    ensures forall i :: 0 <= i < |r| ==> r[i] >= ' '
  {
    "\"" + Escape(s) + "\""
  }

  function Prepend(c: char, rest: Option<string>): Option<string>
  {
    match rest
    case None => None
    case Some(s) => Some([c] + s)
  }

  function SimpleEscape(e: char): Option<char>
  {
    if e == '"' then Some('"')
    else if e == '\\' then Some('\\')
    else if e == '/' then Some('/')
    else if e == 'b' then Some('\U{8}')
    else if e == 'f' then Some('\U{C}')
    else if e == 'n' then Some('\n')
    else if e == 'r' then Some('\r')
    else if e == 't' then Some('\t')
    else None
  }

  function Hex4(t: string): Option<nat>
    requires |t| == 4
  {
    match (HexValue(t[0]), HexValue(t[1]), HexValue(t[2]), HexValue(t[3]))
    case (Some(a), Some(b), Some(c), Some(d)) => Some(((a * 16 + b) * 16 + c) * 16 + d)
    case _ => None
  }

  /** The characters of a JSON string literal without its quotes, decoded. */
  function Unescape(t: string): Option<string>
  {
    if t == [] then Some([])
    else if t[0] == '"' || t[0] < ' ' then None
    else if t[0] != '\\' then Prepend(t[0], Unescape(t[1..]))
    else if |t| < 2 then None
    else if t[1] == 'u' then
      if |t| < 6 then None
      else match Hex4(t[2..6])
        case None => None
        case Some(v) =>
          if v < 0xD800 || 0xE000 <= v < 0x11_0000 then Prepend(v as char, Unescape(t[6..])) else None
    else match SimpleEscape(t[1])
      case None => None
      case Some(c) => Prepend(c, Unescape(t[2..]))
  }

  /** `JSON.parse` restricted to string literals. */
  function Parse(r: string): Option<string>
  {
    if |r| >= 2 && r[0] == '"' && r[|r| - 1] == '"' then Unescape(r[1..|r| - 1]) else None
  }

  lemma HexRoundTrip(d: int)
    requires 0 <= d < 16
    ensures HexValue(HexDigit(d)) == Some(d)
  {
  }

  lemma ControlEscape(c: char)
    requires c < ' ' && c != '\U{8}' && c != '\U{C}' && c != '\n' && c != '\r' && c != '\t'
    ensures EscapeChar(c) == ['\\', 'u', '0', '0', HexDigit(c as int / 16), HexDigit(c as int % 16)]
  {
  }

  lemma {:induction false} UnescapeEscapeChar(c: char, rest: string)
    ensures Unescape(EscapeChar(c) + rest) == Prepend(c, Unescape(rest))
  {
    var t := EscapeChar(c) + rest;
    if c == '"' || c == '\\' || c == '\U{8}' || c == '\U{C}' || c == '\n' || c == '\r' || c == '\t' {
      assert t[2..] == rest;
    } else if c < ' ' {
      var hi, lo := c as int / 16, c as int % 16;
      ControlEscape(c);
      HexRoundTrip(hi);
      HexRoundTrip(lo);
      assert t[0] == '\\' && t[1] == 'u';
      var h := t[2..6];
      assert h[0] == '0' && h[1] == '0' && h[2] == HexDigit(hi) && h[3] == HexDigit(lo);
      assert Hex4(h) == Some(c as int);
      assert t[6..] == rest;
    } else {
      assert t[1..] == rest;
    }
  }

  /** Parsing the stringified text gives back the original string. */
  lemma {:induction false} ParseStringify(s: string)
    ensures Unescape(Escape(s)) == Some(s)
    ensures Parse(Stringify(s)) == Some(s)
  {
    if s != [] {
      ParseStringify(s[1..]);
      UnescapeEscapeChar(s[0], Escape(s[1..]));
      assert [s[0]] + s[1..] == s;
    }
    var r := Stringify(s);
    assert r[1..|r| - 1] == Escape(s);
  }
}
