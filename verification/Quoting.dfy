/** Double-quoted string literals with escapes: writing them, and reading quoted literals back. */
module Quoting {
  import opened Wrappers

  /** Printable ASCII, and outside ASCII whatever `graphic` says. */
  predicate Printable(c: char, graphic: char -> bool) {
    if c as int < 0x80 then 0x20 <= c as int < 0x7f else graphic(c)
  }

  function Hex(d: int): char
    requires 0 <= d < 16
  {
    "0123456789abcdef"[d]
  }

  /** The lower `width` hexadecimal digits of a number. */
  function HexDigits(n: nat, width: nat): (r: string)
    ensures |r| == width
  {
    if width == 0 then "" else HexDigits(n / 16, width - 1) + [Hex(n % 16)]
  }

  function Power16(width: nat): nat {
    if width == 0 then 1 else 16 * Power16(width - 1)
  }

  function HexValue(c: char): Option<nat> {
    if '0' <= c <= '9' then Some(c as int - '0' as int)
    else if 'a' <= c <= 'f' then Some(c as int - 'a' as int + 10)
    else if 'A' <= c <= 'F' then Some(c as int - 'A' as int + 10)
    else None
  }

  function ParseHex(s: string): Option<nat> {
    if s == "" then Some(0)
    else
      match (ParseHex(s[..|s| - 1]), HexValue(s[|s| - 1]))
      case (Some(high), Some(low)) => Some(16 * high + low)
      case _ => None
  }

  lemma HexValueOfHex(d: int)
    requires 0 <= d < 16
    ensures HexValue(Hex(d)) == Some(d)
  {
  }

  lemma {:induction false} ParseHexDigits(n: nat, width: nat)
    requires n < Power16(width)
    ensures ParseHex(HexDigits(n, width)) == Some(n)
  {
    if width > 0 {
      ParseHexDigits(n / 16, width - 1);
      var s := HexDigits(n, width);
      assert s[..|s| - 1] == HexDigits(n / 16, width - 1);
      HexValueOfHex(n % 16);
    }
  }

  /** One character as it appears inside a double-quoted literal. */
  function EscapeChar(c: char, graphic: char -> bool): (r: string)
    ensures r != ""
  {
    if c == '"' then "\\\""
    else if c == '\\' then "\\\\"
    else if Printable(c, graphic) then [c]
    else
      var n := c as int;
      if n == 7 then "\\a"
      else if n == 8 then "\\b"
      else if n == 12 then "\\f"
      else if n == 10 then "\\n"
      else if n == 13 then "\\r"
      else if n == 9 then "\\t"
      else if n == 11 then "\\v"
      else if n < 0x20 || n == 0x7f then "\\x" + HexDigits(n, 2)
      else if n < 0x10000 then "\\u" + HexDigits(n, 4)
      else "\\U" + HexDigits(n, 8)
  }

  function Escape(s: string, graphic: char -> bool): string {
    if s == "" then "" else EscapeChar(s[0], graphic) + Escape(s[1..], graphic)
  }

  function Quote(s: string, graphic: char -> bool): string {
    "\"" + Escape(s, graphic) + "\""
  }

  // ----- reading

  predicate ScalarValue(n: nat) {
    n < 0xD800 || 0xE000 <= n < 0x110000
  }

  /** The character of a hexadecimal escape with the given number of digits, and the length of the escape. */
  function HexEscape(s: string, digits: nat): Option<(char, nat)> {
    if |s| < 2 + digits then None
    else
      match ParseHex(s[2..2 + digits])
      case Some(n) => if ScalarValue(n) then Some((n as char, 2 + digits)) else None
      case None => None
  }

  function OctalEscape(s: string): Option<(char, nat)>
    requires |s| >= 2 && '0' <= s[1] <= '7'
  {
    if |s| >= 4 && '0' <= s[2] <= '7' && '0' <= s[3] <= '7' then
      var n := (s[1] as int - '0' as int) * 64 + (s[2] as int - '0' as int) * 8 + s[3] as int - '0' as int;
      if n <= 255 then Some((n as char, 4)) else None
    else None
  }

  /** The next character of a literal and how much of the text it takes; None is a syntax error. */
  function UnquoteChar(s: string, quote: char): (r: Option<(char, nat)>)
    requires s != ""
    ensures r.Some? ==> 1 <= r.value.1 <= |s|
  {
    if s[0] == quote then None
    else if s[0] != '\\' then Some((s[0], 1))
    else if |s| == 1 then None
    else
      match s[1]
      case 'a' => Some((7 as char, 2))
      case 'b' => Some((8 as char, 2))
      case 'f' => Some((12 as char, 2))
      case 'n' => Some(('\n', 2))
      case 'r' => Some(('\r', 2))
      case 't' => Some(('\t', 2))
      case 'v' => Some((11 as char, 2))
      case 'x' => HexEscape(s, 2)
      case 'u' => HexEscape(s, 4)
      case 'U' => HexEscape(s, 8)
      case '\\' => Some(('\\', 2))
      case '\'' => if quote == '\'' then Some(('\'', 2)) else None
      case '"' => if quote == '"' then Some(('"', 2)) else None
      case d => if '0' <= d <= '7' then OctalEscape(s) else None
  }

  /** The text up to a closing double quote that must end the literal. */
  function UnquoteBody(s: string): Option<string>
    decreases |s|
  {
    if s == "" || s[0] == '\n' then None
    else if s[0] == '"' then if |s| == 1 then Some("") else None
    else
      match UnquoteChar(s, '"')
      case Some((c, n)) => (match UnquoteBody(s[n..]) case Some(rest) => Some([c] + rest) case None => None)
      case None => None
  }

  /** A single-quoted literal holds at most one character. */
  function UnquoteSingle(s: string): Option<string> {
    if s == "" || s[0] == '\n' then None
    else if s[0] == '\'' then if |s| == 1 then Some("") else None
    else
      match UnquoteChar(s, '\'')
      case Some((c, n)) => if s[n..] == "'" then Some([c]) else None
      case None => None
  }

  function Unquote(s: string): Option<string> {
    if |s| < 2 then None
    else if s[0] == '"' then UnquoteBody(s[1..])
    else if s[0] == '\'' then UnquoteSingle(s[1..])
    else None
  }

  // ----- reading back what was written

  lemma PowersOf16()
    ensures Power16(2) == 0x100 && Power16(4) == 0x10000 && Power16(8) == 0x100000000
  {
    assert Power16(1) == 16;
    assert Power16(3) == 16 * Power16(2) && Power16(5) == 16 * Power16(4);
    assert Power16(6) == 16 * Power16(5) && Power16(7) == 16 * Power16(6);
  }

  lemma HexEscapeOf(c: char, mark: char, digits: nat, rest: string)
    requires c as int < Power16(digits)
    ensures HexEscape(['\\', mark] + HexDigits(c as int, digits) + rest, digits) == Some((c, 2 + digits))
  {
    var s := ['\\', mark] + HexDigits(c as int, digits) + rest;
    assert s[2..2 + digits] == HexDigits(c as int, digits);
    ParseHexDigits(c as int, digits);
  }

  lemma UnquoteEscaped(c: char, graphic: char -> bool, rest: string)
    ensures EscapeChar(c, graphic)[0] !in {'"', '\n'}
    ensures UnquoteChar(EscapeChar(c, graphic) + rest, '"') == Some((c, |EscapeChar(c, graphic)|))
  {
    var e := EscapeChar(c, graphic);
    var n := c as int;
    PowersOf16();
    if c == '"' || c == '\\' || Printable(c, graphic) || n in {7, 8, 9, 10, 11, 12, 13} {
    } else if n < 0x20 || n == 0x7f {
      HexEscapeOf(c, 'x', 2, rest);
    } else if n < 0x10000 {
      HexEscapeOf(c, 'u', 4, rest);
    } else {
      HexEscapeOf(c, 'U', 8, rest);
    }
  }

  lemma {:induction false} UnquoteEscape(s: string, graphic: char -> bool)
    ensures UnquoteBody(Escape(s, graphic) + "\"") == Some(s)
    decreases s
  {
    if s != "" {
      var e, tail := EscapeChar(s[0], graphic), Escape(s[1..], graphic) + "\"";
      assert Escape(s, graphic) + "\"" == e + tail;
      assert (e + tail)[|e|..] == tail;
      UnquoteEscaped(s[0], graphic, tail);
      UnquoteEscape(s[1..], graphic);
      assert s == [s[0]] + s[1..];
    }
  }

  /** Reading a written literal gives the text back. */
  lemma UnquoteOfQuote(s: string, graphic: char -> bool)
    ensures Unquote(Quote(s, graphic)) == Some(s)
  {
    var q := Quote(s, graphic);
    assert q[1..] == Escape(s, graphic) + "\"";
    UnquoteEscape(s, graphic);
  }
}
