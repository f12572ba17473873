/** JSON string literals as Go's `encoding/json` Encoder writes them (HTML
    escaping on, the Encoder's default), and the reading that inverts them.
    The escapes follow Go 1.22 and later, which write U+0008 and U+000C as
    `\b` and `\f`; earlier releases write `\u0008` and `\u000c`. */
module JsonText {
  import opened Wrappers

  const Hex: string := "0123456789abcdef"

  /** A character the encoder does not copy verbatim: the quote, the backslash,
      control characters, the HTML-sensitive `<`, `>`, `&`, and the line and
      paragraph separators U+2028 and U+2029. */
  predicate NeedsEscape(c: char)
  {
    c == '"' || c == '\\' || (c as int) < 0x20 || c == '<' || c == '>' || c == '&'
    || c as int == 0x2028 || c as int == 0x2029
  }

  /** `\u` followed by four lower-case hex digits of `n`. */
  function UnicodeEscape(n: nat): (e: string)
    requires n < 0x10000
    ensures |e| == 6
  {
    var m1 := n / 16;
    var m2 := m1 / 16;
    ['\\', 'u', Hex[m2 / 16], Hex[m2 % 16], Hex[m1 % 16], Hex[n % 16]]
  }

  /** What the encoder writes for one character (Go 1.22 and later). */
  function EscapeChar(c: char): (e: string)
    ensures !NeedsEscape(c) ==> e == [c]
    ensures NeedsEscape(c) ==> 2 <= |e| && e[0] == '\\'
  {
    if c == '"' || c == '\\' then ['\\', c]
    else if c as int == 0x08 then "\\b"
    else if c as int == 0x0C then "\\f"
    else if c as int == 0x0A then "\\n"
    else if c as int == 0x0D then "\\r"
    else if c as int == 0x09 then "\\t"
    else if NeedsEscape(c) then UnicodeEscape(c as int)
    else [c]
  }

  /** The body of a string literal: each character escaped in turn. */
  function Escape(s: string): (e: string)
    ensures |s| <= |e| <= 6 * |s|
    ensures e == [] <==> s == []
  {
    if s == [] then [] else EscapeChar(s[0]) + Escape(s[1..])
  }

  /** A whole string literal. */
  function Quote(s: string): (q: string)
    ensures |q| >= 2 && q[0] == '"' && q[|q| - 1] == '"'
    ensures q[1..|q| - 1] == Escape(s)
  {
    "\"" + Escape(s) + "\""
  }

  predicate IsHexDigit(c: char)
  {
    '0' <= c <= '9' || 'a' <= c <= 'f' || 'A' <= c <= 'F'
  }

  function HexDigitValue(c: char): (v: nat)
    requires IsHexDigit(c)
    ensures v < 16
  {
    if '0' <= c <= '9' then c as int - '0' as int
    else if 'a' <= c <= 'f' then c as int - 'a' as int + 10
    else c as int - 'A' as int + 10
  }

  /** The number four hex digits spell, most significant first. */
  function HexValue(a: char, b: char, c: char, d: char): nat
    requires IsHexDigit(a) && IsHexDigit(b) && IsHexDigit(c) && IsHexDigit(d)
  {
    ((HexDigitValue(a) * 16 + HexDigitValue(b)) * 16 + HexDigitValue(c)) * 16 + HexDigitValue(d)
  }

  /** The character a two-character escape `\x` stands for, if `x` is one. */
  function ShortEscape(x: char): Option<char>
  {
    if x == '"' || x == '\\' || x == '/' then Some(x)
    else if x == 'b' then Some(0x08 as char)
    else if x == 'f' then Some(0x0C as char)
    else if x == 'n' then Some(0x0A as char)
    else if x == 'r' then Some(0x0D as char)
    else if x == 't' then Some(0x09 as char)
    else None
  }

  function Prepend(c: char, rest: Option<string>): Option<string>
  {
    if rest.Some? then Some([c] + rest.value) else None
  }

  /** Reads the body of a string literal back, or `None` when it is not one.
      Surrogate halves written as `\uXXXX` are not read (left out). */
  function Unescape(t: string): Option<string>
    decreases |t|
  {
    if t == [] then Some([])
    else if t[0] == '\\' then
      if 2 <= |t| && ShortEscape(t[1]).Some? then
        Prepend(ShortEscape(t[1]).value, Unescape(t[2..]))
      else if 6 <= |t| && t[1] == 'u' && IsHexDigit(t[2]) && IsHexDigit(t[3]) && IsHexDigit(t[4]) && IsHexDigit(t[5]) then
        var n := HexValue(t[2], t[3], t[4], t[5]);
        if 0xD800 <= n < 0xE000 then None else Prepend(n as char, Unescape(t[6..]))
      else
        None
    else if t[0] == '"' || (t[0] as int) < 0x20 then None
    else Prepend(t[0], Unescape(t[1..]))
  }

  lemma HexDigitOf(i: nat)
    requires i < 16
    ensures IsHexDigit(Hex[i]) && HexDigitValue(Hex[i]) == i
  {
  }

  /** The four digits of a `\uXXXX` escape are hexadecimal and spell `n`. */
  lemma UnicodeDigits(n: nat)
    requires n < 0x10000
    ensures var e := UnicodeEscape(n);
      && IsHexDigit(e[2]) && IsHexDigit(e[3]) && IsHexDigit(e[4]) && IsHexDigit(e[5])
      && HexValue(e[2], e[3], e[4], e[5]) == n
  {
    var m1 := n / 16;
    var m2 := m1 / 16;
    HexDigitOf(m2 / 16);
    HexDigitOf(m2 % 16);
    HexDigitOf(m1 % 16);
    HexDigitOf(n % 16);
    assert m2 == m2 / 16 * 16 + m2 % 16;
    assert m1 == m2 * 16 + m1 % 16;
    assert n == m1 * 16 + n % 16;
  }

  /** `Unescape` on text that starts with `\u` and four hex digits, unfolded once. */
  lemma UnescapeUnicodePrefix(t: string)
    requires 6 <= |t| && t[0] == '\\' && t[1] == 'u'
    requires IsHexDigit(t[2]) && IsHexDigit(t[3]) && IsHexDigit(t[4]) && IsHexDigit(t[5])
    ensures var n := HexValue(t[2], t[3], t[4], t[5]);
      Unescape(t) == if 0xD800 <= n < 0xE000 then None else Prepend(n as char, Unescape(t[6..]))
  {
    assert ShortEscape(t[1]).None?;
  }

  /** Reading a `\uXXXX` escape gives back the number written. */
  lemma UnescapeUnicode(n: nat, rest: string)
    requires n < 0x10000 && !(0xD800 <= n < 0xE000)
    ensures Unescape(UnicodeEscape(n) + rest) == Prepend(n as char, Unescape(rest))
  {
    var e := UnicodeEscape(n);
    var t := e + rest;
    UnicodeDigits(n);
    assert t[0] == '\\' && t[1] == 'u';
    assert t[2] == e[2] && t[3] == e[3] && t[4] == e[4] && t[5] == e[5];
    UnescapeUnicodePrefix(t);
    assert t[6..] == rest;
  }

  /** Reading a two-character escape gives back the character it stands for. */
  lemma UnescapeShort(x: char, rest: string)
    requires ShortEscape(x).Some?
    ensures Unescape(['\\', x] + rest) == Prepend(ShortEscape(x).value, Unescape(rest))
  {
    assert (['\\', x] + rest)[2..] == rest;
  }

  /** A character copied verbatim is read back as itself. */
  lemma UnescapeVerbatim(c: char, rest: string)
    requires !NeedsEscape(c)
    ensures Unescape([c] + rest) == Prepend(c, Unescape(rest))
  {
    assert ([c] + rest)[1..] == rest;
  }

  /** Reading the escape of one character gives back that character. */
  lemma UnescapeEscapeChar(c: char, rest: string)
    ensures Unescape(EscapeChar(c) + rest) == Prepend(c, Unescape(rest))
  {
    if !NeedsEscape(c) {
      UnescapeVerbatim(c, rest);
    } else if c == '"' || c == '\\' {
      UnescapeShort(c, rest);
    } else if c as int == 0x08 {
      UnescapeShort('b', rest);
    } else if c as int == 0x0C {
      UnescapeShort('f', rest);
    } else if c as int == 0x0A {
      UnescapeShort('n', rest);
    } else if c as int == 0x0D {
      UnescapeShort('r', rest);
    } else if c as int == 0x09 {
      UnescapeShort('t', rest);
    } else {
      UnescapeUnicode(c as int, rest);
    }
  }

  /** Decoding inverts encoding for every string. */
  lemma {:induction false} UnescapeEscape(s: string)
    ensures Unescape(Escape(s)) == Some(s)
  {
    if s != [] {
      UnescapeEscape(s[1..]);
      UnescapeEscapeChar(s[0], Escape(s[1..]));
      assert [s[0]] + s[1..] == s;
    }
  }

  /** A string with nothing to escape is written verbatim. */
  lemma {:induction false} EscapePlain(s: string)
    requires forall i | 0 <= i < |s| :: !NeedsEscape(s[i])
    ensures Escape(s) == s
  {
    if s != [] {
      EscapePlain(s[1..]);
      assert [s[0]] + s[1..] == s;
    }
  }
}
