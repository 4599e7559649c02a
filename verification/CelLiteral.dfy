/** The string literals the policy compiler prints (verb %q of Go's fmt) and the way CEL reads
    them. A `char` is a Unicode scalar value, so a `string` is any valid Unicode text. */
module CelLiteral {
  import opened Options

  // -------------------------------------------------------------- hexadecimal

  const DIGITS := "0123456789abcdef"

  function HexValue(c: char): Option<int> {
    if '0' <= c <= '9' then Some(c as int - '0' as int)
    else if 'a' <= c <= 'f' then Some(c as int - 'a' as int + 10)
    else if 'A' <= c <= 'F' then Some(c as int - 'A' as int + 10)
    else None
  }

  /** The last `width` hexadecimal digits of `n`, in lower case. */
  function Hex(n: nat, width: nat): (r: string)
    ensures |r| == width
  {
    if width == 0 then "" else Hex(n / 16, width - 1) + [DIGITS[n % 16]]
  }

  function ParseHex(s: string): Option<nat> {
    if s == "" then Some(0)
    else
      var high, low := ParseHex(s[..|s| - 1]), HexValue(s[|s| - 1]);
      if high.Some? && low.Some? then Some(16 * high.value + low.value) else None
  }

  function Power16(width: nat): nat {
    if width == 0 then 1 else 16 * Power16(width - 1)
  }

  lemma {:induction false} ParseHexOfHex(n: nat, width: nat)
    requires n < Power16(width)
    ensures ParseHex(Hex(n, width)) == Some(n)
  {
    if width > 0 {
      ParseHexOfHex(n / 16, width - 1);
      var s := Hex(n, width);
      assert s[..|s| - 1] == Hex(n / 16, width - 1);
      DigitValue(n % 16);
    }
  }

  lemma DigitValue(d: nat)
    requires d < 16
    ensures HexValue(DIGITS[d]) == Some(d)
  {
    assert DIGITS[0] == '0' && DIGITS[1] == '1' && DIGITS[2] == '2' && DIGITS[3] == '3';
    assert DIGITS[4] == '4' && DIGITS[5] == '5' && DIGITS[6] == '6' && DIGITS[7] == '7';
    assert DIGITS[8] == '8' && DIGITS[9] == '9' && DIGITS[10] == 'a' && DIGITS[11] == 'b';
    assert DIGITS[12] == 'c' && DIGITS[13] == 'd' && DIGITS[14] == 'e' && DIGITS[15] == 'f';
  }

  // ------------------------------------------------------------- printing: %q

  const DELETE: char := '\U{7f}'

  predicate IsControl(c: char) {
    c < ' ' || c == DELETE
  }

  /** What Go's escapes use for the control characters that have a letter of their own. */
  function EscapeLetter(c: char): Option<char> {
    if c == '\U{7}' then Some('a')
    else if c == '\U{8}' then Some('b')
    else if c == '\U{c}' then Some('f')
    else if c == '\n' then Some('n')
    else if c == '\r' then Some('r')
    else if c == '\t' then Some('t')
    else if c == '\U{b}' then Some('v')
    else None
  }

  function QuoteRune(isPrint: char -> bool, c: char): string {
    if c == '"' || c == '\\' then ['\\', c]
    else if isPrint(c) then [c]
    else if EscapeLetter(c).Some? then ['\\', EscapeLetter(c).value]
    else if IsControl(c) then ['\\', 'x'] + Hex(c as nat, 2)
    else if c as int < 0x10000 then ['\\', 'u'] + Hex(c as nat, 4)
    else ['\\', 'U'] + Hex(c as nat, 8)
  }

  function QuoteBody(isPrint: char -> bool, s: string): string {
    if s == "" then "" else QuoteRune(isPrint, s[0]) + QuoteBody(isPrint, s[1..])
  }

  function Quote(isPrint: char -> bool, s: string): string {
    ['"'] + QuoteBody(isPrint, s) + ['"']
  }

  // -------------------------------------------------------------- reading: CEL

  predicate IsScalar(n: int) {
    0 <= n < 0xD800 || 0xE000 <= n < 0x110000
  }

  /** A character given by `width` hexadecimal digits from position 2 on, and where it ends. */
  function HexEscape(s: string, width: nat): Option<(char, nat)> {
    if |s| < 2 + width then None
    else
      var n := ParseHex(s[2..2 + width]);
      if n.Some? && IsScalar(n.value) then Some((n.value as char, 2 + width)) else None
  }

  predicate IsOctal(c: char) {
    '0' <= c <= '7'
  }

  function OctalEscape(s: string): Option<(char, nat)>
    requires |s| >= 2
  {
    if |s| >= 4 && '0' <= s[1] <= '3' && IsOctal(s[2]) && IsOctal(s[3]) then
      var n := 64 * (s[1] as int - '0' as int) + 8 * (s[2] as int - '0' as int) + (s[3] as int - '0' as int);
      Some((n as char, 4))
    else None
  }

  /** The escape sequence at the start of `s`: the character it stands for and its length. */
  function DecodeEscape(s: string): (r: Option<(char, nat)>)
    ensures r.Some? ==> 2 <= r.value.1 <= |s|
  {
    if |s| < 2 || s[0] != '\\' then None
    else if s[1] == 'a' then Some(('\U{7}', 2))
    else if s[1] == 'b' then Some(('\U{8}', 2))
    else if s[1] == 'f' then Some(('\U{c}', 2))
    else if s[1] == 'n' then Some(('\n', 2))
    else if s[1] == 'r' then Some(('\r', 2))
    else if s[1] == 't' then Some(('\t', 2))
    else if s[1] == 'v' then Some(('\U{b}', 2))
    else if s[1] in {'\\', '"', '\'', '`', '?'} then Some((s[1], 2))
    else if s[1] == 'x' || s[1] == 'X' then HexEscape(s, 2)
    else if s[1] == 'u' then HexEscape(s, 4)
    else if s[1] == 'U' then HexEscape(s, 8)
    else OctalEscape(s)
  }

  /** The text of a double-quoted literal after its opening quote; the closing quote must end it. */
  function DecodeBody(s: string): Option<string>
    decreases |s|
  {
    if s == "" || s[0] == '\n' || s[0] == '\r' then None
    else if s[0] == '"' then (if |s| == 1 then Some("") else None)
    else if s[0] == '\\' then
      var e := DecodeEscape(s);
      if e.None? then None else Prepend(e.value.0, DecodeBody(s[e.value.1..]))
    else Prepend(s[0], DecodeBody(s[1..]))
  }

  function Prepend(c: char, rest: Option<string>): Option<string> {
    if rest.None? then None else Some([c] + rest.value)
  }

  function Decode(literal: string): Option<string> {
    if literal == "" || literal[0] != '"' then None else DecodeBody(literal[1..])
  }

  // --------------------------------------------------------------- round trip

  lemma HexEscapeReadsBack(c: char, letter: char, width: nat, rest: string)
    requires width <= 8 && c as nat < Power16(width)
    ensures HexEscape(['\\', letter] + Hex(c as nat, width) + rest, width) == Some((c, 2 + width))
  {
    var s := ['\\', letter] + Hex(c as nat, width) + rest;
    assert s[2..2 + width] == Hex(c as nat, width);
    ParseHexOfHex(c as nat, width);
  }

  lemma Powers()
    ensures Power16(2) == 0x100 && Power16(4) == 0x10000 && Power16(8) == 0x1_0000_0000
  {
    assert Power16(0) == 1 && Power16(1) == 16 && Power16(2) == 0x100 && Power16(3) == 0x1000;
    assert Power16(4) == 0x10000 && Power16(5) == 0x100000 && Power16(6) == 0x1000000 && Power16(7) == 0x10000000;
  }

  lemma HexRuneReadsBack(isPrint: char -> bool, c: char, rest: string)
    requires c != '"' && c != '\\' && !isPrint(c) && EscapeLetter(c).None?
    ensures DecodeBody(QuoteRune(isPrint, c) + rest) == Prepend(c, DecodeBody(rest))
  {
    Powers();
    var s := QuoteRune(isPrint, c) + rest;
    var width, letter := if IsControl(c) then 2 else if c as int < 0x10000 then 4 else 8,
                         if IsControl(c) then 'x' else if c as int < 0x10000 then 'u' else 'U';
    assert s == ['\\', letter] + Hex(c as nat, width) + rest;
    HexEscapeReadsBack(c, letter, width, rest);
    assert s[2 + width..] == rest;
  }

  /** CEL reads one printed character back and goes on behind it. */
  lemma RuneReadsBack(isPrint: char -> bool, c: char, rest: string)
    requires forall d :: isPrint(d) ==> !IsControl(d)
    ensures DecodeBody(QuoteRune(isPrint, c) + rest) == Prepend(c, DecodeBody(rest))
  {
    var s := QuoteRune(isPrint, c) + rest;
    if c != '"' && c != '\\' && isPrint(c) {
      assert s[1..] == rest;
    } else if c == '"' || c == '\\' || EscapeLetter(c).Some? {
      assert s[2..] == rest;
    } else {
      HexRuneReadsBack(isPrint, c, rest);
    }
  }

  /** The escapes, written out: what is printed, and what CEL makes of it. */
  lemma EscapesWrittenOut(isPrint: char -> bool, rest: string)
    requires forall d :: isPrint(d) ==> !IsControl(d)
    ensures QuoteRune(isPrint, '"') == "\\\"" && DecodeEscape("\\\"" + rest) == Some(('"', 2))
    ensures QuoteRune(isPrint, '\\') == "\\\\" && DecodeEscape("\\\\" + rest) == Some(('\\', 2))
    ensures QuoteRune(isPrint, '\n') == "\\n" && DecodeEscape("\\n" + rest) == Some(('\n', 2))
    ensures QuoteRune(isPrint, '\r') == "\\r" && DecodeEscape("\\r" + rest) == Some(('\r', 2))
    ensures QuoteRune(isPrint, '\t') == "\\t" && DecodeEscape("\\t" + rest) == Some(('\t', 2))
    ensures QuoteRune(isPrint, '\U{7}') == "\\a" && DecodeEscape("\\a" + rest) == Some(('\U{7}', 2))
    ensures QuoteRune(isPrint, '\U{8}') == "\\b" && DecodeEscape("\\b" + rest) == Some(('\U{8}', 2))
    ensures QuoteRune(isPrint, '\U{c}') == "\\f" && DecodeEscape("\\f" + rest) == Some(('\U{c}', 2))
    ensures QuoteRune(isPrint, '\U{b}') == "\\v" && DecodeEscape("\\v" + rest) == Some(('\U{b}', 2))
  {
  }

  lemma {:induction false} BodyReadsBack(isPrint: char -> bool, s: string)
    requires forall d :: isPrint(d) ==> !IsControl(d)
    ensures DecodeBody(QuoteBody(isPrint, s) + ['"']) == Some(s)
  {
    if s == "" {
      assert QuoteBody(isPrint, s) + ['"'] == ['"'];
    } else {
      BodyReadsBack(isPrint, s[1..]);
      RuneReadsBack(isPrint, s[0], QuoteBody(isPrint, s[1..]) + ['"']);
      assert QuoteBody(isPrint, s) + ['"'] == QuoteRune(isPrint, s[0]) + (QuoteBody(isPrint, s[1..]) + ['"']);
      assert s == [s[0]] + s[1..];
    }
  }

  /** For every text and every notion of printable character that excludes control characters,
      CEL reads the printed literal as the text that was printed. */
  lemma QuoteReadsBack(isPrint: char -> bool, s: string)
    requires forall d :: isPrint(d) ==> !IsControl(d)
    ensures Decode(Quote(isPrint, s)) == Some(s)
  {
    BodyReadsBack(isPrint, s);
    assert Quote(isPrint, s)[1..] == QuoteBody(isPrint, s) + ['"'];
  }
}
