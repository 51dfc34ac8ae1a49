/**
 * `JSON.stringify` and `JSON.parse` for the values the preference store keeps: strings.
 * Every stored preference is a string and every validator starts by asking for one, so
 * stored text that parses to any other JSON value is treated exactly like text that
 * does not parse: it is not a stored string.
 */
module JsonString {
  import opened Wrappers

  /** Lower-case hexadecimal digit of a value below 16, as `JSON.stringify` writes it. */
  function HexDigit(v: nat): (c: char)
    requires v < 16
  {
    if v < 10 then ('0' as int + v) as char else ('a' as int + v - 10) as char
  }

  /** Value of a hexadecimal digit of either case, or None. */
  function HexValue(c: char): (r: Option<nat>)
    ensures r.Some? ==> r.value < 16
  {
    if '0' <= c <= '9' then Some(c as int - '0' as int)
    else if 'a' <= c <= 'f' then Some(c as int - 'a' as int + 10)
    else if 'A' <= c <= 'F' then Some(c as int - 'A' as int + 10)
    else None
  }

  lemma HexDigitValue(v: nat)
    requires v < 16
    ensures HexValue(HexDigit(v)) == Some(v)
  {
  }

  /** The code unit written by four hexadecimal digits. */
  function Hex4(h: string): (r: Option<nat>)
    requires |h| == 4
    ensures r.Some? ==> r.value < 0x10000
  {
    var a, b, c, d := HexValue(h[0]), HexValue(h[1]), HexValue(h[2]), HexValue(h[3]);
    if a.Some? && b.Some? && c.Some? && d.Some? then
      Some(((a.value * 16 + b.value) * 16 + c.value) * 16 + d.value)
    else None
  }

  /** The escape of one character in a JSON string literal. */
  function EscapeChar(c: char): string {
    if c == '"' then ['\\', '"']
    else if c == '\\' then ['\\', '\\']
    else if c as int == 0x08 then ['\\', 'b']
    else if c as int == 0x0C then ['\\', 'f']
    else if c as int == 0x0A then ['\\', 'n']
    else if c as int == 0x0D then ['\\', 'r']
    else if c as int == 0x09 then ['\\', 't']
    else if c as int < 0x20 then ['\\', 'u', '0', '0', HexDigit(c as int / 16), HexDigit(c as int % 16)]
    else [c]
  }

  function Escape(s: string): string {
    if s == [] then [] else EscapeChar(s[0]) + Escape(s[1..])
  }

  /** `JSON.stringify(s)` for a string `s`. */
  function Quote(s: string): (r: string)
    ensures |r| >= 2 && r[0] == '"' && r[|r| - 1] == '"'
  {
    ['"'] + Escape(s) + ['"']
  }

  /** The whitespace JSON allows between tokens: space, tab, line feed, carriage return. */
  predicate IsJsonWhitespace(c: char) {
    c == ' ' || c as int == 0x09 || c as int == 0x0A || c as int == 0x0D
  }

  function SkipWhitespace(t: string): (r: string)
    ensures |r| <= |t| && r == t[|t| - |r|..]
    ensures r == [] || !IsJsonWhitespace(r[0])
  {
    if t != [] && IsJsonWhitespace(t[0]) then SkipWhitespace(t[1..]) else t
  }

  /** The character a short escape `\e` stands for, or None. */
  function ShortEscape(e: char): Option<char> {
    if e == '"' then Some('"')
    else if e == '\\' then Some('\\')
    else if e == '/' then Some('/')
    else if e == 'b' then Some(8 as char)
    else if e == 'f' then Some(12 as char)
    else if e == 'n' then Some(10 as char)
    else if e == 'r' then Some(13 as char)
    else if e == 't' then Some(9 as char)
    else None
  }

  predicate IsHighSurrogate(u: nat) {
    0xD800 <= u <= 0xDBFF
  }

  predicate IsLowSurrogate(u: nat) {
    0xDC00 <= u <= 0xDFFF
  }

  function Prepend(c: char, r: Option<(string, string)>): Option<(string, string)> {
    if r.Some? then Some(([c] + r.value.0, r.value.1)) else None
  }

  /**
   * The rest of a string literal after its opening quote: the characters up to the
   * closing quote, and the text after it; None when the literal is malformed (an
   * unescaped control character, a bad escape, no closing quote) or escapes a lone
   * surrogate, which a Dafny string cannot hold.
   */
  function StringBody(t: string): Option<(string, string)>
    decreases |t|
  {
    if t == [] then None
    else if t[0] == '"' then Some(([], t[1..]))
    else if t[0] == '\\' then
      if |t| < 2 then None
      else if ShortEscape(t[1]).Some? then Prepend(ShortEscape(t[1]).value, StringBody(t[2..]))
      else if t[1] != 'u' || |t| < 6 then None
      else
        var u := Hex4(t[2..6]);
        if u.None? then None
        else if !IsHighSurrogate(u.value) && !IsLowSurrogate(u.value) then
          Prepend(u.value as char, StringBody(t[6..]))
        else if IsHighSurrogate(u.value) && |t| >= 12 && t[6] == '\\' && t[7] == 'u' then
          var low := Hex4(t[8..12]);
          if low.Some? && IsLowSurrogate(low.value) then
            var cp := 0x10000 + (u.value - 0xD800) * 0x400 + (low.value - 0xDC00);
            Prepend(cp as char, StringBody(t[12..]))
          else None
        else None
    else if t[0] as int < 0x20 then None
    else Prepend(t[0], StringBody(t[1..]))
  }

  /**
   * `JSON.parse(raw)` when its result is a string: Some of that string; None when the
   * text does not parse or parses to something else.
   */
  function ParseString(raw: string): Option<string> {
    var t := SkipWhitespace(raw);
    if t == [] || t[0] != '"' then None
    else
      var body := StringBody(t[1..]);
      if body.Some? && SkipWhitespace(body.value.1) == [] then Some(body.value.0) else None
  }

  /** Reading back the escape of one character gives the character. */
  lemma StringBodyEscapeChar(c: char, tail: string)
    ensures StringBody(EscapeChar(c) + tail) == Prepend(c, StringBody(tail))
  {
    var t := EscapeChar(c) + tail;
    if c == '"' || c == '\\' || c as int in {0x08, 0x0C, 0x0A, 0x0D, 0x09} {
      assert t[2..] == tail;
    } else if c as int < 0x20 {
      var hi, lo := c as int / 16, c as int % 16;
      HexDigitValue(hi);
      HexDigitValue(lo);
      assert t[2..6] == ['0', '0', HexDigit(hi), HexDigit(lo)];
      assert Hex4(t[2..6]) == Some(c as int);
      assert t[6..] == tail;
    } else {
      assert t[1..] == tail;
    }
  }

  /** The body of a literal written by `Escape` reads back as the string, up to the closing quote. */
  lemma {:induction false} StringBodyEscape(s: string, rest: string)
    ensures StringBody(Escape(s) + ['"'] + rest) == Some((s, rest))
  {
    if s == [] {
      assert (Escape(s) + ['"'] + rest)[1..] == rest;
    } else {
      assert Escape(s) + ['"'] + rest == EscapeChar(s[0]) + (Escape(s[1..]) + ['"'] + rest);
      StringBodyEscapeChar(s[0], Escape(s[1..]) + ['"'] + rest);
      StringBodyEscape(s[1..], rest);
      assert [s[0]] + s[1..] == s;
    }
  }

  /** `JSON.parse(JSON.stringify(s)) === s` for every string. */
  lemma ParseQuote(s: string)
    ensures ParseString(Quote(s)) == Some(s)
  {
    var raw := Quote(s);
    assert SkipWhitespace(raw) == raw;
    assert raw[1..] == Escape(s) + ['"'] + [];
    StringBodyEscape(s, []);
  }

  /** Text that does not start (after whitespace) with a quote is no stored string. */
  lemma ParseNotAString(raw: string)
    requires SkipWhitespace(raw) != [] && SkipWhitespace(raw)[0] != '"'
    ensures ParseString(raw) == None
  {
  }
}
