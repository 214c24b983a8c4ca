/**
 * The two pieces of JSON text that the stored user record needs: integers and
 * string literals, as `JSON.stringify` writes them and `JSON.parse` reads them.
 */
module JsonText {
  import opened Wrappers

  predicate IsDigit(c: char) { '0' <= c <= '9' }

  predicate AllDigits(s: string) { forall i :: 0 <= i < |s| ==> IsDigit(s[i]) }

  function DigitChar(d: nat): (c: char)
    requires d < 10
    ensures IsDigit(c)
  {
    ('0' as int + d) as char
  }

  function DigitValue(c: char): nat
    requires IsDigit(c)
  {
    c as int - '0' as int
  }

  /** Decimal text of a natural number, most significant digit first. */
  function NatText(n: nat): (r: string)
    ensures |r| > 0 && AllDigits(r)
  {
    if n < 10 then [DigitChar(n)] else NatText(n / 10) + [DigitChar(n % 10)]
  }

  /** Decimal text of an integer, with a leading '-' when it is negative. */
  function IntText(n: int): (r: string)
  {
    if n < 0 then "-" + NatText(-n) else NatText(n)
  }

  /** The number a run of decimal digits denotes. */
  function DigitsValue(ds: string): nat
    requires AllDigits(ds)
  {
    if ds == [] then 0 else DigitsValue(ds[..|ds| - 1]) * 10 + DigitValue(ds[|ds| - 1])
  }

  /** Length of the longest run of digits at the front of `s`. */
  function DigitRun(s: string): (k: nat)
    ensures k <= |s| && AllDigits(s[..k])
    ensures k < |s| ==> !IsDigit(s[k])
  {
    if s != [] && IsDigit(s[0]) then
      var k := 1 + DigitRun(s[1..]);
      assert s[..k] == [s[0]] + s[1..][..k - 1];
      k
    else 0
  }

  /**
   * Reads a non-empty run of digits; returns the number and the text after it.
   * As in JSON, a number of two or more digits may not start with '0'.
   */
  function ParseNat(s: string): Option<(nat, string)>
  {
    var k := DigitRun(s);
    if k == 0 || (k > 1 && s[0] == '0') then None else Some((DigitsValue(s[..k]), s[k..]))
  }

  /** Reads an optionally negative integer; returns it and the text after it. */
  function ParseInt(s: string): Option<(int, string)>
  {
    if s != [] && s[0] == '-' then
      match ParseNat(s[1..])
      case None => None
      case Some((n, rest)) => Some((-(n as int), rest))
    else ParseNat(s)
  }

  lemma {:induction false} DigitsValueOfNatText(n: nat)
    ensures DigitsValue(NatText(n)) == n
  {
    if n >= 10 {
      var t := NatText(n);
      assert t[..|t| - 1] == NatText(n / 10);
      DigitsValueOfNatText(n / 10);
    }
  }

  /** The text of a number has no leading zero, as JSON requires. */
  lemma {:induction false} NatTextLead(n: nat)
    ensures |NatText(n)| > 1 ==> NatText(n)[0] != '0'
  {
    if n >= 10 {
      NatTextLead(n / 10);
      assert NatText(n)[0] == NatText(n / 10)[0];
    }
  }

  /** A number with a leading zero and more digits after it is refused. */
  lemma LeadingZeroRejected(t: string)
    requires |t| > 1 && t[0] == '0' && IsDigit(t[1])
    ensures ParseNat(t) == None && ParseInt(t) == None && ParseInt("-" + t) == None
  {
    assert ("-" + t)[1..] == t;
  }

  lemma {:induction false} DigitRunOfDigits(t: string, rest: string)
    requires AllDigits(t)
    requires rest == [] || !IsDigit(rest[0])
    ensures DigitRun(t + rest) == |t|
  {
    if t != [] {
      assert (t + rest)[1..] == t[1..] + rest;
      DigitRunOfDigits(t[1..], rest);
    } else {
      assert t + rest == rest;
    }
  }

  /** Reading back the text of an integer gives the integer and leaves what follows it. */
  lemma ParseIntText(n: int, rest: string)
    requires rest == [] || !IsDigit(rest[0])
    ensures ParseInt(IntText(n) + rest) == Some((n, rest))
  {
    var m: nat := if n < 0 then -n else n;
    var t := NatText(m);
    DigitRunOfDigits(t, rest);
    assert (t + rest)[..|t|] == t;
    assert (t + rest)[|t|..] == rest;
    DigitsValueOfNatText(m);
    NatTextLead(m);
    assert ParseNat(t + rest) == Some((m, rest));
    if n < 0 {
      assert ("-" + t + rest)[1..] == t + rest;
    }
  }

  // ---------------------------------------------------------------- strings

  function HexDigit(d: nat): char
    requires d < 16
  {
    if d < 10 then ('0' as int + d) as char else ('a' as int + d - 10) as char
  }

  function HexValue(c: char): Option<nat>
  {
    if '0' <= c <= '9' then Some(c as int - '0' as int)
    else if 'a' <= c <= 'f' then Some(c as int - 'a' as int + 10)
    else if 'A' <= c <= 'F' then Some(c as int - 'A' as int + 10)
    else None
  }

  lemma HexValueOfHexDigit(d: nat)
    requires d < 16
    ensures HexValue(HexDigit(d)) == Some(d)
  {
  }

  /** The value of four hexadecimal digits, as a `\uXXXX` escape spells a code unit. */
  function HexQuad(h: string): Option<nat>
    requires |h| == 4
  {
    match (HexValue(h[0]), HexValue(h[1]), HexValue(h[2]), HexValue(h[3]))
    case (Some(a), Some(b), Some(c), Some(d)) => Some(((a * 16 + b) * 16 + c) * 16 + d)
    case _ => None
  }

  /**
   * How `JSON.stringify` writes one character inside a string literal: the
   * quote and the backslash are escaped, the five control characters with a
   * short escape use it, every other control character becomes `\u00XX` in
   * lower-case hexadecimal, and everything else stands for itself.
   */
  function EscapeChar(c: char): (r: string)
    ensures |r| > 0
  {
    var code := c as int;
    if c == '"' then "\\\""
    else if c == '\\' then "\\\\"
    else if code == 8 then "\\b"
    else if code == 12 then "\\f"
    else if c == '\n' then "\\n"
    else if c == '\r' then "\\r"
    else if c == '\t' then "\\t"
    else if code < 0x20 then "\\u00" + [HexDigit(code / 16), HexDigit(code % 16)]
    else [c]
  }

  /** The body of a JSON string literal for `s`, without the surrounding quotes. */
  function Escape(s: string): string
  {
    if s == [] then [] else EscapeChar(s[0]) + Escape(s[1..])
  }

  /**
   * Reads the escape that follows a backslash: the character it stands for
   * and how many characters of `t` it took.
   */
  function Unescape(t: string): (r: Option<(char, nat)>)
    ensures r.Some? ==> 1 <= r.value.1 <= |t|
  {
    if t == [] then None
    else if t[0] == '"' then Some(('"', 1))
    else if t[0] == '\\' then Some(('\\', 1))
    else if t[0] == '/' then Some(('/', 1))
    else if t[0] == 'b' then Some((8 as char, 1))
    else if t[0] == 'f' then Some((12 as char, 1))
    else if t[0] == 'n' then Some(('\n', 1))
    else if t[0] == 'r' then Some(('\r', 1))
    else if t[0] == 't' then Some(('\t', 1))
    else if t[0] == 'u' && |t| >= 5 then
      match HexQuad(t[1..5])
      case None => None
      case Some(v) => if 0xD800 <= v < 0xE000 then None else Some((v as char, 5))
    else None
  }

  /** Puts `c` in front of the decoded text of a successful read. */
  function Cons(c: char, r: Option<(string, string)>): Option<(string, string)>
  {
    match r
    case None => None
    case Some((body, rest)) => Some(([c] + body, rest))
  }

  /**
   * Reads the body of a string literal up to its closing quote; returns the
   * decoded text and what follows the quote. An unescaped control character,
   * a bad escape or a missing closing quote make it fail, as they make
   * `JSON.parse` throw.
   */
  function ParseStringBody(s: string): Option<(string, string)>
    decreases |s|
  {
    if s == [] then None
    else if s[0] == '"' then Some(([], s[1..]))
    else if s[0] == '\\' then
      match Unescape(s[1..])
      case None => None
      case Some((c, k)) => Cons(c, ParseStringBody(s[1 + k..]))
    else if (s[0] as int) < 0x20 then None
    else Cons(s[0], ParseStringBody(s[1..]))
  }

  /** A control character written as `\u00XX` reads back as itself. */
  lemma ParseHexEscape(c: char, tail: string)
    requires (c as int) < 0x20
    ensures var code := c as int;
      ParseStringBody("\\u00" + [HexDigit(code / 16), HexDigit(code % 16)] + tail) == Cons(c, ParseStringBody(tail))
  {
    var code := c as int;
    var hi, lo := code / 16, code % 16;
    HexValueOfHexDigit(hi);
    HexValueOfHexDigit(lo);
    var quad := ['0', '0', HexDigit(hi), HexDigit(lo)];
    var s := "\\u00" + [HexDigit(hi), HexDigit(lo)] + tail;
    assert s[1..] == ['u'] + quad + tail;
    assert s[1..][1..5] == quad;
    assert HexQuad(quad) == Some(code);
    assert (code as char) == c;
    assert s[6..] == tail;
  }

  /** A backslash and one escape letter read back as the character the letter names. */
  lemma ParseShortEscape(x: char, tail: string)
    requires x != 'u' && Unescape([x]).Some?
    ensures ParseStringBody(['\\', x] + tail) == Cons(Unescape([x]).value.0, ParseStringBody(tail))
  {
    var s := ['\\', x] + tail;
    assert s[1..] == [x] + tail;
    assert s[2..] == tail;
  }

  lemma ParseEscapedChar(c: char, tail: string)
    ensures ParseStringBody(EscapeChar(c) + tail) == Cons(c, ParseStringBody(tail))
  {
    var code := c as int;
    if c == '"' || c == '\\' || code == 8 || code == 12 || c == '\n' || c == '\r' || c == '\t' {
      var e := EscapeChar(c);
      assert e == ['\\', e[1]];
      ParseShortEscape(e[1], tail);
    } else if code < 0x20 {
      ParseHexEscape(c, tail);
    } else {
      assert (EscapeChar(c) + tail)[1..] == tail;
    }
  }

  /** Reading back an escaped string and its closing quote gives the string and what follows. */
  lemma {:induction false} ParseEscaped(s: string, rest: string)
    ensures ParseStringBody(Escape(s) + "\"" + rest) == Some((s, rest))
  {
    if s == [] {
      assert Escape(s) + "\"" + rest == "\"" + rest;
      assert ("\"" + rest)[1..] == rest;
    } else {
      assert Escape(s) + "\"" + rest == EscapeChar(s[0]) + (Escape(s[1..]) + "\"" + rest);
      ParseEscapedChar(s[0], Escape(s[1..]) + "\"" + rest);
      ParseEscaped(s[1..], rest);
      assert [s[0]] + s[1..] == s;
    }
  }
}
