/**
 * The text form the key/value store writes to its backend: the part of
 * JSON.stringify / JSON.parse that the store relies on, for JSON's scalar
 * values, with numbers limited to the integers a JavaScript number holds
 * exactly. Encode writes the text JSON.stringify writes for those values;
 * Decode reads one value surrounded by optional JSON whitespace and reports
 * a syntax error as None instead of throwing. Decode also gives None for
 * number text outside that domain (fractions, exponents, integers beyond
 * MaxSafeInteger), which JSON.parse would accept and round.
 */
module JsonText {
  import opened Wrappers

  /** Number.MAX_SAFE_INTEGER: every integer of at most this magnitude is
      a double held exactly, and JSON.stringify writes it in plain decimal. */
  const MaxSafeInteger: int := 0x1F_FFFF_FFFF_FFFF

  /** The integers a JavaScript number holds exactly. */
  type SafeInt = n: int | -MaxSafeInteger <= n <= MaxSafeInteger

  /** A serialisable value: JSON's scalars, numbers restricted to safe integers. */
  datatype Json = JNull | JBool(b: bool) | JNum(n: SafeInt) | JStr(s: string)

  // ----- decimal digits -----

  predicate IsDigit(c: char) { '0' <= c <= '9' }

  predicate AllDigits(t: string) { forall i | 0 <= i < |t| :: IsDigit(t[i]) }

  function DigitChar(d: nat): (c: char)
    requires d < 10
    ensures IsDigit(c) && c as int - '0' as int == d
  {
    (d + '0' as int) as char
  }

  /** The decimal numeral of n, without leading zeros. */
  function NatText(n: nat): (t: string)
    ensures t != [] && AllDigits(t)
    ensures t[0] == '0' <==> n == 0
    ensures n < 10 ==> |t| == 1
    decreases n
  {
    if n < 10 then [DigitChar(n)] else NatText(n / 10) + [DigitChar(n % 10)]
  }

  /** The value of a numeral. */
  function TextNat(t: string): nat
    requires AllDigits(t)
  {
    if t == [] then 0 else 10 * TextNat(t[..|t| - 1]) + (t[|t| - 1] as int - '0' as int)
  }

  lemma {:induction false} TextNatOfNatText(n: nat)
    ensures TextNat(NatText(n)) == n
  {
    if n >= 10 {
      var t := NatText(n);
      assert t[..|t| - 1] == NatText(n / 10);
      TextNatOfNatText(n / 10);
    }
  }

  /** The length of the run of digits that t starts with. */
  function DigitRun(t: string): (k: nat)
    ensures k <= |t| && AllDigits(t[..k])
    ensures k < |t| ==> !IsDigit(t[k])
  {
    if t != [] && IsDigit(t[0]) then
      var k := 1 + DigitRun(t[1..]);
      assert forall i | 1 <= i < k :: t[..k][i] == t[1..][..k - 1][i - 1];
      k
    else 0
  }

  lemma {:induction false} DigitRunOfNumeral(d: string, rest: string)
    requires AllDigits(d)
    requires rest == [] || !IsDigit(rest[0])
    ensures DigitRun(d + rest) == |d|
  {
    if d != [] {
      assert (d + rest)[1..] == d[1..] + rest;
      DigitRunOfNumeral(d[1..], rest);
    }
  }

  /** A JSON natural number: a run of digits with no leading zero. */
  function ParseNat(t: string): Option<(nat, string)>
  {
    var k := DigitRun(t);
    if k == 0 || (k > 1 && t[0] == '0') then None
    else Some((TextNat(t[..k]), t[k..]))
  }

  function ParseNumber(t: string): Option<(int, string)>
  {
    if t != [] && t[0] == '-' then
      match ParseNat(t[1..])
      case Some((n, rest)) => var negated := -(n as int); Some((negated, rest))
      case None => None
    else
      match ParseNat(t)
      case Some((n, rest)) => Some((n, rest))
      case None => None
  }

  lemma ParseNatOfNatText(n: nat, rest: string)
    requires rest == [] || !IsDigit(rest[0])
    ensures ParseNat(NatText(n) + rest) == Some((n, rest))
  {
    var d := NatText(n);
    DigitRunOfNumeral(d, rest);
    assert (d + rest)[..|d|] == d;
    assert (d + rest)[|d|..] == rest;
    TextNatOfNatText(n);
  }

  // ----- hexadecimal digits, for \u escapes -----

  predicate IsHex(c: char) { IsDigit(c) || 'a' <= c <= 'f' || 'A' <= c <= 'F' }

  function HexValue(c: char): (v: nat)
    requires IsHex(c)
    ensures v < 16
  {
    if IsDigit(c) then c as int - '0' as int
    else if 'a' <= c <= 'f' then c as int - 'a' as int + 10
    else c as int - 'A' as int + 10
  }

  /** Four hexadecimal digits. */
  predicate IsHexQuad(q: string)
  {
    |q| == 4 && IsHex(q[0]) && IsHex(q[1]) && IsHex(q[2]) && IsHex(q[3])
  }

  /** The UTF-16 code unit four hexadecimal digits stand for. */
  function HexQuadValue(q: string): (v: nat)
    requires IsHexQuad(q)
    ensures v < 0x10000
  {
    HexValue(q[0]) * 4096 + HexValue(q[1]) * 256 + HexValue(q[2]) * 16 + HexValue(q[3])
  }

  predicate IsHighSurrogate(v: int) { 0xD800 <= v < 0xDC00 }

  predicate IsLowSurrogate(v: int) { 0xDC00 <= v < 0xE000 }

  /** The lower-case hexadecimal digit JSON.stringify writes. */
  function HexDigit(d: nat): (c: char)
    requires d < 16
    ensures IsHex(c) && HexValue(c) == d
  {
    if d < 10 then DigitChar(d) else (d - 10 + 'a' as int) as char
  }

  // ----- string literals -----

  /** How JSON.stringify writes one character inside a string literal. */
  function EscapeChar(c: char): string
  {
    if c == '"' then ['\\', '"']
    else if c == '\\' then ['\\', '\\']
    else if c == '\n' then ['\\', 'n']
    else if c == '\r' then ['\\', 'r']
    else if c == '\t' then ['\\', 't']
    else if c as int == 8 then ['\\', 'b']
    else if c as int == 12 then ['\\', 'f']
    else if c as int < 0x20 then ['\\', 'u', '0', '0', HexDigit(c as int / 16), HexDigit(c as int % 16)]
    else [c]
  }

  function Escape(s: string): string
  {
    if s == [] then [] else EscapeChar(s[0]) + Escape(s[1..])
  }

  /** The character a UTF-16 surrogate pair encodes. */
  function FromSurrogates(hi: int, lo: int): (c: char)
    requires IsHighSurrogate(hi) && IsLowSurrogate(lo)
    ensures 0x10000 <= c as int
  {
    (0x10000 + (hi - 0xD800) * 0x400 + (lo - 0xDC00)) as char
  }

  /** Reads the escape that follows a backslash: the character it stands
      for and how many characters after the backslash it takes. A \u
      escape of a high surrogate must be followed by a \u escape of a low
      surrogate, and the pair denotes one character; a lone surrogate is
      refused, as Dafny's characters cannot hold it. */
  function Unescape(u: string): (r: Option<(char, nat)>)
    ensures r.Some? ==> 1 <= r.value.1 <= |u|
  {
    if u == [] then None
    else if u[0] == '"' then Some(('"', 1))
    else if u[0] == '\\' then Some(('\\', 1))
    else if u[0] == '/' then Some(('/', 1))
    else if u[0] == 'b' then Some((8 as char, 1))
    else if u[0] == 'f' then Some((12 as char, 1))
    else if u[0] == 'n' then Some(('\n', 1))
    else if u[0] == 'r' then Some(('\r', 1))
    else if u[0] == 't' then Some(('\t', 1))
    else if u[0] == 'u' then UnicodeEscape(u)
    else None
  }

  /** Reads a \u escape, u starting at the 'u'. */
  function UnicodeEscape(u: string): (r: Option<(char, nat)>)
    requires u != [] && u[0] == 'u'
    ensures r.Some? ==> 1 <= r.value.1 <= |u|
  {
    if |u| >= 5 && IsHexQuad(u[1..5]) then
      var v := HexQuadValue(u[1..5]);
      if v < 0xD800 || 0xE000 <= v then Some((v as char, 5))
      else if IsHighSurrogate(v) then LowSurrogateEscape(v, u[5..])
      else None
    else None
  }

  /** Completes a surrogate pair whose high half hi has been read: t must
      start with the \u escape of a low surrogate. Counts include the
      first escape's five characters. */
  function LowSurrogateEscape(hi: int, t: string): (r: Option<(char, nat)>)
    requires IsHighSurrogate(hi)
    ensures r.Some? ==> r.value.1 == 11 && |t| >= 6
  {
    if |t| >= 6 && t[0] == '\\' && t[1] == 'u' && IsHexQuad(t[2..6]) && IsLowSurrogate(HexQuadValue(t[2..6])) then
      Some((FromSurrogates(hi, HexQuadValue(t[2..6])), 11))
    else None
  }

  /** Four lower-case hexadecimal digits for a UTF-16 code unit. */
  function HexQuadText(v: nat): (q: string)
    requires v < 0x10000
    ensures IsHexQuad(q) && HexQuadValue(q) == v
  {
    var v1 := v / 16;
    var v2 := v1 / 16;
    assert v == 16 * v1 + v % 16 && v1 == 16 * v2 + v1 % 16 && v2 == 16 * (v2 / 16) + v2 % 16;
    [HexDigit(v2 / 16), HexDigit(v2 % 16), HexDigit(v1 % 16), HexDigit(v % 16)]
  }

  /** The \u escape of a character outside the Basic Multilingual Plane:
      its UTF-16 surrogate pair, each half written as a \u escape. */
  function PairEscape(c: char): (e: string)
    requires 0x10000 <= c as int
    ensures |e| == 12
  {
    var k := c as int - 0x10000;
    ['\\', 'u'] + HexQuadText(0xD800 + k / 0x400) + ['\\', 'u'] + HexQuadText(0xDC00 + k % 0x400)
  }

  /** The surrogate halves PairEscape writes recombine to the character. */
  lemma SurrogateHalves(c: char)
    requires 0x10000 <= c as int
    ensures var k := c as int - 0x10000;
            && IsHighSurrogate(0xD800 + k / 0x400) && IsLowSurrogate(0xDC00 + k % 0x400)
            && FromSurrogates(0xD800 + k / 0x400, 0xDC00 + k % 0x400) == c
  {
    var k := c as int - 0x10000;
    assert k == 0x400 * (k / 0x400) + k % 0x400;
  }

  lemma UnicodeEscapeOfHigh(hi: int, t: string)
    requires IsHighSurrogate(hi)
    ensures UnicodeEscape(['u'] + HexQuadText(hi) + t) == LowSurrogateEscape(hi, t)
  {
    var q := HexQuadText(hi);
    var u := ['u'] + q + t;
    assert u[1..5] == q;
    assert u[5..] == t;
  }

  lemma LowSurrogateEscapeOf(hi: int, lo: int, t: string)
    requires IsHighSurrogate(hi) && IsLowSurrogate(lo)
    ensures LowSurrogateEscape(hi, ['\\', 'u'] + HexQuadText(lo) + t) == Some((FromSurrogates(hi, lo), 11))
  {
    var q := HexQuadText(lo);
    var w := ['\\', 'u'] + q + t;
    assert w[2..6] == q;
  }

  /** A surrogate-pair escape reads back as the one character it encodes. */
  lemma UnescapePair(c: char, t: string)
    requires 0x10000 <= c as int
    ensures Unescape(PairEscape(c)[1..] + t) == Some((c, 11))
  {
    var k := c as int - 0x10000;
    var hi, lo := 0xD800 + k / 0x400, 0xDC00 + k % 0x400;
    SurrogateHalves(c);
    var qh, ql := HexQuadText(hi), HexQuadText(lo);
    var w := ['\\', 'u'] + ql + t;
    var u := PairEscape(c)[1..] + t;
    assert u == ['u'] + qh + w;
    UnicodeEscapeOfHigh(hi, w);
    LowSurrogateEscapeOf(hi, lo, t);
  }

  function Prepend(c: char, r: Option<(string, string)>): Option<(string, string)>
  {
    match r
    case Some((s, rest)) => Some(([c] + s, rest))
    case None => None
  }

  /** Reads the body of a string literal up to its closing quote: the
      characters it denotes and the text after the quote. */
  function ParseChars(t: string): Option<(string, string)>
    decreases |t|
  {
    if t == [] then None
    else if t[0] == '"' then Some(([], t[1..]))
    else if t[0] == '\\' then
      match Unescape(t[1..])
      case Some((c, n)) => Prepend(c, ParseChars(t[1 + n..]))
      case None => None
    else if t[0] as int < 0x20 then None
    else Prepend(t[0], ParseChars(t[1..]))
  }

  /** Reading a literal past one escape: a backslash and the n characters
      Unescape takes, which stand for c. */
  lemma ParseCharsAfterEscape(e: string, c: char, t: string)
    requires |e| >= 2 && e[0] == '\\' && Unescape(e[1..] + t) == Some((c, |e| - 1))
    ensures ParseChars(e + t) == Prepend(c, ParseChars(t))
  {
    assert (e + t)[1..] == e[1..] + t;
    assert (e + t)[|e|..] == t;
  }

  lemma UnicodeEscapeOfControl(c: char, t: string)
    requires c as int < 0x20
    ensures UnicodeEscape(['u', '0', '0', HexDigit(c as int / 16), HexDigit(c as int % 16)] + t) == Some((c, 5))
  {
    var q := ['0', '0', HexDigit(c as int / 16), HexDigit(c as int % 16)];
    var u := ['u'] + q + t;
    assert ['u', '0', '0', HexDigit(c as int / 16), HexDigit(c as int % 16)] + t == u;
    assert u[1..5] == q;
    assert HexQuadValue(q) == c as int;
  }

  lemma ParseEscapedChar(c: char, t: string)
    ensures ParseChars(EscapeChar(c) + t) == Prepend(c, ParseChars(t))
  {
    var e := EscapeChar(c);
    if |e| == 1 {
      assert (e + t)[1..] == t;
    } else if |e| == 2 {
      assert e[1..] + t == [e[1]] + t;
      ParseCharsAfterEscape(e, c, t);
    } else {
      UnicodeEscapeOfControl(c, t);
      assert e[1..] == ['u', '0', '0', HexDigit(c as int / 16), HexDigit(c as int % 16)];
      ParseCharsAfterEscape(e, c, t);
    }
  }

  lemma {:induction false} ParseEscaped(s: string, rest: string)
    ensures ParseChars(Escape(s) + ['"'] + rest) == Some((s, rest))
  {
    if s == [] {
      assert Escape(s) + ['"'] + rest == ['"'] + rest;
    } else {
      var tail := Escape(s[1..]) + ['"'] + rest;
      assert Escape(s) + ['"'] + rest == EscapeChar(s[0]) + tail;
      ParseEscapedChar(s[0], tail);
      ParseEscaped(s[1..], rest);
      assert [s[0]] + s[1..] == s;
    }
  }

  /** Reading a literal written with surrogate-pair escapes takes one
      escape at a time. */
  lemma ParsePairEscapesStep(s: string, rest: string)
    requires s != [] && forall i | 0 <= i < |s| :: 0x10000 <= s[i] as int
    ensures ParseChars(PairEscapes(s) + ['"'] + rest)
         == Prepend(s[0], ParseChars(PairEscapes(s[1..]) + ['"'] + rest))
  {
    var e := PairEscape(s[0]);
    var tail := PairEscapes(s[1..]) + ['"'] + rest;
    assert PairEscapes(s) + ['"'] + rest == e + tail;
    UnescapePair(s[0], tail);
    ParseCharsAfterEscape(e, s[0], tail);
  }

  /** A string literal holding surrogate-pair escapes reads as the
      characters they encode. */
  lemma {:induction false} ParsePairEscaped(s: string, rest: string)
    requires forall i | 0 <= i < |s| :: 0x10000 <= s[i] as int
    ensures ParseChars(PairEscapes(s) + ['"'] + rest) == Some((s, rest))
  {
    if s == [] {
      assert PairEscapes(s) + ['"'] + rest == ['"'] + rest;
    } else {
      ParsePairEscapesStep(s, rest);
      ParsePairEscaped(s[1..], rest);
      assert [s[0]] + s[1..] == s;
    }
  }

  function PairEscapes(s: string): string
    requires forall i | 0 <= i < |s| :: 0x10000 <= s[i] as int
  {
    if s == [] then [] else PairEscape(s[0]) + PairEscapes(s[1..])
  }

  // ----- whole values -----

  /** JSON.stringify for the modelled values. */
  function Encode(v: Json): string
  {
    match v
    case JNull => "null"
    case JBool(b) => if b then "true" else "false"
    case JNum(n) => if n < 0 then ['-'] + NatText(-n) else NatText(n)
    case JStr(s) => ['"'] + Escape(s) + ['"']
  }

  /** Reads one value at the start of t and returns the text after it. */
  function ParseValue(t: string): Option<(Json, string)>
  {
    if |t| >= 4 && t[..4] == "null" then Some((JNull, t[4..]))
    else if |t| >= 4 && t[..4] == "true" then Some((JBool(true), t[4..]))
    else if |t| >= 5 && t[..5] == "false" then Some((JBool(false), t[5..]))
    else if t != [] && t[0] == '"' then
      match ParseChars(t[1..])
      case Some((s, rest)) => Some((JStr(s), rest))
      case None => None
    else
      match ParseNumber(t)
      case Some((n, rest)) => if -MaxSafeInteger <= n <= MaxSafeInteger then Some((JNum(n), rest)) else None
      case None => None
  }

  predicate IsSpace(c: char) { c == ' ' || c == '\t' || c == '\n' || c == '\r' }

  function SkipSpace(t: string): (r: string)
    ensures r == [] || !IsSpace(r[0])
  {
    if t != [] && IsSpace(t[0]) then SkipSpace(t[1..]) else t
  }

  /** JSON.parse for the modelled values: None where JSON.parse throws. */
  function Decode(text: string): Option<Json>
  {
    match ParseValue(SkipSpace(text))
    case Some((v, rest)) => if SkipSpace(rest) == [] then Some(v) else None
    case None => None
  }

  lemma ParseNumberOfNumeral(n: int)
    ensures ParseNumber(if n < 0 then ['-'] + NatText(-n) else NatText(n)) == Some((n, []))
  {
    var m: nat := if n < 0 then -n else n;
    var d := NatText(m);
    ParseNatOfNatText(m, []);
    assert d + [] == d;
    if n < 0 {
      assert (['-'] + d)[1..] == d;
    }
  }

  /** A value that does not start with n, t, f or a quote is a number. */
  lemma ParseValueOfNumberText(t: string)
    requires t != [] && (t[0] == '-' || IsDigit(t[0]))
    ensures ParseValue(t) == match ParseNumber(t)
                             case Some((n, rest)) => if -MaxSafeInteger <= n <= MaxSafeInteger then Some((JNum(n), rest)) else None
                             case None => None
  {
    assert |t| >= 4 ==> t[..4][0] != "null"[0] && t[..4][0] != "true"[0];
    assert |t| >= 5 ==> t[..5][0] != "false"[0];
  }

  lemma ParseValueOfNumber(n: SafeInt)
    ensures ParseValue(Encode(JNum(n))) == Some((JNum(n), []))
  {
    var t := Encode(JNum(n));
    ParseNumberOfNumeral(n);
    ParseValueOfNumberText(t);
  }

  /** A quoted literal whose body reads as s, with nothing after it. */
  lemma ParseValueOfLiteral(body: string, s: string)
    requires ParseChars(body + ['"']) == Some((s, []))
    ensures ParseValue(['"'] + body + ['"']) == Some((JStr(s), []))
  {
    var t := ['"'] + body + ['"'];
    assert t[1..] == body + ['"'];
    assert |t| >= 4 ==> t[..4][0] != "null"[0] && t[..4][0] != "true"[0];
    assert |t| >= 5 ==> t[..5][0] != "false"[0];
  }

  lemma ParseValueOfString(s: string)
    ensures ParseValue(Encode(JStr(s))) == Some((JStr(s), []))
  {
    ParseEscaped(s, []);
    assert Escape(s) + ['"'] + [] == Escape(s) + ['"'];
    ParseValueOfLiteral(Escape(s), s);
  }

  lemma ParseValueOfEncode(v: Json)
    ensures ParseValue(Encode(v)) == Some((v, []))
  {
    match v
    case JNull =>
      assert "null"[..4] == "null" && "null"[4..] == [];
    case JBool(b) =>
      if b {
        assert "true"[..4][0] != "null"[0];
        assert "true"[..4] == "true" && "true"[4..] == [];
        assert ParseValue("true") == Some((JBool(true), []));
      } else {
        assert "false"[..4][0] != "null"[0] && "false"[..4][0] != "true"[0];
        assert "false"[..5] == "false" && "false"[5..] == [];
        assert ParseValue("false") == Some((JBool(false), []));
      }
    case JNum(n) => ParseValueOfNumber(n);
    case JStr(s) => ParseValueOfString(s);
  }

  /** Every modelled value reads back as itself. */
  lemma DecodeEncode(v: Json)
    ensures Decode(Encode(v)) == Some(v)
  {
    ParseValueOfEncode(v);
    assert SkipSpace(Encode(v)) == Encode(v);
  }

  /** The surrogate-pair escape of U+1F600. */
  lemma PairEscapeOfGrinningFace()
    ensures PairEscape('\U{1F600}') == "\\ud83d\\ude00"
  {
    assert 0x1F600 - 0x10000 == 0xF600 && 0xF600 / 0x400 == 0x3D && 0xF600 % 0x400 == 0x200;
    assert 0xD83D / 16 == 0xD83 && 0xD83 / 16 == 0xD8;
    assert HexQuadText(0xD83D) == "d83d";
    assert 0xDE00 / 16 == 0xDE0 && 0xDE0 / 16 == 0xDE;
    assert HexQuadText(0xDE00) == "de00";
  }

  /** A quoted literal whose body reads as s decodes to the string s. */
  lemma DecodeLiteral(body: string, s: string)
    requires ParseChars(body + ['"']) == Some((s, []))
    ensures Decode(['"'] + body + ['"']) == Some(JStr(s))
  {
    ParseValueOfLiteral(body, s);
    var t := ['"'] + body + ['"'];
    assert t[0] == '"';
  }

  /** JSON.parse of a string literal holding the surrogate-pair escape of
      a character outside the Basic Multilingual Plane is the one-character
      string; with PairEscapeOfGrinningFace, the text "\ud83d\ude00"
      (quotes included) decodes to U+1F600. */
  lemma DecodePairEscape(c: char)
    requires 0x10000 <= c as int
    ensures Decode(['"'] + PairEscape(c) + ['"']) == Some(JStr([c]))
  {
    var e := PairEscape(c);
    assert ParseChars(e + ['"']) == Some(([c], [])) by {
      UnescapePair(c, ['"']);
      ParseCharsAfterEscape(e, c, ['"']);
      assert ['"'][1..] == [];
      assert ParseChars(['"']) == Some(([], []));
      assert [c] + [] == [c];
    }
    DecodeLiteral(e, [c]);
  }
}
