/** String operations the components rely on: `String.prototype.trim`,
    the decimal rendering of an integer (`toString()` and template
    literals), and `toUpperCase` on the letters the model needs. */
module Text {

  /** The characters `trim()` removes: ECMAScript's WhiteSpace (TAB, VT, FF,
      ZWNBSP and every space separator of the Unicode category Zs) and its
      LineTerminator characters (LF, CR, LS, PS). */
  predicate IsWhitespace(c: char) {
    || c == '\t' || c == '\U{000B}' || c == '\U{000C}' || c == '\U{FEFF}'
    || c == ' ' || c == '\U{00A0}' || c == '\U{1680}'
    || ('\U{2000}' <= c <= '\U{200A}')
    || c == '\U{202F}' || c == '\U{205F}' || c == '\U{3000}'
    || c == '\n' || c == '\r' || c == '\U{2028}' || c == '\U{2029}'
  }

  /** Every character of `s` is whitespace; the empty string is blank. */
  predicate Blank(s: string) {
    forall i | 0 <= i < |s| :: IsWhitespace(s[i])
  }

  /** `s` with its leading whitespace removed. */
  function TrimStart(s: string): (r: string)
    ensures |r| <= |s| && r == s[|s| - |r|..]
    ensures r == [] || !IsWhitespace(r[0])
    ensures Blank(s[..|s| - |r|])
  {
    if s != [] && IsWhitespace(s[0]) then
      var r := TrimStart(s[1..]);
      assert s[..|s| - |r|] == [s[0]] + s[1..][..|s| - 1 - |r|];
      r
    else
      s
  }

  /** `s` with its trailing whitespace removed. */
  function TrimEnd(s: string): (r: string)
    ensures |r| <= |s| && r == s[..|r|]
    ensures r == [] || !IsWhitespace(r[|r| - 1])
    ensures Blank(s[|r|..])
  {
    if s != [] && IsWhitespace(s[|s| - 1]) then
      var r := TrimEnd(s[..|s| - 1]);
      assert s[|r|..] == s[..|s| - 1][|r|..] + [s[|s| - 1]];
      r
    else
      s
  }

  /** `String.prototype.trim`: the trimmed string is empty exactly when `s`
      is blank, and otherwise neither starts nor ends with whitespace. */
  function Trim(s: string): (r: string)
    ensures |r| <= |s|
    ensures r == [] <==> Blank(s)
    ensures r != [] ==> !IsWhitespace(r[0]) && !IsWhitespace(r[|r| - 1])
  {
    TrimBlank(s);
    TrimEnd(TrimStart(s))
  }

  /** The two-sided trim is empty exactly when the string is blank. */
  lemma TrimBlank(s: string)
    ensures TrimEnd(TrimStart(s)) == [] <==> Blank(s)
  {
    var t := TrimStart(s);
    var k := |s| - |t|;
    if TrimEnd(t) == [] {
      assert Blank(t) by { assert t == t[0..]; }
      assert t == [];
      assert s == s[..k];
    }
  }

  /** The number of UTF-16 code units a character takes: two (a surrogate
      pair) beyond U+FFFF, otherwise one. */
  function CodeUnits(c: char): nat {
    if c as int > 0xFFFF then 2 else 1
  }

  /** JavaScript's `length` of `s`, which counts UTF-16 code units, not
      characters. */
  function Utf16Length(s: string): (n: nat)
    ensures |s| <= n <= 2 * |s|
  {
    if s == [] then 0 else Utf16Length(s[..|s| - 1]) + CodeUnits(s[|s| - 1])
  }

  /** Every character of `s` lies in the Basic Multilingual Plane. */
  predicate InBasicPlane(s: string) {
    forall i | 0 <= i < |s| :: s[i] as int <= 0xFFFF
  }

  /** For text within the Basic Multilingual Plane, `length` is the number
      of characters. */
  lemma {:induction false} Utf16LengthBasicPlane(s: string)
    requires InBasicPlane(s)
    ensures Utf16Length(s) == |s|
  {
    if s != [] {
      Utf16LengthBasicPlane(s[..|s| - 1]);
    }
  }

  /** Text made only of characters beyond U+FFFF has twice as many code
      units as characters. */
  lemma {:induction false} Utf16LengthAstral(s: string)
    requires forall i | 0 <= i < |s| :: s[i] as int > 0xFFFF
    ensures Utf16Length(s) == 2 * |s|
  {
    if s != [] {
      Utf16LengthAstral(s[..|s| - 1]);
    }
  }

  /** `s.trim().length`: zero exactly when `s` is blank, and between the
      number of characters of the trimmed text and twice that number. */
  function TrimmedLength(s: string): (n: nat)
    ensures n == 0 <==> Blank(s)
    ensures |Trim(s)| <= n <= 2 * |Trim(s)|
  {
    Utf16Length(Trim(s))
  }

  /** A string that neither starts nor ends with whitespace is its own trim. */
  lemma {:induction false} TrimUnchanged(s: string)
    requires s == [] || (!IsWhitespace(s[0]) && !IsWhitespace(s[|s| - 1]))
    ensures Trim(s) == s
  {
    assert TrimStart(s) == s;
    assert TrimEnd(s) == s;
  }

  predicate IsDigit(c: char) {
    '0' <= c <= '9'
  }

  function DigitChar(d: nat): (c: char)
    requires d < 10
    ensures IsDigit(c)
  {
    ('0' as int + d) as char
  }

  function DigitValue(c: char): nat
    requires IsDigit(c)
  {
    c as int - '0' as int
  }

  /** The decimal rendering of a natural number, without leading zeros. */
  function NatToString(n: nat): (r: string)
    ensures r != [] && forall i | 0 <= i < |r| :: IsDigit(r[i])
    decreases n
  {
    if n < 10 then [DigitChar(n)] else NatToString(n / 10) + [DigitChar(n % 10)]
  }

  /** The number a string of decimal digits denotes. */
  function ParseDigits(s: string): nat
    requires forall i | 0 <= i < |s| :: IsDigit(s[i])
  {
    if s == [] then 0 else 10 * ParseDigits(s[..|s| - 1]) + DigitValue(s[|s| - 1])
  }

  /** Reading back the rendering of `n` gives `n`. */
  lemma {:induction false} ParseNatToString(n: nat)
    ensures ParseDigits(NatToString(n)) == n
    decreases n
  {
    if n >= 10 {
      var s := NatToString(n);
      assert s[..|s| - 1] == NatToString(n / 10);
      ParseNatToString(n / 10);
    }
  }

  /** The decimal rendering of an integer (`String(n)` for an integral
      number): a minus sign for negatives, then the digits. */
  function IntToString(n: int): (r: string)
    ensures r != [] && (r[0] == '-' <==> n < 0)
    ensures forall i | 0 <= i < |r| :: IsDigit(r[i]) || (i == 0 && n < 0)
    ensures IsDigit(r[|r| - 1])
    ensures n >= 0 ==> |r| == |NatToString(n)|
  {
    if n < 0 then "-" + NatToString(-n) else NatToString(n)
  }

  /** Distinct integers have distinct renderings. */
  lemma IntToStringInjective(a: int, b: int)
    requires IntToString(a) == IntToString(b)
    ensures a == b
  {
    if a < 0 {
      assert NatToString(-a) == IntToString(a)[1..] == IntToString(b)[1..] == NatToString(-b);
      ParseNatToString(-a);
      ParseNatToString(-b);
    } else {
      ParseNatToString(a);
      ParseNatToString(b);
    }
  }

  /** The rendering of an integer has no whitespace around it, so trimming
      it changes nothing, and its `length` is its number of characters. */
  lemma IntToStringTrimmed(n: int)
    ensures Trim(IntToString(n)) == IntToString(n)
    ensures TrimmedLength(IntToString(n)) == |IntToString(n)|
  {
    var r := IntToString(n);
    TrimUnchanged(r);
    IntToStringBasicPlane(n);
    Utf16LengthBasicPlane(r);
  }

  /** A rendered integer is made of digits and a minus sign only. */
  lemma IntToStringBasicPlane(n: int)
    ensures InBasicPlane(IntToString(n))
  {
    var r := IntToString(n);
    forall i | 0 <= i < |r| ensures r[i] as int <= 0xFFFF {
      assert IsDigit(r[i]) || r[i] == '-';
    }
  }

  /** The renderings of 0 to 9 are one character long, of 10 to 99 two. */
  lemma {:induction false} NatToStringLength(n: nat)
    ensures n < 10 ==> |NatToString(n)| == 1
    ensures 10 <= n < 100 ==> |NatToString(n)| == 2
  {
    if 10 <= n < 100 {
      assert |NatToString(n / 10)| == 1;
    }
  }

  function UpperChar(c: char): char {
    if 'a' <= c <= 'z' then (c as int - 32) as char else c
  }

  /** `toUpperCase`, restricted to the ASCII letters: every lower-case
      letter becomes its capital, every other character is kept. */
  function Upper(s: string): string {
    seq(|s|, i requires 0 <= i < |s| => UpperChar(s[i]))
  }
}
