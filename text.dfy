/** The JavaScript string primitives the leaderboard code leans on: `trim`,
    rendering an integer with `String(n)` or a template literal, `padStart`,
    `Array.prototype.join` and ASCII letter-case folding. */
module JsText {

  /** The characters `String.prototype.trim` removes: the WhiteSpace and
      LineTerminator code points of ECMAScript (section 12.2 and 12.3 of
      ECMA-262), i.e. tab, vertical tab, form feed, space, no-break space,
      the byte-order mark, the Unicode space separators, LF, CR, LS and PS. */
  predicate IsWhitespace(c: char) {
    || c == '\t' || c == '\n' || c == '\U{000B}' || c == '\U{000C}' || c == '\r'
    || c == ' ' || c == '\U{00A0}' || c == '\U{1680}'
    || ('\U{2000}' <= c <= '\U{200A}')
    || c == '\U{2028}' || c == '\U{2029}' || c == '\U{202F}' || c == '\U{205F}'
    || c == '\U{3000}' || c == '\U{FEFF}'
  }

  predicate AllWhitespace(s: string) {
    forall i :: 0 <= i < |s| ==> IsWhitespace(s[i])
  }

  /** `s.trimStart()`: drops the leading whitespace. */
  function TrimStart(s: string): (r: string)
    ensures |r| <= |s| && r == s[|s| - |r|..]
    ensures r == [] || !IsWhitespace(r[0])
  {
    if s != [] && IsWhitespace(s[0]) then TrimStart(s[1..]) else s
  }

  /** `s.trimEnd()`: drops the trailing whitespace. */
  function TrimEnd(s: string): (r: string)
    ensures |r| <= |s| && r == s[..|r|]
    ensures r == [] || !IsWhitespace(r[|r| - 1])
  {
    if s != [] && IsWhitespace(s[|s| - 1]) then TrimEnd(s[..|s| - 1]) else s
  }

  /** `s.trim()`. */
  function Trim(s: string): string {
    TrimEnd(TrimStart(s))
  }

  /** `s.trimStart()` is empty exactly when every character of `s` is whitespace. */
  lemma {:induction false} TrimStartEmpty(s: string)
    ensures TrimStart(s) == [] <==> AllWhitespace(s)
  {
    if s != [] && IsWhitespace(s[0]) {
      TrimStartEmpty(s[1..]);
      assert AllWhitespace(s) <==> AllWhitespace(s[1..]) by {
        forall i | 0 <= i < |s[1..]| ensures s[1..][i] == s[i + 1] { }
      }
    }
  }

  /** `s.trim() === ''` holds exactly when `s` is empty or all whitespace. */
  lemma {:induction false} TrimEmpty(s: string)
    ensures Trim(s) == [] <==> AllWhitespace(s)
  {
    TrimStartEmpty(s);
    var t := TrimStart(s);
    assert TrimEnd(t) == [] ==> t == [] by {
      if t != [] { TrimEndKeepsNonBlank(t); }
    }
  }

  /** `trimEnd` never empties a string that starts with a non-whitespace character. */
  lemma {:induction false} TrimEndKeepsNonBlank(t: string)
    requires t != [] && !IsWhitespace(t[0])
    ensures TrimEnd(t) != []
  {
    if IsWhitespace(t[|t| - 1]) {
      assert |t| > 1;
      TrimEndKeepsNonBlank(t[..|t| - 1]);
    }
  }

  // ---------------------------------------------------------------------------
  // Decimal rendering of integers, as `String(n)` and `${n}` give it for the
  // integers this model uses (no exponent form: magnitudes below 10^21).

  predicate IsDigit(c: char) {
    '0' <= c <= '9'
  }

  predicate AllDigits(s: string) {
    forall i :: 0 <= i < |s| ==> IsDigit(s[i])
  }

  function DigitChar(d: nat): (c: char)
    requires d < 10
    ensures IsDigit(c) && (c as int) - ('0' as int) == d
  {
    "0123456789"[d]
  }

  /** The decimal digits of `n`, most significant first, without leading zeros. */
  function NatToString(n: nat): (s: string)
    ensures s != [] && AllDigits(s)
    ensures (n < 10) == (|s| == 1)
    ensures n > 0 ==> s[0] != '0'
  {
    if n < 10 then [DigitChar(n)] else NatToString(n / 10) + [DigitChar(n % 10)]
  }

  /** `String(n)` for an integer `n`. */
  function IntToString(n: int): (s: string)
    ensures s != []
  {
    if n < 0 then "-" + NatToString(-n) else NatToString(n)
  }

  /** The number a string of decimal digits denotes: the partner of NatToString. */
  function DecimalValue(s: string): nat
    requires AllDigits(s)
  {
    if s == [] then 0 else DecimalValue(s[..|s| - 1]) * 10 + ((s[|s| - 1] as int) - ('0' as int))
  }

  /** Reading back the digits NatToString writes gives the number again. */
  lemma {:induction false} NatToStringRoundTrip(n: nat)
    ensures DecimalValue(NatToString(n)) == n
  {
    if n >= 10 {
      NatToStringRoundTrip(n / 10);
      var s := NatToString(n);
      assert s[..|s| - 1] == NatToString(n / 10);
    }
  }

  /** NatToString is one-to-one, so distinct numbers are never rendered alike. */
  lemma NatToStringInjective(m: nat, n: nat)
    requires NatToString(m) == NatToString(n)
    ensures m == n
  {
    NatToStringRoundTrip(m);
    NatToStringRoundTrip(n);
  }

  /** Two-digit numbers render as exactly two characters. */
  lemma {:induction false} NatToStringTwoDigits(n: nat)
    requires 10 <= n < 100
    ensures |NatToString(n)| == 2
  {
    assert NatToString(n) == NatToString(n / 10) + [DigitChar(n % 10)];
  }

  // ---------------------------------------------------------------------------

  /** `fill` repeated `n` times. */
  function Repeat(fill: char, n: nat): (r: string)
    ensures |r| == n && forall i :: 0 <= i < n ==> r[i] == fill
  {
    if n == 0 then [] else [fill] + Repeat(fill, n - 1)
  }

  /** `s.padStart(width, fill)` for a one-character `fill`. */
  function PadStart(s: string, width: nat, fill: char): (r: string)
    ensures |s| >= width ==> r == s
    ensures |s| < width ==> |r| == width
    ensures r[|r| - |s|..] == s
    ensures forall i :: 0 <= i < |r| - |s| ==> r[i] == fill
  {
    if |s| >= width then s else Repeat(fill, width - |s|) + s
  }

  /** `xs.join(sep)`, which is also what `String(xs)` gives with `sep == ","`. */
  function Join(xs: seq<string>, sep: string): (r: string)
    ensures xs == [] ==> r == []
    ensures |xs| == 1 ==> r == xs[0]
  {
    if xs == [] then [] else if |xs| == 1 then xs[0] else xs[0] + sep + Join(xs[1..], sep)
  }

  /** Appending a value to a non-empty list appends the separator and that
      value to the joined text, so the separator sits exactly between
      neighbouring values. */
  lemma {:induction false} JoinSnoc(xs: seq<string>, x: string, sep: string)
    requires xs != []
    ensures Join(xs + [x], sep) == Join(xs, sep) + sep + x
  {
    if |xs| == 1 {
      assert xs + [x] == [xs[0], x];
      assert [xs[0], x][1..] == [x];
    } else {
      assert (xs + [x])[1..] == xs[1..] + [x];
      JoinSnoc(xs[1..], x, sep);
    }
  }

  /** ASCII letter-case folding. Of all characters JavaScript's `toLowerCase`
      maps, only the ASCII capitals land on ASCII lower-case letters other than
      `i` and `k`, so for comparisons against lower-case ASCII words that avoid
      those two letters this folding decides exactly what `toLowerCase` would. */
  function AsciiLower(s: string): (r: string)
    ensures |r| == |s|
  {
    if s == [] then [] else
      [if 'A' <= s[0] <= 'Z' then (s[0] as int + 32) as char else s[0]] + AsciiLower(s[1..])
  }
}
