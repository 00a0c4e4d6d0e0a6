/** The colour helper (src/lib/colorUtils.ts): turns `#rrggbb` into a CSS
    `rgba(...)` string with the given opacity, using JavaScript's string
    `replace`, `substring` and `parseInt(_, 16)` exactly as they behave on
    any input. */
module ColorUtils {
  import opened Wrappers
  import JsText

  /** The index of the first `c` in `s`, or `|s|` when there is none. */
  function FirstIndex(s: string, c: char): (i: nat)
    ensures i <= |s| && c !in s[..i]
    ensures i < |s| ==> s[i] == c
  {
    if s == [] || s[0] == c then 0
    else
      var i := 1 + FirstIndex(s[1..], c);
      assert s[..i] == [s[0]] + s[1..][..i - 1];
      i
  }

  /** `s.replace(c, "")` with a one-character string pattern: only the first
      occurrence is removed. */
  function RemoveFirst(s: string, c: char): (r: string)
    ensures c !in s ==> r == s
    ensures c in s ==> exists i :: 0 <= i < |s| && s[i] == c && c !in s[..i] && r == s[..i] + s[i + 1..]
  {
    var i := FirstIndex(s, c);
    if i < |s| then s[..i] + s[i + 1..]
    else
      assert s[..i] == s;
      s
  }

  /** `s.substring(start, end)` for `0 <= start <= end`: the indices are
      clamped to the string's length. */
  function Substring(s: string, start: nat, end: nat): (r: string)
    requires start <= end
    ensures |r| == (if end <= |s| then end else |s|) - (if start <= |s| then start else |s|)
    ensures end <= |s| ==> r == s[start..end]
    ensures end > |s| ==> r == s[(if start <= |s| then start else |s|)..]
  {
    var e := if end <= |s| then end else |s|;
    var b := if start <= e then start else e;
    s[b..e]
  }

  predicate IsHexDigit(c: char) {
    '0' <= c <= '9' || 'a' <= c <= 'f' || 'A' <= c <= 'F'
  }

  function HexDigitValue(c: char): (v: nat)
    requires IsHexDigit(c)
    ensures v < 16
  {
    if '0' <= c <= '9' then c as int - '0' as int
    else if 'a' <= c <= 'f' then c as int - 'a' as int + 10
    else c as int - 'A' as int + 10
  }

  predicate AllHex(s: string) {
    forall i :: 0 <= i < |s| ==> IsHexDigit(s[i])
  }

  /** The number a run of hex digits denotes, most significant first. */
  function HexValue(s: string): (v: nat)
    requires AllHex(s)
    ensures v < Power16(|s|)
  {
    if s == [] then 0 else HexValue(s[..|s| - 1]) * 16 + HexDigitValue(s[|s| - 1])
  }

  function Power16(n: nat): (p: nat)
    ensures p >= 1
  {
    if n == 0 then 1 else 16 * Power16(n - 1)
  }

  /** More digits allow larger values: 16^m <= 16^n for m <= n. */
  lemma {:induction false} Power16Monotone(m: nat, n: nat)
    requires m <= n
    ensures Power16(m) <= Power16(n)
  {
    if m < n {
      Power16Monotone(m, n - 1);
    }
  }

  /** The length of the longest run of hex digits at the start of `s`. */
  function HexPrefixLength(s: string): (n: nat)
    ensures n <= |s| && AllHex(s[..n])
    ensures n < |s| ==> !IsHexDigit(s[n])
  {
    if s == [] || !IsHexDigit(s[0]) then 0
    else
      var n := 1 + HexPrefixLength(s[1..]);
      assert s[..n] == [s[0]] + s[1..][..n - 1];
      n
  }

  /** Drops one leading sign character. */
  function StripSign(t: string): (u: string)
    ensures t == [] || (t[0] != '-' && t[0] != '+') ==> u == t
    ensures t != [] && (t[0] == '-' || t[0] == '+') ==> u == t[1..]
  {
    if t != [] && (t[0] == '-' || t[0] == '+') then t[1..] else t
  }

  /** Drops a leading `0x` or `0X`. */
  function StripHexPrefix(u: string): (d: string)
    ensures |u| >= 2 && u[0] == '0' && (u[1] == 'x' || u[1] == 'X') ==> d == u[2..]
    ensures !(|u| >= 2 && u[0] == '0' && (u[1] == 'x' || u[1] == 'X')) ==> d == u
  {
    if |u| >= 2 && u[0] == '0' && (u[1] == 'x' || u[1] == 'X') then u[2..] else u
  }

  /** A non-empty run of hex digits has no white space, sign or prefix to
      skip and is read in full. */
  lemma PlainHexDigits(s: string)
    requires AllHex(s) && s != []
    ensures JsText.TrimStart(s) == s && StripSign(s) == s && StripHexPrefix(s) == s
    ensures HexPrefixLength(s) == |s|
  {
    HexDigitIsPlain(s[0]);
    if |s| >= 2 {
      HexDigitIsPlain(s[1]);
    }
  }

  /** A hex digit is neither white space, nor a sign, nor the `x` of `0x`. */
  lemma HexDigitIsPlain(c: char)
    requires IsHexDigit(c)
    ensures !JsText.IsWhitespace(c) && c != '-' && c != '+' && c != 'x' && c != 'X' && c != '#'
  {
  }

  /** `parseInt(s, 16)`, with `None` for `NaN`: leading white space is
      skipped, then an optional sign, then an optional `0x`/`0X`, and the
      longest run of hex digits that follows is read; no digits gives NaN. */
  function ParseIntHex(s: string): (r: Option<int>)
    ensures AllHex(s) && s != [] ==> r == Some(HexValue(s))
    ensures s == [] ==> r.None?
    ensures r.Some? ==> -(Power16(|s|) as int) < r.value < Power16(|s|)
  {
    var t := JsText.TrimStart(s);
    var digits := StripHexPrefix(StripSign(t));
    var n := HexPrefixLength(digits);
    if n == 0 then
      assert AllHex(s) ==> s == [] by {
        if AllHex(s) && s != [] {
          PlainHexDigits(s);
        }
      }
      None
    else
      var v: int := HexValue(digits[..n]);
      assert AllHex(s) && s != [] ==> t == s && digits[..n] == s by {
        if AllHex(s) && s != [] {
          PlainHexDigits(s);
          assert digits[..n] == s;
        }
      }
      Power16Monotone(n, |s|);
      Some(if t != [] && t[0] == '-' then -v else v)
  }

  /** How a parsed component appears in the template string. */
  function Show(n: Option<int>): string {
    if n.Some? then JsText.IntToString(n.value) else "NaN"
  }

  /** The three parsed components: the first `#` removed, then characters
      0-1, 2-3 and 4-5 of what is left. Each is NaN or a number below 256
      in magnitude. */
  function Components(hex: string): (rgb: (Option<int>, Option<int>, Option<int>))
    ensures rgb.0.Some? ==> -256 < rgb.0.value < 256
    ensures rgb.1.Some? ==> -256 < rgb.1.value < 256
    ensures rgb.2.Some? ==> -256 < rgb.2.value < 256
  {
    var clean := RemoveFirst(hex, '#');
    var r, g, b := Substring(clean, 0, 2), Substring(clean, 2, 4), Substring(clean, 4, 6);
    PairBound(r);
    PairBound(g);
    PairBound(b);
    (ParseIntHex(r), ParseIntHex(g), ParseIntHex(b))
  }

  /** A component of at most two characters parses to less than 256 in
      magnitude. */
  lemma PairBound(s: string)
    requires |s| <= 2
    ensures ParseIntHex(s).Some? ==> -256 < ParseIntHex(s).value < 256
  {
    Power16Monotone(|s|, 2);
    assert Power16(2) == 256;
  }

  /** `hexToRgba(hex, opacity)`; `opacity` is the number as the template
      renders it. */
  function HexToRgba(hex: string, opacity: string): string {
    Render(Components(hex), opacity)
  }

  /** The template `rgba(${r}, ${g}, ${b}, ${opacity})`: whatever the
      components, the text opens with `rgba(` and closes with the opacity
      and `)`. */
  function Render(rgb: (Option<int>, Option<int>, Option<int>), opacity: string): (r: string)
    ensures |r| > 5 + |opacity| && r[..5] == "rgba(" && r[|r| - |opacity| - 1..] == opacity + ")"
  {
    var middle := Show(rgb.0) + ", " + Show(rgb.1) + ", " + Show(rgb.2) + ", ";
    var r := "rgba(" + middle + opacity + ")";
    assert r == "rgba(" + (middle + (opacity + ")"));
    PrefixKept("rgba(", middle + (opacity + ")"), 5);
    r
  }

  /** The value of two hex digits, high digit first: a byte. */
  lemma TwoDigitValue(s: string)
    requires |s| == 2 && AllHex(s)
    ensures HexValue(s) == 16 * HexDigitValue(s[0]) + HexDigitValue(s[1]) <= 255
  {
    assert s[..1] == [s[0]] && [s[0]][..0] == [];
    assert HexValue(s) == HexValue(s[..1]) * 16 + HexDigitValue(s[1]);
    assert HexValue(s[..1]) == HexDigitValue(s[0]);
  }

  /** The value of colour channel `i` (0 red, 1 green, 2 blue) of a string
      of hex digits: the byte its digits `2i` and `2i + 1` denote. */
  function Channel(hex: string, i: nat): (v: nat)
    requires |hex| >= 2 * i + 2 && AllHex(hex)
    ensures v == 16 * HexDigitValue(hex[2 * i]) + HexDigitValue(hex[2 * i + 1]) <= 255
  {
    var pair := hex[2 * i..2 * i + 2];
    TwoDigitValue(pair);
    HexValue(pair)
  }

  /** Channel `i` of six hex digits is what `parseInt` makes of digits `2i`
      and `2i + 1`. */
  lemma ChannelParsed(hex: string, i: nat)
    requires |hex| == 6 && AllHex(hex) && i < 3
    ensures Show(ParseIntHex(Substring(hex, 2 * i, 2 * i + 2))) == JsText.NatToString(Channel(hex, i))
  {
    var pair := hex[2 * i..2 * i + 2];
    assert Substring(hex, 2 * i, 2 * i + 2) == pair;
    assert AllHex(pair);
    ShowNatural(HexValue(pair));
  }

  /** A parsed non-negative number shows as its decimal digits. */
  lemma ShowNatural(n: nat)
    ensures Show(Some(n)) == JsText.NatToString(n)
  {
  }

  /** Six hex digits, with or without `#`, give the three bytes of the
      colour and the opacity verbatim. */
  lemma SixDigits(hex: string, opacity: string)
    requires |hex| == 6 && AllHex(hex)
    ensures HexToRgba(hex, opacity)
            == "rgba(" + JsText.NatToString(Channel(hex, 0)) + ", " + JsText.NatToString(Channel(hex, 1)) + ", "
               + JsText.NatToString(Channel(hex, 2)) + ", " + opacity + ")"
    ensures HexToRgba("#" + hex, opacity) == HexToRgba(hex, opacity)
  {
    SixDigitComponents(hex);
    var rgb := Components(hex);
    assert HexToRgba(hex, opacity) == Render(rgb, opacity);
    RenderText(rgb, opacity);
    OnlyFirstHashRemoved(hex);
    assert Components("#" + hex) == rgb;
  }

  /** The template's text, spelled out. */
  lemma RenderText(rgb: (Option<int>, Option<int>, Option<int>), opacity: string)
    ensures Render(rgb, opacity)
            == "rgba(" + Show(rgb.0) + ", " + Show(rgb.1) + ", " + Show(rgb.2) + ", " + opacity + ")"
  {
  }

  /** The three components of six hex digits without `#` show as the three
      channel values. */
  lemma SixDigitComponents(hex: string)
    requires |hex| == 6 && AllHex(hex)
    ensures RemoveFirst(hex, '#') == hex
    ensures Show(Components(hex).0) == JsText.NatToString(Channel(hex, 0))
    ensures Show(Components(hex).1) == JsText.NatToString(Channel(hex, 1))
    ensures Show(Components(hex).2) == JsText.NatToString(Channel(hex, 2))
  {
    assert '#' !in hex by {
      forall i | 0 <= i < |hex|
        ensures hex[i] != '#'
      {
        HexDigitIsPlain(hex[i]);
      }
    }
    ChannelParsed(hex, 0);
    ChannelParsed(hex, 1);
    ChannelParsed(hex, 2);
  }

  /** A string starting with `#` does not parse as a number. */
  lemma HashIsNaN(s: string)
    requires s != [] && s[0] == '#'
    ensures ParseIntHex(s).None?
  {
    assert !JsText.IsWhitespace(s[0]);
    assert JsText.TrimStart(s) == s;
    assert HexPrefixLength(s) == 0;
  }

  /** Only the first `#` goes. */
  lemma OnlyFirstHashRemoved(rest: string)
    ensures RemoveFirst("#" + rest, '#') == rest
  {
    assert FirstIndex("#" + rest, '#') == 0;
  }

  /** What follows the first `#` is parsed as it stands, so a second `#`
      makes the red component `NaN`. */
  lemma DoubleHashIsNaN(hex: string)
    requires |hex| >= 2 && hex[0] == '#' && hex[1] == '#'
    ensures Components(hex).0.None?
  {
    assert hex == "#" + hex[1..];
    OnlyFirstHashRemoved(hex[1..]);
    var red := Substring(hex[1..], 0, 2);
    assert red[0] == '#';
    HashIsNaN(red);
  }

  /** A component that does not parse shows as `NaN` in the output. */
  lemma RedNaNShows(rgb: (Option<int>, Option<int>, Option<int>), opacity: string)
    requires rgb.0.None?
    ensures Render(rgb, opacity)[..8] == "rgba(NaN"
  {
    var head := "rgba(" + Show(rgb.0);
    assert head == "rgba(NaN";
    var a := head + ", ";
    var b := a + Show(rgb.1);
    var c := b + ", ";
    var d := c + Show(rgb.2);
    var e := d + ", ";
    var f := e + opacity;
    PrefixKept(head, ", ", 8);
    PrefixKept(a, Show(rgb.1), 8);
    PrefixKept(b, ", ", 8);
    PrefixKept(c, Show(rgb.2), 8);
    PrefixKept(d, ", ", 8);
    PrefixKept(e, opacity, 8);
    PrefixKept(f, ")", 8);
  }

  /** Appending keeps a prefix. */
  lemma PrefixKept(a: string, b: string, k: nat)
    requires k <= |a|
    ensures (a + b)[..k] == a[..k]
  {
  }
}
