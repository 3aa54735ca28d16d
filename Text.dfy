/** Text helpers shared by all emitters: joining, prefixes, decimal digits,
    fixed-point number rendering and UTF-8 encoding. */
module Text {

  import opened Wrappers

  type uint8 = x: int | 0 <= x < 256

  /** string.Join(sep, xs). */
  function Join(sep: string, xs: seq<string>): string
  {
    if |xs| == 0 then "" else if |xs| == 1 then xs[0] else xs[0] + sep + Join(sep, xs[1..])
  }

  predicate StartsWith(s: string, p: string)
  {
    |p| <= |s| && s[..|p|] == p
  }

  /** A prefix shorter than the fixed head of a line only looks at that head. */
  lemma StartsWithAppend(a: string, b: string, p: string)
    requires |p| <= |a|
    ensures StartsWith(a + b, p) <==> StartsWith(a, p)
  {
    assert (a + b)[..|p|] == a[..|p|];
  }

  // ---------------------------------------------------------------------------
  // Decimal digits (the invariant-culture rendering of an unsigned integer)

  predicate IsDigit(c: char)
  {
    '0' <= c <= '9'
  }

  predicate AllDigits(s: string)
  {
    forall i :: 0 <= i < |s| ==> IsDigit(s[i])
  }

  function DigitChar(d: nat): (c: char)
    requires d < 10
    ensures IsDigit(c) && c as int - '0' as int == d
  {
    (48 + d) as char
  }

  /** n.ToString() for a non-negative integer. */
  function NatText(n: nat): (r: string)
    ensures r != [] && AllDigits(r)
  {
    if n < 10 then [DigitChar(n)] else NatText(n / 10) + [DigitChar(n % 10)]
  }

  /** The value of a string of decimal digits (the empty string is 0). */
  function DigitsValue(s: string): nat
    requires AllDigits(s)
  {
    if s == [] then 0 else DigitsValue(s[..|s| - 1]) * 10 + (s[|s| - 1] as int - '0' as int)
  }

  lemma {:induction false} NatTextValue(n: nat)
    ensures DigitsValue(NatText(n)) == n
  {
    if n >= 10 {
      NatTextValue(n / 10);
      var s := NatText(n);
      assert s[..|s| - 1] == NatText(n / 10);
    }
  }

  lemma NatTextInjective(m: nat, n: nat)
    ensures NatText(m) == NatText(n) ==> m == n
  {
    NatTextValue(m);
    NatTextValue(n);
  }

  /** uint.Parse restricted to plain decimal digits. */
  function ParseNat(s: string): Option<nat>
  {
    if s != [] && AllDigits(s) then Some(DigitsValue(s)) else None
  }

  lemma ParseNatText(n: nat)
    ensures ParseNat(NatText(n)) == Some(n)
  {
    NatTextValue(n);
  }

  // ---------------------------------------------------------------------------
  // Splitting

  /** Index of the first occurrence of c in s, or |s| when there is none. */
  function IndexOf(s: string, c: char): (k: nat)
    ensures k <= |s| && (k < |s| ==> s[k] == c)
    ensures forall i :: 0 <= i < k ==> s[i] != c
  {
    if s == [] then 0 else if s[0] == c then 0 else 1 + IndexOf(s[1..], c)
  }

  lemma IndexOfAfter(a: string, b: string, c: char)
    requires c !in a && b != [] && b[0] == c
    ensures IndexOf(a + b, c) == |a|
  {
    assert (a + b)[|a|] == c;
    assert forall i :: 0 <= i < |a| ==> (a + b)[i] == a[i];
  }

  lemma IndexOfNone(a: string, c: char)
    requires c !in a
    ensures IndexOf(a, c) == |a|
  {
  }

  /** The fields of a ", "-separated list (a lone "," also separates). */
  function SplitFields(s: string): seq<string>
    decreases |s|
  {
    if s == [] then []
    else
      var k := IndexOf(s, ',');
      if k == |s| then [s]
      else if k + 1 < |s| && s[k + 1] == ' ' then [s[..k]] + SplitFields(s[k + 2..])
      else [s[..k]] + SplitFields(s[k + 1..])
  }

  predicate NoComma(xs: seq<string>)
  {
    forall i :: 0 <= i < |xs| ==> xs[i] != [] && ',' !in xs[i]
  }

  /** Joining fields with ", " and splitting the result gives the fields back. */
  lemma {:induction false} SplitJoinFields(xs: seq<string>)
    requires NoComma(xs)
    ensures SplitFields(Join(", ", xs)) == xs
  {
    if |xs| == 1 {
      IndexOfNone(xs[0], ',');
    } else if |xs| > 1 {
      var rest := Join(", ", xs[1..]);
      JoinNonEmpty(", ", xs[1..]);
      IndexOfAfter(xs[0], ", " + rest, ',');
      assert Join(", ", xs) == xs[0] + (", " + rest);
      var s := xs[0] + (", " + rest);
      assert s[..|xs[0]|] == xs[0];
      assert s[|xs[0]| + 2..] == rest;
      SplitJoinFields(xs[1..]);
    }
  }

  lemma Join2(sep: string, a: string, b: string)
    ensures Join(sep, [a, b]) == a + sep + b
  {
    assert [a, b][1..] == [b];
  }

  lemma Join3(sep: string, a: string, b: string, c: string)
    ensures Join(sep, [a, b, c]) == a + sep + b + sep + c
  {
    assert [a, b, c][1..] == [b, c];
    Join2(sep, b, c);
  }

  lemma Join4(sep: string, a: string, b: string, c: string, d: string)
    ensures Join(sep, [a, b, c, d]) == a + sep + b + sep + c + sep + d
  {
    assert [a, b, c, d][1..] == [b, c, d];
    Join3(sep, b, c, d);
  }

  lemma {:induction false} JoinNonEmpty(sep: string, xs: seq<string>)
    requires |xs| > 0 && xs[0] != []
    ensures Join(sep, xs) != [] && Join(sep, xs)[0] == xs[0][0]
  {
  }

  /** s without its first and last characters, when they are open and close. */
  function Unwrap(s: string, open: string, close: string): Option<string>
  {
    if |open| + |close| <= |s| && s[..|open|] == open && s[|s| - |close|..] == close
    then Some(s[|open|..|s| - |close|]) else None
  }

  lemma UnwrapWrap(open: string, body: string, close: string)
    ensures Unwrap(open + body + close, open, close) == Some(body)
  {
    var s := open + body + close;
    assert s[..|open|] == open;
    assert s[|s| - |close|..] == close;
    assert s[|open|..|s| - |close|] == body;
  }

  // ---------------------------------------------------------------------------
  // Number rendering

  /** Characters a rendered number can contain: digits, minus sign, decimal point. */
  predicate NumberChar(c: char)
  {
    IsDigit(c) || c == '-' || c == '.'
  }

  predicate IsNumberToken(s: string)
  {
    s != [] && forall i :: 0 <= i < |s| ==> NumberChar(s[i])
  }

  function Pow10(d: nat): (r: nat)
    ensures r >= 1
  {
    if d == 0 then 1 else 10 * Pow10(d - 1)
  }

  function Zeros(n: nat): (r: string)
    ensures |r| == n && AllDigits(r)
  {
    if n == 0 then "" else "0" + Zeros(n - 1)
  }

  /** The digits of frac, left-padded with zeros to the given width. */
  function PadLeft(s: string, width: nat): (r: string)
    ensures AllDigits(s) ==> AllDigits(r)
    ensures |r| >= width
  {
    if |s| >= width then s else Zeros(width - |s|) + s
  }

  /** |x| * 10^digits rounded half away from zero. */
  function Scaled(x: real, digits: nat): nat
  {
    var m := if x < 0.0 then -x else x;
    var n := (m * Pow10(digits) as real + 0.5).Floor;
    if n < 0 then 0 else n
  }

  /** x.ToString("F" + digits) under the invariant culture: an optional minus
      sign, the integer part, a '.' and exactly `digits` fractional digits. */
  function FormatFixed(x: real, digits: nat): (r: string)
    ensures IsNumberToken(r)
  {
    var n := Scaled(x, digits);
    var p := Pow10(digits);
    (if x < 0.0 then "-" else "") + NatText(n / p)
      + (if digits == 0 then "" else "." + PadLeft(NatText(n % p), digits))
  }

  /** The fractional digits of frac / 10^width with trailing zeros dropped. */
  function ShortFraction(frac: nat, width: nat): (r: string)
    ensures forall i :: 0 <= i < |r| ==> NumberChar(r[i])
  {
    if width == 0 || frac == 0 then ""
    else if frac % 10 == 0 then ShortFraction(frac / 10, width - 1)
    else "." + PadLeft(NatText(frac), width)
  }

  /** Stand-in for the default (round-trip) rendering of a float under the
      invariant culture: like F7 but without trailing zeros and without a
      bare decimal point ("1", "0.5", "-2.25"). Exponent notation is not produced. */
  function FormatDefault(x: real): (r: string)
    ensures IsNumberToken(r)
  {
    var n := Scaled(x, 7);
    var p := Pow10(7);
    (if x < 0.0 then "-" else "") + NatText(n / p) + ShortFraction(n % p, 7)
  }

  lemma NumberTokenHasNoPunctuation(s: string)
    requires IsNumberToken(s)
    ensures ',' !in s && ' ' !in s && '(' !in s && ')' !in s && '[' !in s && ']' !in s && '_' !in s
  {
    forall c | c in s ensures NumberChar(c) {
      var i :| 0 <= i < |s| && s[i] == c;
    }
  }

  // ---------------------------------------------------------------------------
  // UTF-8 (Encoding.UTF8.GetBytes)

  function CharUtf8(c: char): (r: seq<uint8>)
    ensures 1 <= |r| <= 4
    ensures (c as int < 0x80) <==> r == [c as int]
  {
    var v := c as int;
    if v < 0x80 then [v]
    else if v < 0x800 then [0xC0 + v / 0x40, 0x80 + v % 0x40]
    else if v < 0x1_0000 then [0xE0 + v / 0x1000, 0x80 + (v / 0x40) % 0x40, 0x80 + v % 0x40]
    else [0xF0 + v / 0x4_0000, 0x80 + (v / 0x1000) % 0x40, 0x80 + (v / 0x40) % 0x40, 0x80 + v % 0x40]
  }

  function Utf8(s: string): seq<uint8>
  {
    if s == [] then [] else CharUtf8(s[0]) + Utf8(s[1..])
  }

  predicate IsAscii(s: string)
  {
    forall i :: 0 <= i < |s| ==> s[i] as int < 0x80
  }

  /** ASCII text encodes byte for byte. */
  lemma {:induction false} Utf8Ascii(s: string)
    requires IsAscii(s)
    ensures |Utf8(s)| == |s|
    ensures forall i :: 0 <= i < |s| ==> Utf8(s)[i] == s[i] as int
  {
    if s != [] {
      Utf8Ascii(s[1..]);
    }
  }

  lemma {:induction false} Utf8Append(a: string, b: string)
    ensures Utf8(a + b) == Utf8(a) + Utf8(b)
  {
    if a != [] {
      assert (a + b)[0] == a[0];
      assert (a + b)[1..] == a[1..] + b;
      Utf8Append(a[1..], b);
      calc {
        Utf8(a + b);
        CharUtf8(a[0]) + Utf8(a[1..] + b);
        CharUtf8(a[0]) + (Utf8(a[1..]) + Utf8(b));
        (CharUtf8(a[0]) + Utf8(a[1..])) + Utf8(b);
      }
    } else {
      assert a + b == b;
    }
  }
}
