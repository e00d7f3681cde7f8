/** The integer part of `Color(hex:)` (Models/Star.swift): the string is
    trimmed of non-alphanumeric characters at both ends, its leading
    hexadecimal digits are scanned into an integer, and the number of
    characters left after trimming decides how that integer splits into
    alpha, red, green and blue components (each 0..255, before the source
    divides them by 255). */
module HexColor {
  import opened Text
  import Stars

  datatype Argb = Argb(a: int, r: int, g: int, b: int)

  predicate InByteRange(c: Argb) {
    0 <= c.a <= 255 && 0 <= c.r <= 255 && 0 <= c.g <= 255 && 0 <= c.b <= 255
  }

  predicate IsHexDigit(c: char) {
    IsDigit(c) || 'a' <= c <= 'f' || 'A' <= c <= 'F'
  }

  function HexDigitValue(c: char): (d: nat)
    requires IsHexDigit(c)
    ensures d < 16
  {
    if IsDigit(c) then c as int - '0' as int
    else if 'a' <= c <= 'f' then c as int - 'a' as int + 10
    else c as int - 'A' as int + 10
  }

  predicate AllHex(s: string) {
    forall i :: 0 <= i < |s| ==> IsHexDigit(s[i])
  }

  function Pow16(n: nat): (p: nat)
    ensures p >= 1
  {
    if n == 0 then 1 else 16 * Pow16(n - 1)
  }

  /** The number a string of hexadecimal digits denotes. */
  function HexValue(s: string): (v: nat)
    requires AllHex(s)
    ensures v < Pow16(|s|)
  {
    if s == [] then 0 else HexValue(s[..|s| - 1]) * 16 + HexDigitValue(s[|s| - 1])
  }

  /** Number of leading characters that are not letters or digits. */
  function LeadingCut(s: string): (k: nat)
    ensures k <= |s|
    ensures forall i :: 0 <= i < k ==> !IsAlphanumeric(s[i])
    ensures k < |s| ==> IsAlphanumeric(s[k])
  {
    if s == [] || IsAlphanumeric(s[0]) then 0 else 1 + LeadingCut(s[1..])
  }

  /** Number of trailing characters that are not letters or digits. */
  function TrailingCut(s: string): (k: nat)
    ensures k <= |s|
    ensures forall i :: |s| - k <= i < |s| ==> !IsAlphanumeric(s[i])
    ensures k < |s| ==> IsAlphanumeric(s[|s| - 1 - k])
  {
    if s == [] || IsAlphanumeric(s[|s| - 1]) then 0 else 1 + TrailingCut(s[..|s| - 1])
  }

  /** `trimmingCharacters(in: CharacterSet.alphanumerics.inverted)`: only the
      ends are trimmed; a non-alphanumeric character between two alphanumeric
      ones stays. */
  function Trim(s: string): (t: string)
    ensures t == [] || (IsAlphanumeric(t[0]) && IsAlphanumeric(t[|t| - 1]))
    ensures exists i, j :: (0 <= i <= j <= |s| && t == s[i..j] &&
      (forall k :: 0 <= k < i ==> !IsAlphanumeric(s[k])) &&
      (forall k :: j <= k < |s| ==> !IsAlphanumeric(s[k])))
  {
    var i := LeadingCut(s);
    var rest := s[i..];
    var j := i + |rest| - TrailingCut(rest);
    assert rest[..|rest| - TrailingCut(rest)] == s[i..j];
    s[i..j]
  }

  /** Length of the longest prefix made of hexadecimal digits. */
  function HexRunLength(s: string): (n: nat)
    ensures n <= |s| && AllHex(s[..n])
    ensures n < |s| ==> !IsHexDigit(s[n])
  {
    if s == [] || !IsHexDigit(s[0]) then 0
    else
      var n := 1 + HexRunLength(s[1..]);
      assert s[..n] == [s[0]] + s[1..][..n - 1];
      n
  }

  /** `Scanner.scanHexInt64`: an optional `0x`/`0X` prefix, then as many
      hexadecimal digits as there are; no digits leaves the result at 0. */
  function ScanHex(s: string): (v: nat)
    ensures v < Pow16(|s|)
  {
    var body := if |s| >= 2 && s[0] == '0' && (s[1] == 'x' || s[1] == 'X') then s[2..] else s;
    var n := HexRunLength(body);
    PrefixValueBound(body, n);
    Pow16Monotone(|body|, |s|);
    HexValue(body[..n])
  }

  lemma {:induction false} PrefixValueBound(s: string, n: nat)
    requires n <= |s| && AllHex(s[..n])
    ensures HexValue(s[..n]) < Pow16(|s|)
  {
    Pow16Monotone(n, |s|);
  }

  lemma {:induction false} Pow16Monotone(m: nat, n: nat)
    requires m <= n
    ensures Pow16(m) <= Pow16(n)
    decreases n
  {
    if m < n { Pow16Monotone(m, n - 1); }
  }

  /** `Color(hex:)` before the division by 255. */
  function Decode(hex: string): (c: Argb)
    ensures InByteRange(c)
    ensures |Trim(hex)| !in {3, 6, 8} ==> c == Argb(1, 1, 1, 0)
    ensures |Trim(hex)| in {3, 6} ==> c.a == 255
  {
    var t := Trim(hex);
    var v := ScanHex(t);
    if |t| == 3 then
      assert v < 4096;
      Argb(255, (v / 256) * 17, (v / 16 % 16) * 17, (v % 16) * 17)
    else if |t| == 6 then
      assert v < 16777216;
      Argb(255, v / 65536, v / 256 % 256, v % 256)
    else if |t| == 8 then
      assert v < 4294967296;
      Argb(v / 16777216, v / 65536 % 256, v / 256 % 256, v % 256)
    else
      Argb(1, 1, 1, 0)
  }

  /** Two hexadecimal digits read as one byte. */
  function ByteOf(hi: char, lo: char): (b: nat)
    requires IsHexDigit(hi) && IsHexDigit(lo)
    ensures b < 256
  {
    HexDigitValue(hi) * 16 + HexDigitValue(lo)
  }

  /** Reading one more digit shifts the value up by one hexadecimal place. */
  lemma HexValueStep(t: string, k: nat)
    requires AllHex(t) && 1 <= k <= |t|
    ensures HexValue(t[..k]) == HexValue(t[..k - 1]) * 16 + HexDigitValue(t[k - 1])
  {
    assert t[..k][..k - 1] == t[..k - 1];
  }

  /** Each digit multiplies the value read so far by sixteen and adds its
      own value. */
  lemma HexValueSteps(t: string)
    requires AllHex(t)
    ensures forall j :: 1 <= j <= |t| ==>
      HexValue(t[..j]) == HexValue(t[..j - 1]) * 16 + HexDigitValue(t[j - 1])
  {
    var k := 1;
    while k <= |t|
      invariant 1 <= k <= |t| + 1
      invariant forall j :: 1 <= j < k ==>
        HexValue(t[..j]) == HexValue(t[..j - 1]) * 16 + HexDigitValue(t[j - 1])
    {
      HexValueStep(t, k);
      k := k + 1;
    }
  }

  /** Three digits read as a number. */
  lemma HexValueOfThree(t: string)
    requires AllHex(t) && |t| == 3
    ensures HexValue(t) == (HexDigitValue(t[0]) * 16 + HexDigitValue(t[1])) * 16 + HexDigitValue(t[2])
  {
    HexValueSteps(t);
    assert t[..0] == [] && t[..3] == t;
  }

  /** Six digits read as three bytes. */
  lemma HexValueOfSix(t: string)
    requires AllHex(t) && |t| == 6
    ensures HexValue(t) == ByteOf(t[0], t[1]) * 65536 + ByteOf(t[2], t[3]) * 256 + ByteOf(t[4], t[5])
  {
    HexValueSteps(t);
    assert t[..0] == [] && t[..6] == t;
  }

  /** Eight digits read as four bytes. */
  lemma HexValueOfEight(t: string)
    requires AllHex(t) && |t| == 8
    ensures HexValue(t) ==
      ByteOf(t[0], t[1]) * 16777216 + ByteOf(t[2], t[3]) * 65536 + ByteOf(t[4], t[5]) * 256 + ByteOf(t[6], t[7])
  {
    HexValueSteps(t);
    assert t[..0] == [] && t[..8] == t;
  }


  /** A string of exactly digits needs no trimming and is scanned whole. */
  lemma {:induction false} ScanAllHex(t: string)
    requires AllHex(t) && t != [] && IsAlphanumeric(t[0]) && IsAlphanumeric(t[|t| - 1])
    ensures Trim(t) == t
    ensures ScanHex(t) == HexValue(t)
  {
    assert t[..|t|] == t;
    if |t| >= 2 && t[0] == '0' {
      assert IsHexDigit(t[1]);
    }
  }

  lemma HexAlphanumeric(c: char)
    requires IsHexDigit(c)
    ensures IsAlphanumeric(c)
  {
  }

  /** Six digits RRGGBB: fully opaque, one byte per colour channel. */
  lemma {:induction false} DecodeSixDigits(t: string)
    requires |t| == 6 && AllHex(t)
    ensures Decode(t) == Argb(255, ByteOf(t[0], t[1]), ByteOf(t[2], t[3]), ByteOf(t[4], t[5]))
  {
    HexAlphanumeric(t[0]);
    HexAlphanumeric(t[5]);
    ScanAllHex(t);
    HexValueOfSix(t);
    var v := HexValue(t);
    SplitBytes(v, 0, ByteOf(t[0], t[1]), ByteOf(t[2], t[3]), ByteOf(t[4], t[5]));
    assert Decode(t) == Argb(255, v / 65536, v / 256 % 256, v % 256);
  }

  /** A positive multiple of `d` is at least `d`. */
  lemma {:induction false} MulAtLeast(d: int, k: int)
    requires 0 < d && 1 <= k
    ensures d <= d * k
  {
    if k > 1 {
      MulAtLeast(d, k - 1);
    }
  }

  /** Euclidean division is determined by quotient and remainder. */
  lemma DivMod(v: int, d: int, q: int, m: int)
    requires 0 < d && 0 <= m < d && v == q * d + m
    ensures v / d == q && v % d == m
  {
    var k := q - v / d;
    assert d * k == v % d - m;
    if k > 0 {
      MulAtLeast(d, k);
    } else if k < 0 {
      MulAtLeast(d, -k);
    }
  }

  /** Splitting a 32-bit value into its four bytes. */
  lemma SplitBytes(v: int, a: int, r: int, g: int, b: int)
    requires 0 <= a < 256 && 0 <= r < 256 && 0 <= g < 256 && 0 <= b < 256
    requires v == a * 16777216 + r * 65536 + g * 256 + b
    ensures v / 16777216 == a && v / 65536 % 256 == r && v / 256 % 256 == g && v % 256 == b
    ensures a == 0 ==> v / 65536 == r
  {
    DivMod(v, 16777216, a, r * 65536 + g * 256 + b);
    DivMod(v, 65536, a * 256 + r, g * 256 + b);
    DivMod(a * 256 + r, 256, a, r);
    DivMod(v, 256, a * 65536 + r * 256 + g, b);
    DivMod(a * 65536 + r * 256 + g, 256, a * 256 + r, g);
  }

  /** Splitting a 12-bit value into its three nibbles. */
  lemma SplitNibbles(v: int, x: int, y: int, z: int)
    requires 0 <= x < 16 && 0 <= y < 16 && 0 <= z < 16
    requires v == (x * 16 + y) * 16 + z
    ensures v / 256 == x && v / 16 % 16 == y && v % 16 == z
  {
    DivMod(v, 256, x, y * 16 + z);
    DivMod(v, 16, x * 16 + y, z);
    DivMod(x * 16 + y, 16, x, y);
  }

  /** Eight digits AARRGGBB: alpha first, then the colour channels. */
  lemma {:induction false} DecodeEightDigits(t: string)
    requires |t| == 8 && AllHex(t)
    ensures Decode(t) == Argb(ByteOf(t[0], t[1]), ByteOf(t[2], t[3]), ByteOf(t[4], t[5]), ByteOf(t[6], t[7]))
  {
    HexAlphanumeric(t[0]);
    HexAlphanumeric(t[7]);
    ScanAllHex(t);
    HexValueOfEight(t);
    var v := HexValue(t);
    SplitBytes(v, ByteOf(t[0], t[1]), ByteOf(t[2], t[3]), ByteOf(t[4], t[5]), ByteOf(t[6], t[7]));
    assert Decode(t) == Argb(v / 16777216, v / 65536 % 256, v / 256 % 256, v % 256);
  }

  /** Three digits RGB: each digit is widened to a byte by multiplying by 17
      (so `f` becomes 255). */
  lemma {:induction false} DecodeThreeDigits(t: string)
    requires |t| == 3 && AllHex(t)
    ensures Decode(t) == Argb(255, HexDigitValue(t[0]) * 17, HexDigitValue(t[1]) * 17, HexDigitValue(t[2]) * 17)
  {
    HexAlphanumeric(t[0]);
    HexAlphanumeric(t[2]);
    ScanAllHex(t);
    HexValueOfThree(t);
    var v := HexValue(t);
    SplitNibbles(v, HexDigitValue(t[0]), HexDigitValue(t[1]), HexDigitValue(t[2]));
    assert Decode(t) == Argb(255, (v / 256) * 17, (v / 16 % 16) * 17, (v % 16) * 17);
  }

  /** A leading `#`, as every colour in the catalogue has, is trimmed away. */
  lemma {:induction false} HashIsTrimmed(t: string)
    requires t != [] && IsAlphanumeric(t[0]) && IsAlphanumeric(t[|t| - 1])
    ensures Trim("#" + t) == t
  {
    var s := "#" + t;
    assert s[1..] == t;
    assert LeadingCut(s) == 1;
  }

  /** Every constellation colour is a fully opaque 24-bit colour. */
  lemma CatalogueColoursOpaque(c: Stars.ConstellationType)
    ensures Decode(Stars.ColorHex(c)).a == 255
  {
    var h := Stars.ColorHex(c);
    var t := h[1..];
    assert h == "#" + t;
    assert |t| == 6 && AllHex(t) by {
      assert t == "ffbe00" || t == "bd0e1b" || t == "ffffff";
    }
    HexAlphanumeric(t[0]);
    HexAlphanumeric(t[5]);
    HashIsTrimmed(t);
  }
}
