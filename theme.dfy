/**
 * `Color(hex:)`: trims the string, scans one hexadecimal integer from it and
 * picks the (alpha, red, green, blue) components by the trimmed length.
 *
 * Shifts and masks on the unsigned 64-bit value are division and remainder
 * by powers of two; the sRGB conversion that follows is not modelled.
 */
module Theme {

  /** Letters and digits (ASCII). */
  predicate IsAlphanumeric(c: char)
  {
    'a' <= c <= 'z' || 'A' <= c <= 'Z' || '0' <= c <= '9'
  }

  /** The first index at or after `i` that holds a letter or digit, or the length. */
  function LeadingEnd(s: string, i: nat): (n: nat)
    requires i <= |s|
    ensures i <= n <= |s|
    ensures forall k :: i <= k < n ==> !IsAlphanumeric(s[k])
    ensures n < |s| ==> IsAlphanumeric(s[n])
    decreases |s| - i
  {
    if i < |s| && !IsAlphanumeric(s[i]) then LeadingEnd(s, i + 1) else i
  }

  /** Scanning back from `j` towards `lo`: one past the last letter or digit, or `lo`. */
  function TrailingStart(s: string, lo: nat, j: nat): (n: nat)
    requires lo <= j <= |s|
    ensures lo <= n <= j
    ensures forall k :: n <= k < j ==> !IsAlphanumeric(s[k])
    ensures n > lo ==> IsAlphanumeric(s[n - 1])
  {
    if j > lo && !IsAlphanumeric(s[j - 1]) then TrailingStart(s, lo, j - 1) else j
  }

  /** `trimmingCharacters(in: .alphanumerics.inverted)`: the letters-and-digits-bounded middle. */
  function Trim(s: string): (t: string)
    ensures |t| <= |s|
    ensures t != [] ==> IsAlphanumeric(t[0]) && IsAlphanumeric(t[|t| - 1])
  {
    var i := LeadingEnd(s, 0);
    s[i..TrailingStart(s, i, |s|)]
  }

  /** Trimming keeps one contiguous run of `s` that starts and ends with a letter or digit, and drops only what lies outside it. */
  lemma TrimKeepsMiddle(s: string)
    ensures exists i, j :: 0 <= i <= j <= |s| && Trim(s) == s[i..j] &&
              (forall k :: 0 <= k < i ==> !IsAlphanumeric(s[k])) &&
              (forall k :: j <= k < |s| ==> !IsAlphanumeric(s[k]))
    ensures Trim(s) != [] ==> IsAlphanumeric(Trim(s)[0]) && IsAlphanumeric(Trim(s)[|Trim(s)| - 1])
  {
    var i := LeadingEnd(s, 0);
    var j := TrailingStart(s, i, |s|);
    assert Trim(s) == s[i..j];
  }

  /** A string that already starts and ends with a letter or digit is left as it is. */
  lemma TrimIdentity(s: string)
    requires s != [] && IsAlphanumeric(s[0]) && IsAlphanumeric(s[|s| - 1])
    ensures Trim(s) == s
  {
    assert s[0..|s|] == s;
  }

  predicate IsHexDigit(c: char)
  {
    '0' <= c <= '9' || 'a' <= c <= 'f' || 'A' <= c <= 'F'
  }

  predicate AllHex(s: string) { forall k :: 0 <= k < |s| ==> IsHexDigit(s[k]) }

  function HexDigitValue(c: char): (d: nat)
    requires IsHexDigit(c)
    ensures d < 16
  {
    if '0' <= c <= '9' then (c as int - '0' as int) as nat
    else if 'a' <= c <= 'f' then (c as int - 'a' as int + 10) as nat
    else (c as int - 'A' as int + 10) as nat
  }

  function Pow16(n: nat): (p: nat)
    ensures p >= 1
  {
    if n == 0 then 1 else 16 * Pow16(n - 1)
  }

  /** The value of a string of hex digits, most significant first. */
  function HexValue(s: string): (v: nat)
    requires AllHex(s)
  {
    if s == [] then 0 else HexValue(s[..|s| - 1]) * 16 + HexDigitValue(s[|s| - 1])
  }

  lemma {:induction false} HexValueBound(s: string)
    requires AllHex(s)
    ensures HexValue(s) < Pow16(|s|)
  {
    if s != [] {
      HexValueBound(s[..|s| - 1]);
    }
  }

  lemma Regroup(a: int, p: int, b: int, d: int)
    ensures (a * p + b) * 16 + d == a * (p * 16) + (b * 16 + d)
  {
  }

  /** Digits split anywhere: the left part counts in units of 16 to the length of the right part. */
  lemma {:induction false} HexValueAppend(s: string, t: string)
    requires AllHex(s) && AllHex(t)
    ensures AllHex(s + t)
    ensures HexValue(s + t) == HexValue(s) * Pow16(|t|) + HexValue(t)
  {
    if t == [] {
      assert s + t == s;
    } else {
      var u := t[..|t| - 1];
      var d := HexDigitValue(t[|t| - 1]);
      assert (s + t)[..|s + t| - 1] == s + u;
      assert (s + t)[|s + t| - 1] == t[|t| - 1];
      HexValueAppend(s, u);
      Regroup(HexValue(s), Pow16(|u|), HexValue(u), d);
    }
  }

  lemma {:induction false} Pow16Monotone(m: nat, n: nat)
    requires m <= n
    ensures Pow16(m) <= Pow16(n)
  {
    if m < n {
      Pow16Monotone(m, n - 1);
    }
  }

  /** The number of leading hex digits. */
  function HexRun(s: string): (n: nat)
    ensures n <= |s| && AllHex(s[..n])
    ensures n < |s| ==> !IsHexDigit(s[n])
    ensures AllHex(s) ==> n == |s|
  {
    if s != [] && IsHexDigit(s[0]) then
      var n := 1 + HexRun(s[1..]);
      assert s[..n] == [s[0]] + s[1..][..n - 1];
      n
    else 0
  }

  /** `0x` or `0X` in front of a hex digit. */
  predicate HasHexPrefix(s: string)
  {
    |s| >= 3 && s[0] == '0' && (s[1] == 'x' || s[1] == 'X') && IsHexDigit(s[2])
  }

  /**
   * `Scanner.scanHexInt64`: an optional `0x`/`0X`, then the longest run of hex
   * digits; the value stays 0 when no digit is scanned.
   */
  function ScanHex(s: string): (v: nat)
    ensures s == [] || !IsHexDigit(s[0]) ==> v == 0
  {
    var digits := if HasHexPrefix(s) then s[2..] else s;
    HexValue(digits[..HexRun(digits)])
  }

  lemma ScanHexBound(s: string)
    ensures ScanHex(s) < Pow16(|s|)
  {
    var digits := if HasHexPrefix(s) then s[2..] else s;
    var run := digits[..HexRun(digits)];
    HexValueBound(run);
    Pow16Monotone(|run|, |s|);
  }

  /** On a string of hex digits the scan reads them all. */
  lemma ScanAllHex(s: string)
    requires AllHex(s)
    ensures ScanHex(s) == HexValue(s)
  {
    if |s| >= 3 {
      assert !HasHexPrefix(s) by { assert IsHexDigit(s[1]); }
    }
    assert s[..HexRun(s)] == s;
  }

  datatype Argb = Argb(a: nat, r: nat, g: nat, b: nat)

  /** The components `Color(hex:)` computes: whatever the string, each is in 0..255. */
  function HexColor(hex: string): (c: Argb)
    ensures IsByteColor(c)
  {
    ColorOfTrimmed(Trim(hex))
  }

  /** The switch on the length of the trimmed string `h`. */
  function ColorOfTrimmed(h: string): (c: Argb)
    ensures IsByteColor(c)
  {
    ScanHexBound(h);
    assert Pow16(3) == 4096 && Pow16(6) == 16777216;
    assert Pow16(8) == 4294967296;
    var v := ScanHex(h);
    if |h| == 3 then Argb(255, (v / 256) * 17, (v / 16 % 16) * 17, (v % 16) * 17)
    else if |h| == 6 then Argb(255, v / 65536, v / 256 % 256, v % 256)
    else if |h| == 8 then Argb(v / 16777216, v / 65536 % 256, v / 256 % 256, v % 256)
    else Argb(1, 1, 1, 0)
  }

  predicate IsByteColor(c: Argb) { c.a <= 255 && c.r <= 255 && c.g <= 255 && c.b <= 255 }

  /** Three, two or four bytes packed most significant first, and unpacked again by shifts and masks. */
  lemma Unpack3(r: nat, g: nat, b: nat)
    requires r < 256 && g < 256 && b < 256
    ensures (r * 65536 + g * 256 + b) / 65536 == r
    ensures (r * 65536 + g * 256 + b) / 256 % 256 == g
    ensures (r * 65536 + g * 256 + b) % 256 == b
  {
  }

  lemma Unpack4(a: nat, r: nat, g: nat, b: nat)
    requires a < 256 && r < 256 && g < 256 && b < 256
    ensures (a * 16777216 + r * 65536 + g * 256 + b) / 16777216 == a
    ensures (a * 16777216 + r * 65536 + g * 256 + b) / 65536 % 256 == r
    ensures (a * 16777216 + r * 65536 + g * 256 + b) / 256 % 256 == g
    ensures (a * 16777216 + r * 65536 + g * 256 + b) % 256 == b
  {
    var x := a * 16777216 + r * 65536 + g * 256 + b;
    Div16777216(a, r * 65536 + g * 256 + b);
    assert x == (a * 256 + r) * 65536 + (g * 256 + b);
    Div65536(a * 256 + r, g * 256 + b);
    Div256(a, r);
    assert x == ((a * 256 + r) * 256 + g) * 256 + b;
    Div256((a * 256 + r) * 256 + g, b);
    Div256(a * 256 + r, g);
  }

  /** Quotient and remainder by the fixed powers of two the channel masks use. */
  lemma Div256(q: nat, r: nat)
    requires r < 256
    ensures (q * 256 + r) / 256 == q && (q * 256 + r) % 256 == r
  {
  }

  lemma Div65536(q: nat, r: nat)
    requires r < 65536
    ensures (q * 65536 + r) / 65536 == q
  {
  }

  lemma Div16777216(q: nat, r: nat)
    requires r < 16777216
    ensures (q * 16777216 + r) / 16777216 == q
  {
  }

  /** Six hex digits are RRGGBB, fully opaque. */
  lemma SixDigits(hex: string)
    requires |Trim(hex)| == 6 && AllHex(Trim(hex))
    ensures HexColor(hex) == Argb(255, HexValue(Trim(hex)[0..2]), HexValue(Trim(hex)[2..4]), HexValue(Trim(hex)[4..6]))
  {
    SixDigitsTrimmed(Trim(hex));
  }

  lemma SixDigitsTrimmed(h: string)
    requires |h| == 6 && AllHex(h)
    ensures ColorOfTrimmed(h) == Argb(255, HexValue(h[0..2]), HexValue(h[2..4]), HexValue(h[4..6]))
  {
    ScanAllHex(h);
    var r, g, b := h[0..2], h[2..4], h[4..6];
    assert h == r + (g + b);
    HexValueAppend(g, b);
    HexValueAppend(r, g + b);
    HexValueBound(r);
    HexValueBound(g);
    HexValueBound(b);
    assert Pow16(2) == 256 && Pow16(4) == 65536;
    Unpack3(HexValue(r), HexValue(g), HexValue(b));
  }

  /** Three hex digits are RGB, each nibble scaled by 17 (0xF becomes 0xFF), fully opaque. */
  lemma ThreeDigits(hex: string)
    requires |Trim(hex)| == 3 && AllHex(Trim(hex))
    ensures HexColor(hex) == Argb(255, HexDigitValue(Trim(hex)[0]) * 17,
                                  HexDigitValue(Trim(hex)[1]) * 17, HexDigitValue(Trim(hex)[2]) * 17)
  {
    ThreeDigitsTrimmed(Trim(hex));
  }

  lemma ThreeDigitsTrimmed(h: string)
    requires |h| == 3 && AllHex(h)
    ensures ColorOfTrimmed(h) == Argb(255, HexDigitValue(h[0]) * 17, HexDigitValue(h[1]) * 17, HexDigitValue(h[2]) * 17)
  {
    ScanAllHex(h);
    var d0, d1, d2 := HexDigitValue(h[0]), HexDigitValue(h[1]), HexDigitValue(h[2]);
    assert h[..2][..1] == h[..1] && h[..1][..0] == [] && h[..2][1] == h[1] && h[..1][0] == h[0];
    assert HexValue(h[..1]) == d0;
    assert HexValue(h[..2]) == d0 * 16 + d1;
    assert HexValue(h) == d0 * 256 + d1 * 16 + d2;
    UnpackNibbles(d0, d1, d2);
  }

  lemma UnpackNibbles(x: nat, y: nat, z: nat)
    requires x < 16 && y < 16 && z < 16
    ensures (x * 256 + y * 16 + z) / 256 == x
    ensures (x * 256 + y * 16 + z) / 16 % 16 == y
    ensures (x * 256 + y * 16 + z) % 16 == z
  {
  }

  /** Eight hex digits are AARRGGBB. */
  lemma EightDigits(hex: string)
    requires |Trim(hex)| == 8 && AllHex(Trim(hex))
    ensures HexColor(hex) == Argb(HexValue(Trim(hex)[0..2]), HexValue(Trim(hex)[2..4]),
                                  HexValue(Trim(hex)[4..6]), HexValue(Trim(hex)[6..8]))
  {
    EightDigitsTrimmed(Trim(hex));
  }

  lemma EightDigitsTrimmed(h: string)
    requires |h| == 8 && AllHex(h)
    ensures ColorOfTrimmed(h) == Argb(HexValue(h[0..2]), HexValue(h[2..4]), HexValue(h[4..6]), HexValue(h[6..8]))
  {
    ScanAllHex(h);
    var a, r, g, b := h[0..2], h[2..4], h[4..6], h[6..8];
    assert h == a + (r + (g + b));
    HexValueAppend(g, b);
    HexValueAppend(r, g + b);
    HexValueAppend(a, r + (g + b));
    HexValueBound(a);
    HexValueBound(r);
    HexValueBound(g);
    HexValueBound(b);
    assert Pow16(2) == 256 && Pow16(4) == 65536 && Pow16(6) == 16777216;
    Unpack4(HexValue(a), HexValue(r), HexValue(g), HexValue(b));
  }

  /** Any other trimmed length gives the fallback (1, 1, 1, 0). */
  lemma OtherLengths(hex: string)
    requires |Trim(hex)| !in {3, 6, 8}
    ensures HexColor(hex) == Argb(1, 1, 1, 0)
  {
  }

  /** "FFF" is opaque white. */
  lemma WhiteShorthand()
    ensures HexColor("FFF") == Argb(255, 255, 255, 255)
  {
    TrimIdentity("FFF");
    ThreeDigits("FFF");
  }
}
