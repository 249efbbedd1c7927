/** Time-ordered identifiers: version 7 UUIDs of RFC 9562, section 5.7, and their text form, section 4. */
module Identifiers {

  function Pow2(k: nat): (p: nat)
    ensures p >= 1
  {
    if k == 0 then 1 else 2 * Pow2(k - 1)
  }

  function Shl(a: nat, k: nat): nat {
    a * Pow2(k)
  }

  /** Bitwise or. */
  function Or(a: nat, b: nat): nat
    decreases a + b
  {
    if a == 0 && b == 0 then 0
    else 2 * Or(a / 2, b / 2) + (if a % 2 == 1 || b % 2 == 1 then 1 else 0)
  }

  /** The value the generator packs; the clock is masked to 48 bits. */
  function Packed(clockMs: nat, randomA: nat, randomB: nat): nat {
    var timestampMs := clockMs % 0x1_0000_0000_0000;
    Or(Or(Or(Or(Shl(timestampMs, 80), Shl(7, 76)), Shl(randomA, 64)), Shl(2, 62)), randomB)
  }

  function Digit(n: nat): char
    requires n < 16
  {
    "0123456789abcdef"[n]
  }

  /** The last `width` hexadecimal digits of `n`. */
  function Hex(n: nat, width: nat): (s: string)
    ensures |s| == width
  {
    if width == 0 then "" else Hex(n / 16, width - 1) + [Digit(n % 16)]
  }

  /** Groups of 8, 4, 4, 4 and 12 digits. */
  function Text(value: nat): string {
    var h := Hex(value, 32);
    h[..8] + "-" + h[8..12] + "-" + h[12..16] + "-" + h[16..20] + "-" + h[20..]
  }

  function NewId(clockMs: nat, randomA: nat, randomB: nat): string {
    Text(Packed(clockMs, randomA, randomB))
  }

  // ----- The fields do not overlap -----

  lemma {:induction false} OrZero(a: nat)
    ensures Or(a, 0) == a && Or(0, a) == a
    decreases a
  {
    if a != 0 {
      OrZero(a / 2);
    }
  }

  /** An or with a number below the lowest set position is a sum. */
  lemma {:induction false} OrBelow(a: nat, k: nat, b: nat)
    requires b < Pow2(k)
    ensures Or(Shl(a, k), b) == Shl(a, k) + b
    decreases k
  {
    if k == 0 {
      OrZero(a);
    } else {
      assert Shl(a, k) == 2 * Shl(a, k - 1);
      assert Shl(a, k) / 2 == Shl(a, k - 1) && Shl(a, k) % 2 == 0;
      OrBelow(a, k - 1, b / 2);
    }
  }

  lemma {:induction false} Pow2Sum(j: nat, k: nat)
    ensures Pow2(j + k) == Pow2(j) * Pow2(k)
    decreases j
  {
    if j > 0 {
      Pow2Sum(j - 1, k);
    }
  }

  const P16: nat := 0x1_0000
  const P48: nat := 0x1_0000_0000_0000
  const P62: nat := 0x4000_0000_0000_0000
  const P64: nat := 0x1_0000_0000_0000_0000
  const P76: nat := 0x1000_0000_0000_0000_0000
  const P80: nat := 0x1_0000_0000_0000_0000_0000

  lemma Powers()
    ensures Pow2(62) == P62 && Pow2(64) == P64 && Pow2(76) == P76 && Pow2(80) == P80
  {
    assert Pow2(4) == 16 by { assert Pow2(2) == 4; }
    Pow2Sum(4, 4);
    Pow2Sum(8, 8);
    assert Pow2(16) == P16;
    Pow2Sum(16, 16);
    Pow2Sum(32, 32);
    Pow2Sum(64, 16);
    Pow2Sum(64, 8);
    Pow2Sum(72, 4);
    Pow2Sum(2, 62);
    assert Pow2(2) == 4;
  }

  lemma Joined(t: nat, a: nat)
    requires a < 0x1000
    ensures Or(Or(Or(Shl(t, 80), Shl(7, 76)), Shl(a, 64)), Shl(2, 62)) == Shl(((t * 16 + 7) * 0x1000 + a) * 4 + 2, 62)
  {
    Powers();
    OrBelow(t, 80, Shl(7, 76));
    assert Shl(t, 80) + Shl(7, 76) == Shl(t * 16 + 7, 76);
    OrBelow(t * 16 + 7, 76, Shl(a, 64));
    var u := (t * 16 + 7) * 0x1000 + a;
    assert Shl(t * 16 + 7, 76) + Shl(a, 64) == Shl(u, 64);
    OrBelow(u, 64, Shl(2, 62));
    assert Shl(u, 64) + Shl(2, 62) == Shl(u * 4 + 2, 62);
  }

  lemma Shl62(x: nat, b: nat)
    requires b < P62
    ensures Or(Shl(x, 62), b) == x * P62 + b
  {
    Powers();
    OrBelow(x, 62, b);
  }

  lemma PackedIsSum(clockMs: nat, randomA: nat, randomB: nat)
    requires randomA < 0x1000 && randomB < P62
    ensures Packed(clockMs, randomA, randomB)
            == (((clockMs % P48) * 16 + 7) * 0x1000 + randomA) * P64 + 2 * P62 + randomB
  {
    var t := clockMs % P48;
    Joined(t, randomA);
    Shl62(((t * 16 + 7) * 0x1000 + randomA) * 4 + 2, randomB);
  }

  lemma Above62(q: nat, r: nat)
    requires r < P62
    ensures (q * P62 + r) / P62 == q && (q * P62 + r) % P62 == r
  {
  }

  lemma Above64(q: nat, r: nat)
    requires r < P64
    ensures (q * P64 + r) / P64 == q
  {
  }

  lemma Above76(q: nat, r: nat)
    requires r < P76
    ensures (q * P76 + r) / P76 == q
  {
  }

  lemma Above80(q: nat, r: nat)
    requires r < P80
    ensures (q * P80 + r) / P80 == q && (q < P48 ==> q * P80 + r < P64 * P64)
  {
  }

  lemma LowDigits(t: nat, a: nat)
    requires a < 0x1000
    ensures (t * 16 + 7) % 16 == 7 && (t * 0x1000 + a) % 0x1000 == a && (t * 4 + 2) % 4 == 2
  {
  }

  lemma RandomFields(x: nat, a: nat, b: nat, v: nat)
    requires a < 0x1000 && b < P62 && v == (x * 0x1000 + a) * P64 + 2 * P62 + b
    ensures v / P64 % 0x1000 == a && v / P62 % 4 == 2 && v % P62 == b
  {
    var u := x * 0x1000 + a;
    assert v == (u * 4 + 2) * P62 + b;
    Above62(u * 4 + 2, b);
    Above64(u, 2 * P62 + b);
    LowDigits(u, a);
    LowDigits(x, a);
  }

  lemma VersionField(t: nat, rest: nat, v: nat)
    requires rest < P76 && v == (t * 16 + 7) * P76 + rest
    ensures v / P76 % 16 == 7 && v / P80 == t && (t < P48 ==> v < P64 * P64)
  {
    Above76(t * 16 + 7, rest);
    LowDigits(t, 0);
    assert v == t * P80 + (7 * P76 + rest);
    Above80(t, 7 * P76 + rest);
  }

  /** The layout of section 5.7: 128 bits, version 7, variant 10 binary, and every input recovered. */
  lemma FieldsRecovered(clockMs: nat, randomA: nat, randomB: nat)
    requires randomA < 0x1000 && randomB < P62
    ensures var v := Packed(clockMs, randomA, randomB);
            && v < P64 * P64
            && v / P80 == clockMs % P48
            && v / P76 % 16 == 7
            && v / P64 % 0x1000 == randomA
            && v / P62 % 4 == 2
            && v % P62 == randomB
  {
    var v, t := Packed(clockMs, randomA, randomB), clockMs % P48;
    PackedIsSum(clockMs, randomA, randomB);
    RandomFields(t * 16 + 7, randomA, randomB, v);
    assert v == (t * 16 + 7) * P76 + (randomA * P64 + 2 * P62 + randomB);
    VersionField(t, randomA * P64 + 2 * P62 + randomB, v);
  }

  // ----- Text order -----

  /** Lexicographic order of texts of equal length. */
  ghost predicate TextBefore(a: string, b: string) {
    |a| == |b| && exists i :: 0 <= i < |a| && a[..i] == b[..i] && a[i] < b[i]
  }

  function Pow16(k: nat): nat {
    if k == 0 then 1 else 16 * Pow16(k - 1)
  }

  lemma {:induction false} Pow16IsPow2(k: nat)
    ensures Pow16(k) == Pow2(4 * k)
  {
    if k > 0 {
      Pow16IsPow2(k - 1);
      Pow2Sum(4, 4 * (k - 1));
      assert Pow2(4) == 16 by { assert Pow2(2) == 4; }
    }
  }

  lemma DigitOrder(i: nat, j: nat)
    requires i < j < 16
    ensures Digit(i) < Digit(j)
  {
  }

  /** A difference among the leading digits decides; else the last digit does. */
  lemma LastDigit(a: string, b: string, x: char, y: char)
    requires TextBefore(a, b) || (a == b && x < y)
    ensures TextBefore(a + [x], b + [y])
  {
    if a == b {
      assert (a + [x])[..|a|] == a && (b + [y])[..|a|] == a;
    } else {
      var i :| 0 <= i < |a| && a[..i] == b[..i] && a[i] < b[i];
      assert (a + [x])[..i] == a[..i] && (b + [y])[..i] == b[..i];
    }
  }

  lemma {:induction false} HexOrder(a: nat, b: nat, width: nat)
    requires a < b < Pow16(width)
    ensures TextBefore(Hex(a, width), Hex(b, width))
    decreases width
  {
    if a / 16 < b / 16 {
      HexOrder(a / 16, b / 16, width - 1);
    } else {
      DigitOrder(a % 16, b % 16);
    }
    LastDigit(Hex(a / 16, width - 1), Hex(b / 16, width - 1), Digit(a % 16), Digit(b % 16));
  }

  predicate IsHyphen(p: nat) {
    p == 8 || p == 13 || p == 18 || p == 23
  }

  /** The number of digits before a position of the text. */
  function DigitsBefore(p: nat): nat {
    if p <= 8 then p else if p <= 13 then p - 1 else if p <= 18 then p - 2 else if p <= 23 then p - 3 else p - 4
  }

  lemma TextAt(value: nat, p: nat)
    requires p < 36
    ensures |Text(value)| == 36 && Text(value)[p] == if IsHyphen(p) then '-' else Hex(value, 32)[DigitsBefore(p)]
  {
  }

  lemma TextKeepsOrder(a: nat, b: nat)
    requires TextBefore(Hex(a, 32), Hex(b, 32))
    ensures TextBefore(Text(a), Text(b))
  {
    var ha, hb := Hex(a, 32), Hex(b, 32);
    var i :| 0 <= i < 32 && ha[..i] == hb[..i] && ha[i] < hb[i];
    var q := if i < 8 then i else if i < 12 then i + 1 else if i < 16 then i + 2 else if i < 20 then i + 3 else i + 4;
    TextAt(a, q);
    TextAt(b, q);
    forall p | 0 <= p < q ensures Text(a)[p] == Text(b)[p] {
      TextAt(a, p);
      TextAt(b, p);
      assert !IsHyphen(p) ==> ha[DigitsBefore(p)] == ha[..i][DigitsBefore(p)];
    }
  }

  /** Identifiers sort by their clock: with clocks in one period of the 48-bit timestamp, the later
      identifier has the larger text, whatever the random parts are. */
  lemma TextFollowsClock(clock1: nat, a1: nat, b1: nat, clock2: nat, a2: nat, b2: nat)
    requires a1 < 0x1000 && b1 < P62 && a2 < 0x1000 && b2 < P62
    requires clock1 % P48 < clock2 % P48
    ensures TextBefore(NewId(clock1, a1, b1), NewId(clock2, a2, b2))
  {
    PackedInOrder(clock1, a1, b1, clock2, a2, b2);
    HexOrder(Packed(clock1, a1, b1), Packed(clock2, a2, b2), 32);
    TextKeepsOrder(Packed(clock1, a1, b1), Packed(clock2, a2, b2));
  }

  lemma PackedInOrder(clock1: nat, a1: nat, b1: nat, clock2: nat, a2: nat, b2: nat)
    requires a1 < 0x1000 && b1 < P62 && a2 < 0x1000 && b2 < P62
    requires clock1 % P48 < clock2 % P48
    ensures Packed(clock1, a1, b1) < Packed(clock2, a2, b2) < Pow16(32)
  {
    PackedIsSum(clock1, a1, b1);
    PackedIsSum(clock2, a2, b2);
    FieldsRecovered(clock2, a2, b2);
    Powers();
    Pow2Sum(64, 64);
    Pow16IsPow2(32);
  }

  // ----- The text is the value -----

  /** The value of a lower-case hexadecimal digit. */
  function DigitValue(c: char): nat {
    if '0' <= c <= '9' then (c - '0') as nat else if 'a' <= c <= 'f' then (c - 'a') as nat + 10 else 16
  }

  function ValueOf(digits: string): nat
    decreases |digits|
  {
    if digits == "" then 0 else 16 * ValueOf(digits[..|digits| - 1]) + DigitValue(digits[|digits| - 1])
  }

  lemma {:induction false} HexRoundTrip(n: nat, width: nat)
    requires n < Pow16(width)
    ensures ValueOf(Hex(n, width)) == n
    ensures forall i | 0 <= i < width :: DigitValue(Hex(n, width)[i]) < 16
    decreases width
  {
    if width > 0 {
      HexRoundTrip(n / 16, width - 1);
      var h := Hex(n / 16, width - 1);
      assert (h + [Digit(n % 16)])[..width - 1] == h;
    }
  }

  /** The text form of section 4: 36 characters, hyphens at 8, 13, 18 and 23, lower-case hexadecimal
      digits elsewhere; read as a number without the hyphens it is the packed value. */
  lemma TextRoundTrip(clockMs: nat, randomA: nat, randomB: nat)
    requires randomA < 0x1000 && randomB < P62
    ensures var s := NewId(clockMs, randomA, randomB);
            && |s| == 36 && s[8] == '-' && s[13] == '-' && s[18] == '-' && s[23] == '-'
            && (forall i | 0 <= i < 36 && i != 8 && i != 13 && i != 18 && i != 23 :: DigitValue(s[i]) < 16)
            && ValueOf(s[..8] + s[9..13] + s[14..18] + s[19..23] + s[24..]) == Packed(clockMs, randomA, randomB)
  {
    var v := Packed(clockMs, randomA, randomB);
    PackedIsSum(clockMs, randomA, randomB);
    FieldsRecovered(clockMs, randomA, randomB);
    Powers();
    Pow2Sum(64, 64);
    Pow16IsPow2(32);
    HexRoundTrip(v, 32);
    TextDigits(v);
  }

  lemma TextDigits(v: nat)
    ensures var s, h := Text(v), Hex(v, 32);
            && |s| == 36 && s[8] == '-' && s[13] == '-' && s[18] == '-' && s[23] == '-'
            && (forall i | 0 <= i < 36 && i != 8 && i != 13 && i != 18 && i != 23 :: s[i] == h[DigitsBefore(i)])
            && s[..8] + s[9..13] + s[14..18] + s[19..23] + s[24..] == h
  {
    var s, h := Text(v), Hex(v, 32);
    forall i | 0 <= i < 36 ensures s[i] == if IsHyphen(i) then '-' else h[DigitsBefore(i)] {
      TextAt(v, i);
    }
    assert s[..8] == h[..8] && s[9..13] == h[8..12] && s[14..18] == h[12..16];
    assert s[19..23] == h[16..20] && s[24..] == h[20..];
  }
}
