/** Fixed-width decimal text of the unsigned integer types of 16, 32 and 64 bits. */
module FixedSizeSerializer {
  import opened Lex

  datatype Width = W16 | W32 | W64

  /** The largest value of the type. */
  function Max(w: Width): nat {
    match w
    case W16 => 0xFFFF
    case W32 => 0xFFFF_FFFF
    case W64 => 0xFFFF_FFFF_FFFF_FFFF
  }

  /** std::numeric_limits<T>::digits10 + 1 */
  function SizeInBytes(w: Width): nat {
    match w
    case W16 => 5
    case W32 => 10
    case W64 => 20
  }

  const ZERO: Byte := 48

  function Digit(d: nat): Byte
    requires d < 10
  {
    ZERO + d
  }

  predicate IsDigit(b: Byte) {
    ZERO <= b < ZERO + 10
  }

  predicate AllDigits(s: Key) {
    forall i | 0 <= i < |s| :: IsDigit(s[i])
  }

  /** Decimal text without leading zeros, as operator<< writes an unsigned value. */
  function Decimal(x: nat): Key {
    if x < 10 then [Digit(x)] else Decimal(x / 10) + [Digit(x % 10)]
  }

  function Zeros(n: nat): Key {
    seq(n, _ => ZERO)
  }

  /** setfill('0') and setw: pads on the left and never truncates. */
  function PadLeft(s: Key, width: nat): Key {
    if |s| < width then Zeros(width - |s|) + s else s
  }

  function PackToString(w: Width, x: nat): Key {
    PadLeft(Decimal(x), SizeInBytes(w))
  }

  function Pow10(n: nat): (p: nat)
    ensures p >= 1
  {
    if n == 0 then 1 else 10 * Pow10(n - 1)
  }

  /** The positional value of decimal text. */
  function Number(s: Key): nat
    requires AllDigits(s)
  {
    if s == [] then 0 else (s[0] - ZERO) * Pow10(|s| - 1) + Number(s[1..])
  }

  /** operator>> on decimal text stops at the largest value of the type when the text is larger. */
  function UnpackFromString(w: Width, s: Key): (x: nat)
    requires AllDigits(s)
    ensures x <= Max(w) && x <= Number(s)
    ensures x == Max(w) || x == Number(s)
  {
    if Number(s) <= Max(w) then Number(s) else Max(w)
  }

  // ---- Number is an order isomorphism on digit strings of one length ----

  lemma MulMonotone(d: nat, e: nat, p: nat)
    requires d <= e
    ensures d * p <= e * p
  {
    var gap := e - d;
    assert gap * p >= 0;
    assert (d + gap) * p == d * p + gap * p;
  }

  lemma {:induction false} NumberBound(s: Key)
    requires AllDigits(s)
    ensures Number(s) < Pow10(|s|)
  {
    if s != [] {
      NumberBound(s[1..]);
      MulMonotone(s[0] - ZERO, 9, Pow10(|s| - 1));
    }
  }

  lemma LeadingDigitDecides(d: nat, e: nat, p: nat, x: nat, y: nat)
    requires d < e && x < p
    ensures d * p + x < e * p + y
  {
    MulMonotone(d + 1, e, p);
    assert (d + 1) * p == d * p + p;
  }

  lemma {:induction false} SameLengthOrder(a: Key, b: Key)
    requires AllDigits(a) && AllDigits(b) && |a| == |b|
    ensures Less(a, b) <==> Number(a) < Number(b)
  {
    if a != [] {
      SameLengthOrder(a[1..], b[1..]);
      NumberBound(a[1..]);
      NumberBound(b[1..]);
      var p := Pow10(|a| - 1);
      if a[0] < b[0] {
        LeadingDigitDecides(a[0] - ZERO, b[0] - ZERO, p, Number(a[1..]), Number(b[1..]));
      } else if b[0] < a[0] {
        LeadingDigitDecides(b[0] - ZERO, a[0] - ZERO, p, Number(b[1..]), Number(a[1..]));
      }
    }
  }

  // ---- What Decimal and PadLeft denote ----

  lemma {:induction false} NumberAppend(s: Key, d: nat)
    requires AllDigits(s) && d < 10
    ensures AllDigits(s + [Digit(d)])
    ensures Number(s + [Digit(d)]) == 10 * Number(s) + d
  {
    var t := s + [Digit(d)];
    if s == [] {
      assert t[1..] == [];
    } else {
      NumberAppend(s[1..], d);
      assert t[1..] == s[1..] + [Digit(d)];
      assert (s[0] - ZERO) * (10 * Pow10(|s| - 1)) == 10 * ((s[0] - ZERO) * Pow10(|s| - 1));
    }
  }

  lemma {:induction false} DecimalDenotes(x: nat)
    ensures AllDigits(Decimal(x)) && Number(Decimal(x)) == x
  {
    if x < 10 {
      assert [Digit(x)][1..] == [];
    } else {
      DecimalDenotes(x / 10);
      NumberAppend(Decimal(x / 10), x % 10);
    }
  }

  lemma {:induction false} DecimalLength(x: nat, n: nat)
    requires 0 < n && x < Pow10(n)
    ensures |Decimal(x)| <= n
  {
    if x >= 10 {
      assert n > 1;
      DecimalLength(x / 10, n - 1);
    }
  }

  lemma {:induction false} ZerosDenoteNothing(n: nat, s: Key)
    requires AllDigits(s)
    ensures AllDigits(Zeros(n) + s) && Number(Zeros(n) + s) == Number(s)
  {
    if n == 0 {
      assert Zeros(0) + s == s;
    } else {
      ZerosDenoteNothing(n - 1, s);
      assert (Zeros(n) + s)[1..] == Zeros(n - 1) + s;
    }
  }

  /** Every value of the type fits the fixed width, in all three sizes, and none smaller would do. */
  lemma MaxFits(w: Width)
    ensures Pow10(SizeInBytes(w) - 1) <= Max(w) < Pow10(SizeInBytes(w))
  {
    assert Pow10(5) == 100_000;
    assert Pow10(10) == 100_000 * Pow10(5);
    assert Pow10(15) == 100_000 * Pow10(10);
    assert Pow10(20) == 100_000 * Pow10(15);
  }

  function Bits(w: Width): nat {
    match w
    case W16 => 16
    case W32 => 32
    case W64 => 64
  }

  function Pow2(n: nat): nat {
    if n == 0 then 1 else 2 * Pow2(n - 1)
  }

  lemma BitsMore(n: nat)
    ensures Pow2(n + 16) == 0x1_0000 * Pow2(n)
  {
    assert Pow2(n + 4) == 16 * Pow2(n) by { assert Pow2(n + 2) == 4 * Pow2(n); }
    assert Pow2(n + 8) == 16 * Pow2(n + 4) by { assert Pow2(n + 6) == 4 * Pow2(n + 4); }
    assert Pow2(n + 12) == 16 * Pow2(n + 8) by { assert Pow2(n + 10) == 4 * Pow2(n + 8); }
    assert Pow2(n + 16) == 16 * Pow2(n + 12) by { assert Pow2(n + 14) == 4 * Pow2(n + 12); }
  }

  /** The values are those of the unsigned types of these widths. */
  lemma MaxIsAllOnes(w: Width)
    ensures Max(w) + 1 == Pow2(Bits(w))
  {
    MaxFrom(w, 0);
  }

  lemma MaxFrom(w: Width, zero: nat)
    requires zero == 0
    ensures Max(w) + 1 == Pow2(zero + Bits(w))
  {
    assert Pow2(zero) == 1;
    BitsMore(zero);
    BitsMore(zero + 16);
    BitsMore(zero + 32);
    BitsMore(zero + 48);
  }

  // ---- The codec ----

  /** Packed text has the one expected length, is all digits and reads back as the value packed. */
  lemma PackRoundTrip(w: Width, x: nat)
    requires x <= Max(w)
    ensures |PackToString(w, x)| == SizeInBytes(w) && AllDigits(PackToString(w, x))
    ensures Number(PackToString(w, x)) == x
    ensures UnpackFromString(w, PackToString(w, x)) == x
  {
    MaxFits(w);
    DecimalDenotes(x);
    DecimalLength(x, SizeInBytes(w));
    ZerosDenoteNothing(SizeInBytes(w) - |Decimal(x)|, Decimal(x));
    assert Zeros(0) + Decimal(x) == Decimal(x);
  }

  /** Byte order of packed texts is the numeric order. */
  lemma PackOrder(w: Width, x: nat, y: nat)
    requires x <= Max(w) && y <= Max(w)
    ensures Less(PackToString(w, x), PackToString(w, y)) <==> x < y
    ensures PackToString(w, x) == PackToString(w, y) <==> x == y
  {
    PackRoundTrip(w, x);
    PackRoundTrip(w, y);
    SameLengthOrder(PackToString(w, x), PackToString(w, y));
  }

  /** Packing what was read gives the text back exactly when its number is a value of the type. */
  lemma UnpackRoundTrip(w: Width, s: Key)
    requires AllDigits(s) && |s| == SizeInBytes(w)
    ensures PackToString(w, UnpackFromString(w, s)) == s <==> Number(s) <= Max(w)
  {
    var t := PackToString(w, UnpackFromString(w, s));
    PackRoundTrip(w, UnpackFromString(w, s));
    SameLengthOrder(s, t);
    SameLengthOrder(t, s);
    LessTrichotomy(s, t);
  }
}
