/**
 Big-endian integer codec and block copies (common/util/bytes.h).

 `Digits` and `Value` are the reference definitions: base-256 digits, most
 significant first, of the two's-complement pattern of an integer, and the
 number a digit string denotes.  The loops of the source are the methods
 `To`, `From` and `FromAsWritten`, proved against them for every width.
 */
module Bytes {
  import opened Options

  type byte = x: int | 0 <= x < 256

  function Pow256(n: nat): (p: nat)
    ensures p > 0
  {
    if n == 0 then 1 else 256 * Pow256(n - 1)
  }

  /** The n lowest base-256 digits of v, most significant first. */
  function Digits(v: int, n: nat): (s: seq<byte>)
    ensures |s| == n
    decreases n, v
  {
    if n == 0 then [] else Digits(v / 256, n - 1) + [v % 256]
  }

  function Value(s: seq<byte>): nat {
    if s == [] then 0 else 256 * Value(s[..|s| - 1]) + s[|s| - 1]
  }

  /** The signed reading of an n-byte pattern. */
  function Signed(pattern: nat, n: nat): int {
    if 2 * pattern < Pow256(n) then pattern else pattern - Pow256(n)
  }

  predicate FitsUnsigned(v: int, n: nat) {
    0 <= v < Pow256(n)
  }

  predicate FitsSigned(v: int, n: nat) {
    -(Pow256(n) as int) <= 2 * v < Pow256(n)
  }

  // ---------------------------------------------------------------- arithmetic

  lemma NonzeroMultiple(d: int, m: int)
    requires m > 0
    ensures d != 0 ==> d * m >= m || d * m <= -m
  {
    if d >= 1 { assert (d - 1) * m >= 0; }
    if d <= -1 { assert (-d - 1) * m >= 0; }
  }

  lemma Difference(a: int, b: int, m: int)
    ensures (a - b) * m == a * m - b * m
  {}

  lemma DivMod(v: int, m: int)
    requires m > 0
    ensures v == (v / m) * m + v % m && 0 <= v % m < m
  {}

  /** Quotient and remainder are the only ones. */
  lemma OneQuotient(m: int, q: int, r: int, p: int, s: int)
    requires m > 0 && q * m + r == p * m + s && 0 <= r < m && 0 <= s < m
    ensures q == p && r == s
  {
    Difference(q, p, m);
    NonzeroMultiple(q - p, m);
  }

  lemma DivModUnique(v: int, m: int, q: int, r: int)
    requires m > 0 && v == q * m + r && 0 <= r < m
    ensures v / m == q && v % m == r
  {
    DivMod(v, m);
    OneQuotient(m, v / m, v % m, q, r);
  }

  lemma TwoDivisions(a: int, b: int, q: int, r: int, s: int)
    requires a > 0 && 0 <= r < b && 0 <= s < a
    ensures a * b > 0 && (q * b + r) * a + s == q * (a * b) + (r * a + s) && 0 <= r * a + s < a * b
  {
    calc {
      (q * b + r) * a;
      (q * b) * a + r * a;
      q * (a * b) + r * a;
    }
    assert 0 <= r * a;
    assert (b - 1 - r) * a >= 0;
    assert (b - 1 - r) * a == b * a - a - r * a;
  }

  lemma DivDiv(v: int, a: int, b: int)
    requires a > 0 && b > 0
    ensures a * b > 0 && (v / a) / b == v / (a * b)
    ensures v % (a * b) == ((v / a) % b) * a + v % a
  {
    var x, s := v / a, v % a;
    var q, r := x / b, x % b;
    DivMod(v, a);
    DivMod(x, b);
    TwoDivisions(a, b, q, r, s);
    DivModUnique(v, a * b, q, r * a + s);
  }

  lemma ModSplit(v: int, m: int)
    requires m > 0
    ensures v % (256 * m) == 256 * ((v / 256) % m) + v % 256
  {
    DivDiv(v, 256, m);
  }

  // ---------------------------------------------------- the codec is a codec

  /** The i-th stored byte is the one the source computes by shift and mask. */
  lemma {:induction false} DigitsAt(v: int, n: nat, i: nat)
    requires i < n
    ensures Digits(v, n)[i] == (v / Pow256(n - 1 - i)) % 256
    decreases n, v
  {
    if i < n - 1 {
      DigitsAt(v / 256, n - 1, i);
      DivDiv(v, 256, Pow256(n - 2 - i));
    }
  }

  lemma {:induction false} ValueOfDigits(v: int, n: nat)
    ensures Value(Digits(v, n)) == v % Pow256(n)
    decreases n, v
  {
    if n == 0 {
    } else {
      assert Digits(v, n)[..n - 1] == Digits(v / 256, n - 1);
      ValueOfDigits(v / 256, n - 1);
      ModSplit(v, Pow256(n - 1));
    }
  }

  lemma {:induction false} DigitsOfValue(s: seq<byte>)
    ensures Value(s) < Pow256(|s|)
    ensures Digits(Value(s), |s|) == s
  {
    if s == [] {
    } else {
      var t := s[..|s| - 1];
      DigitsOfValue(t);
      DivModUnique(Value(s), 256, Value(t), s[|s| - 1]);
      assert s == t + [s[|s| - 1]];
    }
  }

  /** Digits see a value only up to the width. */
  lemma {:induction false} DigitsWrap(v: int, n: nat)
    ensures Digits(v - Pow256(n), n) == Digits(v, n)
    decreases n
  {
    if n == 0 {
    } else {
      var w := v - Pow256(n);
      DivModUnique(w, 256, v / 256 - Pow256(n - 1), v % 256);
      DigitsWrap(v / 256, n - 1);
    }
  }

  /** A pattern is the digits of its signed reading, which fits the width. */
  lemma DigitsOfSigned(s: seq<byte>)
    ensures Digits(Signed(Value(s), |s|), |s|) == s
    ensures FitsSigned(Signed(Value(s), |s|), |s|)
  {
    hide Digits, Value, Pow256;
    DigitsOfValue(s);
    DigitsWrap(Value(s), |s|);
  }

  /** Unsigned values come back exactly when they fit the width. */
  lemma UnsignedRoundTrip(v: int, n: nat)
    ensures Value(Digits(v, n)) == v <==> FitsUnsigned(v, n)
  {
    ValueOfDigits(v, n);
    if FitsUnsigned(v, n) { DivModUnique(v, Pow256(n), 0, v); }
  }

  /** Signed values come back exactly when they fit the width. */
  lemma SignedRoundTrip(v: int, n: nat)
    ensures Signed(Value(Digits(v, n)), n) == v <==> FitsSigned(v, n)
  {
    var p := Pow256(n);
    ValueOfDigits(v, n);
    if FitsSigned(v, n) {
      if v >= 0 { DivModUnique(v, p, 0, v); } else { DivModUnique(v, p, -1, v + p); }
    }
  }

  // ------------------------------------------------------------- bitwise or

  function BitOr(a: nat, b: nat): nat {
    if a == 0 && b == 0 then 0
    else 2 * BitOr(a / 2, b / 2) + (if a % 2 == 1 || b % 2 == 1 then 1 else 0)
  }

  function Pow2(k: nat): (p: nat)
    ensures p > 0
  {
    if k == 0 then 1 else 2 * Pow2(k - 1)
  }

  lemma {:induction false} BitOrZero(b: nat)
    ensures BitOr(0, b) == b
  {
    if b == 0 {
    } else {
      BitOrZero(b / 2);
    }
  }

  /** Or-ing patterns with no bit in common adds them. */
  lemma {:induction false} BitOrDisjoint(high: nat, low: nat, k: nat)
    requires low < Pow2(k)
    ensures BitOr(high * Pow2(k), low) == high * Pow2(k) + low
    decreases k
  {
    if k == 0 {
      BitOrNothing(high);
    } else {
      var h := high * Pow2(k - 1);
      assert high * Pow2(k) == 2 * h;
      DivModUnique(2 * h, 2, h, 0);
      BitOrDisjoint(high, low / 2, k - 1);
    }
  }

  lemma {:induction false} BitOrNothing(a: nat)
    ensures BitOr(a, 0) == a
  {
    if a == 0 {
    } else {
      BitOrNothing(a / 2);
    }
  }

  lemma {:induction false} Pow256IsPow2(n: nat)
    ensures Pow256(n) == Pow2(8 * n)
  {
    if n == 0 {
    } else {
      Pow256IsPow2(n - 1);
      assert 8 * n == 8 * (n - 1) + 8;
      var m := 8 * (n - 1);
      assert Pow2(m + 8) == 2 * Pow2(m + 7) == 4 * Pow2(m + 6) == 8 * Pow2(m + 5) == 16 * Pow2(m + 4);
      assert Pow2(m + 4) == 2 * Pow2(m + 3) == 4 * Pow2(m + 2) == 8 * Pow2(m + 1) == 16 * Pow2(m);
    }
  }

  lemma OrBelow(high: nat, low: nat, n: nat)
    requires low < Pow256(n)
    ensures BitOr(high * Pow256(n), low) == high * Pow256(n) + low
  {
    Pow256IsPow2(n);
    BitOrDisjoint(high, low, 8 * n);
  }

  lemma ByteBelow(b: byte, p: nat)
    requires p > 0
    ensures b * p < 256 * p
  {}

  lemma RegroupByte(high: nat, b: byte, p: nat)
    ensures high * (256 * p) + b * p == (256 * high + b) * p
  {}

  /** x << 8 * k. */
  function Shifted(x: nat, k: nat): nat {
    x * Pow256(k)
  }

  /** One round of the reading loop: or-ing in the next lower byte. */
  lemma OrNextByte(high: nat, b: byte, k: nat)
    ensures BitOr(Shifted(high, k + 1), Shifted(b, k)) == Shifted(256 * high + b, k)
  {
    hide BitOr;
    ByteBelow(b, Pow256(k));
    OrBelow(high, b * Pow256(k), k + 1);
    RegroupByte(high, b, Pow256(k));
  }

  lemma ShiftedEnds(x: nat, k: nat)
    ensures Shifted(0, k) == 0 && Shifted(x, 0) == x
  {}

  lemma NextByteValue(s: seq<byte>, off: nat, i: nat)
    requires off + i < |s|
    ensures Value(s[off..off]) == 0
    ensures Value(s[off..off + i + 1]) == 256 * Value(s[off..off + i]) + s[off + i]
  {
    assert s[off..off + i + 1][..i] == s[off..off + i];
  }

  /** The round of the loop that reads byte i of n. */
  lemma ReadRound(s: seq<byte>, off: nat, n: nat, i: nat)
    requires off + n <= |s| && i < n
    ensures BitOr(Shifted(Value(s[off..off + i]), n - i), Shifted(s[off + i], n - i - 1))
         == Shifted(Value(s[off..off + i + 1]), n - i - 1)
  {
    hide Value, Shifted, BitOr;
    NextByteValue(s, off, i);
    OrNextByte(Value(s[off..off + i]), s[off + i], n - i - 1);
  }

  // ---------------------------------------------------------------- the loops

  /** The indices off, off + 1, ..., off + n - 1. */
  ghost function Range(off: nat, n: nat): (r: seq<nat>)
    ensures |r| == n
  {
    seq(n, i => off + i)
  }

  lemma RangeAppend(off: nat, m: nat, n: nat)
    ensures Range(off, m) + Range(off + m, n) == Range(off, m + n)
  {
    assert |Range(off, m) + Range(off + m, n)| == m + n;
  }

  /** Stores v in n bytes at off; `writes` logs every index stored to, in order. */
  method To(a: array<byte>, off: nat, v: int, n: nat) returns (size: nat, ghost writes: seq<nat>)
    requires off + n <= a.Length
    modifies a
    ensures size == n
    ensures a[..off + n] == old(a[..off]) + Digits(v, n)
    ensures forall k :: off + n <= k < a.Length ==> a[k] == old(a[k])
    ensures writes == Range(off, n)
  {
    writes := [];
    for i := 0 to n
      invariant forall k :: 0 <= k < i ==> a[off + k] == Digits(v, n)[k]
      invariant a[..off] == old(a[..off])
      invariant forall k :: off + n <= k < a.Length ==> a[k] == old(a[k])
      invariant writes == Range(off, i)
    {
      DigitsAt(v, n, i);
      a[off + i] := (v / Pow256(n - i - 1)) % 256;
      writes := writes + [off + i];
    }
    size := n;
  }

  /** Copies a block to off. */
  method CopyTo(a: array<byte>, off: nat, data: seq<byte>) returns (size: nat, ghost writes: seq<nat>)
    requires off + |data| <= a.Length
    modifies a
    ensures size == |data|
    ensures a[..off + |data|] == old(a[..off]) + data
    ensures forall k :: off + |data| <= k < a.Length ==> a[k] == old(a[k])
    ensures writes == Range(off, |data|)
  {
    writes := [];
    for i := 0 to |data|
      invariant forall k :: 0 <= k < i ==> a[off + k] == data[k]
      invariant a[..off] == old(a[..off])
      invariant forall k :: off + |data| <= k < a.Length ==> a[k] == old(a[k])
      invariant writes == Range(off, i)
    {
      a[off + i] := data[i];
      writes := writes + [off + i];
    }
    size := |data|;
  }

  /** The reading loop, over a const buffer and hence a value, with every byte
      widened to the result type before the shift. */
  method From(s: seq<byte>, off: nat, n: nat) returns (v: nat)
    requires off + n <= |s|
    ensures v == Value(s[off..off + n])
  {
    hide Shifted, BitOr;
    ShiftedEnds(Value(s[off..off + n]), n);
    ShiftedEnds(Value(s[off..off + n]), 0);
    v := 0;
    for i := 0 to n
      invariant v == Shifted(Value(s[off..off + i]), n - i)
    {
      ReadRound(s, off, n, i);
      v := BitOr(v, Shifted(s[off + i], n - i - 1));
    }
  }

  /** `b << shift` on a byte promoted to a 32-bit int: undefined from 32 on,
      otherwise the 32-bit pattern read as a signed number. */
  function ShiftPromoted(b: byte, shift: nat): Option<int> {
    if shift >= 32 then None else Some(Signed((b * Pow2(shift)) % Pow256(4), 4))
  }

  /** The reading loop as it is written: each byte is shifted as an int and the
      result converted to the n-byte pattern.  None: the shift is undefined. */
  method FromAsWritten(s: seq<byte>, off: nat, n: nat) returns (v: Option<nat>)
    requires off + n <= |s|
    ensures v == if n <= 4 then Some(Value(s[off..off + n])) else None
  {
    hide Shifted, BitOr, ShiftPromoted, Pow256;
    ShiftedEnds(Value(s[off..off + n]), n);
    var acc := 0;
    for i := 0 to n
      invariant i > 0 ==> n <= 4
      invariant acc == Shifted(Value(s[off..off + i]), n - i)
    {
      PromotedShift(s[off + i], n - i - 1);
      var shifted := ShiftPromoted(s[off + i], 8 * (n - i - 1));
      if shifted == None {
        return None;
      }
      PromotedPattern(s[off + i], n, n - i - 1);
      ReadRound(s, off, n, i);
      acc := BitOr(acc, shifted.value % Pow256(n));
    }
    v := Some(acc);
  }

  lemma PromotedShift(b: byte, k: nat)
    ensures ShiftPromoted(b, 8 * k) == None <==> k >= 4
  {
    hide Signed, Pow2, Pow256;
  }

  /** Up to 32 bits the promoted shift and the conversion leave the byte in its place. */
  lemma PromotedPattern(b: byte, n: nat, k: nat)
    requires k < n <= 4
    ensures ShiftPromoted(b, 8 * k) != None
    ensures ShiftPromoted(b, 8 * k).value % Pow256(n) == Shifted(b, k)
  {
    Pow256IsPow2(k);
    ByteFits(b, k, n);
    hide Pow256, Pow2, Signed;
    NarrowPattern(b * Pow256(k), n);
  }

  lemma ByteFits(b: byte, k: nat, n: nat)
    requires k < n
    ensures 0 <= b * Pow256(k) < Pow256(n)
  {
    ByteBelow(b, Pow256(k));
    assert Pow256(k + 1) == 256 * Pow256(k);
    hide Pow256;
    Pow256Grows(k + 1, n);
  }

  /** An n-byte pattern read as a 32-bit number and narrowed again. */
  lemma NarrowPattern(p: nat, n: nat)
    requires n <= 4 && p < Pow256(n)
    ensures p % Pow256(4) == p && Signed(p, 4) % Pow256(n) == p
  {
    Pow256Grows(n, if n < 4 then 3 else 4);
    assert Pow256(3) == 0x100_0000 && Pow256(4) == 0x1_0000_0000;
    DivModUnique(p, Pow256(4), 0, p);
    DivModUnique(p, Pow256(n), 0, p);
    if Signed(p, 4) != p {
      assert n == 4;
      DivModUnique(p - Pow256(4), Pow256(4), -1, p);
    }
  }

  lemma {:induction false} Pow256Grows(m: nat, n: nat)
    requires m <= n
    ensures Pow256(m) <= Pow256(n)
    decreases n
  {
    if m == n {
    } else {
      Pow256Grows(m, n - 1);
    }
  }
}
