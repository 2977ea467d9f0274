/**
 * Fixed-width integer semantics of the evaluator: the C code converts
 * doubles to `int32_t` (floor, then wrap) and computes bitwise operators
 * and shifts on 32-bit two's-complement values.  Here a value is a
 * mathematical `int` and every wrap-around is written out.
 */
module Int32 {

  const Two32: int := 0x1_0000_0000
  const Two31: int := 0x8000_0000

  predicate InRange(x: int) {
    -Two31 <= x < Two31
  }

  /** Two's-complement wrap of an unbounded integer into 32 bits. */
  function Wrap(x: int): (r: int)
    ensures InRange(r)
    ensures (r - x) % Two32 == 0
  {
    (x + Two31) % Two32 - Two31
  }

  /** The wrap is the identity on values that already fit. */
  lemma WrapIdentity(x: int)
    requires InRange(x)
    ensures Wrap(x) == x
  {
  }

  /** Any in-range value congruent to x modulo 2^32 is Wrap(x). */
  lemma WrapUnique(x: int, r: int)
    requires InRange(r) && (r - x) % Two32 == 0
    ensures r == Wrap(x)
  {
    var w := Wrap(x);
    assert (r - w) % Two32 == 0 by {
      assert r - w == (r - x) - (w - x);
    }
    assert -Two32 < r - w < Two32;
  }

  /** `to_i32`: floor the value, then wrap it into signed 32 bits. */
  function ToI32(v: real): (r: int)
    ensures InRange(r)
    ensures (r - v.Floor) % Two32 == 0
  {
    Wrap(v.Floor)
  }

  /** `to_u32`: the unsigned reinterpretation of `to_i32`. */
  function ToU32(v: real): (r: int)
    ensures 0 <= r < Two32
    ensures (r - v.Floor) % Two32 == 0
  {
    ToI32(v) % Two32
  }

  function Pow2(k: nat): (r: nat)
    ensures r >= 1
  {
    if k == 0 then 1 else 2 * Pow2(k - 1)
  }

  /** 2^(a+b) = 2^a * 2^b. */
  lemma {:induction false} Pow2Add(a: nat, b: nat)
    ensures Pow2(a + b) == Pow2(a) * Pow2(b)
  {
    if a > 0 {
      Pow2Add(a - 1, b);
    }
  }

  lemma Pow2Of32()
    ensures Pow2(31) == Two31 && Pow2(32) == Two32
  {
    assert Pow2(4) == 16;
    Pow2Add(4, 4);
    Pow2Add(8, 8);
    Pow2Add(16, 15);
    Pow2Add(16, 16);
  }

  /** The three bitwise operators `&`, `|` and `^`, one bit at a time. */
  datatype BitOp = AndBits | OrBits | XorBits

  function BitOf(op: BitOp, a: bool, b: bool): bool {
    match op
    case AndBits => a && b
    case OrBits => a || b
    case XorBits => a != b
  }

  /**
   * `op` applied to the low n bits of two naturals, least significant
   * bit first; the result has n bits.
   */
  function Bitwise(op: BitOp, u: nat, v: nat, n: nat): nat {
    if n == 0 then 0
    else (if BitOf(op, u % 2 == 1, v % 2 == 1) then 1 else 0) + 2 * Bitwise(op, u / 2, v / 2, n - 1)
  }

  /** The result of an n-bit operation has n bits. */
  lemma {:induction false} BitwiseBound(op: BitOp, u: nat, v: nat, n: nat)
    ensures Bitwise(op, u, v, n) < Pow2(n)
  {
    if n > 0 {
      BitwiseBound(op, u / 2, v / 2, n - 1);
    }
  }

  /** The top bit of the result is `op` of the operands' top bits. */
  lemma {:induction false} TopBit(op: BitOp, u: nat, v: nat, n: nat)
    requires u < Pow2(n + 1) && v < Pow2(n + 1)
    ensures (Bitwise(op, u, v, n + 1) >= Pow2(n)) == BitOf(op, u >= Pow2(n), v >= Pow2(n))
  {
    if n > 0 {
      TopBit(op, u / 2, v / 2, n - 1);
    }
  }

  /** Masking never sets a bit: the result is at most either operand. */
  lemma {:induction false} AndBelow(u: nat, v: nat, n: nat)
    requires u < Pow2(n) && v < Pow2(n)
    ensures Bitwise(AndBits, u, v, n) <= u && Bitwise(AndBits, u, v, n) <= v
  {
    if n > 0 {
      AndBelow(u / 2, v / 2, n - 1);
    }
  }

  /** Or never clears a bit: the result is at least either operand. */
  lemma {:induction false} OrAbove(u: nat, v: nat, n: nat)
    requires u < Pow2(n) && v < Pow2(n)
    ensures Bitwise(OrBits, u, v, n) >= u && Bitwise(OrBits, u, v, n) >= v
  {
    if n > 0 {
      OrAbove(u / 2, v / 2, n - 1);
    }
  }

  lemma {:induction false} XorSelf(u: nat, n: nat)
    ensures Bitwise(XorBits, u, u, n) == 0
  {
    if n > 0 {
      XorSelf(u / 2, n - 1);
    }
  }

  /** Xor with all ones complements an n-bit value. */
  lemma {:induction false} XorOnes(u: nat, n: nat)
    requires u < Pow2(n)
    ensures Bitwise(XorBits, u, Pow2(n) - 1, n) == Pow2(n) - 1 - u
  {
    if n > 0 {
      var p := Pow2(n - 1);
      ModUnique(u, 2, u / 2, u % 2);
      calc {
        Bitwise(XorBits, u, Pow2(n) - 1, n);
        { ModUnique(2 * p - 1, 2, p - 1, 1); }
        (1 - u % 2) + 2 * Bitwise(XorBits, u / 2, p - 1, n - 1);
        { XorOnes(u / 2, n - 1); }
        (1 - u % 2) + 2 * (p - 1 - u / 2);
      }
    }
  }

  /** The 32-bit pattern of an int32: its residue modulo 2^32. */
  function Unsigned(x: int): nat
    requires InRange(x)
  {
    x % Two32
  }

  /** The pattern of a negative value is the value plus 2^32; its top bit is the sign. */
  lemma UnsignedPattern(x: int)
    requires InRange(x)
    ensures Unsigned(x) < Two32
    ensures (Unsigned(x) >= Two31) == (x < 0)
    ensures x >= 0 ==> Unsigned(x) == x
    ensures x < 0 ==> Unsigned(x) == x + Two32
  {
  }

  /** Reading a 32-bit pattern back as an int32. */
  lemma WrapPattern(u: int)
    requires 0 <= u < Two32
    ensures (Wrap(u) < 0) == (u >= Two31)
    ensures u < Two31 ==> Wrap(u) == u
    ensures u >= Two31 ==> Wrap(u) == u - Two32
  {
  }

  /** A bitwise operator on int32 values, through their 32-bit patterns. */
  function Signed(op: BitOp, x: int, y: int): int
    requires InRange(x) && InRange(y)
  {
    Wrap(Bitwise(op, Unsigned(x), Unsigned(y), 32))
  }

  /** The result is an int32 whose sign bit is `op` of the operands' signs. */
  lemma SignBit(op: BitOp, x: int, y: int)
    requires InRange(x) && InRange(y)
    ensures InRange(Signed(op, x, y))
    ensures (Signed(op, x, y) < 0) == BitOf(op, x < 0, y < 0)
  {
    Pow2Of32();
    UnsignedPattern(x);
    UnsignedPattern(y);
    BitwiseBound(op, Unsigned(x), Unsigned(y), 32);
    TopBit(op, Unsigned(x), Unsigned(y), 31);
    WrapPattern(Bitwise(op, Unsigned(x), Unsigned(y), 32));
  }

  function And(x: int, y: int): int
    requires InRange(x) && InRange(y)
  {
    Signed(AndBits, x, y)
  }

  /** `x & y`: negative only if both are; a non-negative operand bounds it. */
  lemma AndFacts(x: int, y: int)
    requires InRange(x) && InRange(y)
    ensures (And(x, y) < 0) == (x < 0 && y < 0)
    ensures 0 <= x ==> 0 <= And(x, y) <= x
    ensures 0 <= y ==> 0 <= And(x, y) <= y
  {
    SignBit(AndBits, x, y);
    Pow2Of32();
    UnsignedPattern(x);
    UnsignedPattern(y);
    AndBelow(Unsigned(x), Unsigned(y), 32);
    BitwiseBound(AndBits, Unsigned(x), Unsigned(y), 32);
    WrapPattern(Bitwise(AndBits, Unsigned(x), Unsigned(y), 32));
  }

  function Or(x: int, y: int): int
    requires InRange(x) && InRange(y)
  {
    Signed(OrBits, x, y)
  }

  /** `x | y`: negative if either is; otherwise at least both operands. */
  lemma OrFacts(x: int, y: int)
    requires InRange(x) && InRange(y)
    ensures (Or(x, y) < 0) == (x < 0 || y < 0)
    ensures 0 <= x && 0 <= y ==> x <= Or(x, y) && y <= Or(x, y)
  {
    SignBit(OrBits, x, y);
    Pow2Of32();
    UnsignedPattern(x);
    UnsignedPattern(y);
    OrAbove(Unsigned(x), Unsigned(y), 32);
    BitwiseBound(OrBits, Unsigned(x), Unsigned(y), 32);
    WrapPattern(Bitwise(OrBits, Unsigned(x), Unsigned(y), 32));
  }

  function Xor(x: int, y: int): int
    requires InRange(x) && InRange(y)
  {
    Signed(XorBits, x, y)
  }

  /** `x ^ y`: negative when exactly one is; a value xor itself is 0. */
  lemma XorFacts(x: int, y: int)
    requires InRange(x) && InRange(y)
    ensures (Xor(x, y) < 0) == ((x < 0) != (y < 0))
    ensures x == y ==> Xor(x, y) == 0
  {
    SignBit(XorBits, x, y);
    XorSelf(Unsigned(x), 32);
  }

  /**
   * `~x` on an int32.  Inverting every bit of a two's-complement value
   * gives -x - 1, which always fits again.
   */
  function Not(x: int): (r: int)
    requires InRange(x)
    ensures InRange(r)
  {
    -x - 1
  }

  /** `~x` is the bitwise complement: xor with the all-ones pattern -1. */
  lemma NotInvertsBits(x: int)
    requires InRange(x)
    ensures Not(x) == Xor(x, -1)
  {
    Pow2Of32();
    UnsignedPattern(x);
    XorOnes(Unsigned(x), 32);
    BitwiseBound(XorBits, Unsigned(x), Unsigned(-1), 32);
    WrapPattern(Bitwise(XorBits, Unsigned(x), Unsigned(-1), 32));
  }

  lemma {:induction false} AndZero(u: nat, n: nat)
    ensures Bitwise(AndBits, u, 0, n) == 0
  {
    if n > 0 {
      AndZero(u / 2, n - 1);
    }
  }

  /** Quotient and remainder are the only such pair. */
  lemma ModUnique(u: int, d: int, s: int, r: int)
    requires d >= 1 && u == d * s + r && 0 <= r < d
    ensures u % d == r && u / d == s
  {
    var s', r' := u / d, u % d;
    assert u == d * s' + r' && 0 <= r' < d;
    assert d * (s - s') == r' - r;
    if s > s' {
      MulMonotone(1, s - s', d);
    } else if s < s' {
      MulMonotone(1, s' - s, d);
    }
  }

  /** Adding a multiple of d keeps the residue modulo d. */
  lemma ModPeriod(x: int, d: int, c: int)
    requires d >= 1
    ensures (x + d * c) % d == x % d
  {
    var q, r := x / d, x % d;
    assert x == d * q + r && 0 <= r < d;
    assert x + d * c == d * (q + c) + r;
    ModUnique(x + d * c, d, q + c, r);
  }

  /** Splitting off the lowest bit of a residue modulo 2m. */
  lemma SplitMod(u: nat, m: nat)
    requires m >= 1
    ensures u % (2 * m) == u % 2 + 2 * ((u / 2) % m)
  {
    var q, b := u / 2, u % 2;
    var s, t := q / m, q % m;
    assert q == m * s + t && 0 <= t < m;
    assert u == 2 * (m * s + t) + b;
    assert 2 * (m * s + t) == (2 * m) * s + 2 * t;
    ModUnique(u, 2 * m, s, 2 * t + b);
  }

  /** One step of masking with 2p - 1: the low bit is kept, the rest masked with p - 1. */
  lemma AndOnesStep(u: nat, p: nat, n: nat)
    requires p >= 1
    ensures Bitwise(AndBits, u, 2 * p - 1, n + 1) == u % 2 + 2 * Bitwise(AndBits, u / 2, p - 1, n)
  {
    ModUnique(2 * p - 1, 2, p - 1, 1);
  }

  /** Masking with k low ones keeps the residue modulo 2^k. */
  lemma {:induction false} AndLowOnes(u: nat, k: nat, n: nat)
    requires k <= n
    ensures Bitwise(AndBits, u, Pow2(k) - 1, n) == u % Pow2(k)
  {
    if k == 0 {
      AndZero(u, n);
    } else {
      var p := Pow2(k - 1);
      calc {
        Bitwise(AndBits, u, Pow2(k) - 1, n);
        Bitwise(AndBits, u, 2 * p - 1, (n - 1) + 1);
        { AndOnesStep(u, p, n - 1); }
        u % 2 + 2 * Bitwise(AndBits, u / 2, p - 1, n - 1);
        { AndLowOnes(u / 2, k - 1, n - 1); }
        u % 2 + 2 * ((u / 2) % p);
        { SplitMod(u, p); }
        u % (2 * p);
      }
    }
  }

  /**
   * The shift distance `to_i32(b) & 31`.  The low five bits of a
   * two's-complement value are its residue modulo 32 (non-negative also
   * for negative values, as Dafny's `%` is).
   */
  function ShiftCount(x: int): (r: nat)
    requires InRange(x)
    ensures r < 32
  {
    x % 32
  }

  /** `& 31` keeps the pattern's residue modulo 32. */
  lemma MaskLowFive(x: int)
    requires InRange(x)
    ensures And(x, 31) == Unsigned(x) % 32
  {
    Pow2Of32();
    UnsignedPattern(x);
    assert Pow2(5) == 32;
    AndLowOnes(Unsigned(x), 5, 32);
    WrapPattern(Unsigned(x) % 32);
  }

  /** The residue is exactly the masked value `x & 31`. */
  lemma ShiftCountIsMask(x: int)
    requires InRange(x)
    ensures ShiftCount(x) == And(x, 31)
  {
    MaskLowFive(x);
    UnsignedPattern(x);
    if x < 0 {
      ModPeriod(x, 32, 0x800_0000);
    }
  }

  /** `x << k` on int32: multiply by 2^k and keep the low 32 bits. */
  function Shl(x: int, k: nat): (r: int)
    requires InRange(x) && k < 32
    ensures InRange(r)
    ensures (r - x * Pow2(k)) % Two32 == 0
  {
    Wrap(x * Pow2(k))
  }

  /** `x >> k` on int32: arithmetic shift, i.e. division rounding down. */
  function Shr(x: int, k: nat): (r: int)
    requires InRange(x) && k < 32
    ensures InRange(r)
    ensures r * Pow2(k) <= x < (r + 1) * Pow2(k)
  {
    DivBounds(x, Pow2(k));
    x / Pow2(k)
  }

  /** `x >>> k` on uint32: logical shift of an unsigned value. */
  function UShr(u: int, k: nat): (r: int)
    requires 0 <= u < Two32 && k < 32
    ensures 0 <= r < Two32
    ensures r * Pow2(k) <= u < (r + 1) * Pow2(k)
  {
    DivBounds(u, Pow2(k));
    u / Pow2(k)
  }

  /**
   * C's `%` on int32: the quotient is truncated toward zero, so the
   * remainder takes the sign of the dividend.
   */
  function Rem(x: int, y: int): (r: int)
    requires InRange(x) && InRange(y) && y != 0
    ensures x >= 0 ==> 0 <= r
    ensures x < 0 ==> r <= 0
    ensures -Abs(y) < r < Abs(y)
    ensures (x - r) % Abs(y) == 0
  {
    var a := Abs(y);
    if x >= 0 then
      DivBounds(x, a);
      MultipleMod(x / a, a);
      assert x - x % a == (x / a) * a;
      x % a
    else
      var q := (-x) / a;
      DivBounds(-x, a);
      MultipleMod(-q, a);
      assert x + (-x) % a == (-q) * a;
      -((-x) % a)
  }

  /** Euclidean division by a positive divisor brackets the dividend. */
  lemma DivBounds(x: int, d: int)
    requires d >= 1
    ensures x == d * (x / d) + x % d && 0 <= x % d < d
    ensures (x / d) * d <= x < (x / d + 1) * d
    ensures x >= 0 ==> 0 <= x / d <= x
    ensures x < 0 ==> x <= x / d < 0
  {
    var q, m := x / d, x % d;
    assert x == d * q + m && 0 <= m < d;
    Distribute(q, d);
    if x >= 0 {
      QuotientNonNeg(x, d, q, m);
    } else {
      QuotientNeg(x, d, q, m);
    }
  }

  lemma Distribute(q: int, d: int)
    ensures (q + 1) * d == q * d + d
    ensures d * q == q * d
  {
  }

  lemma QuotientNonNeg(x: int, d: int, q: int, m: int)
    requires d >= 1 && x >= 0 && x == d * q + m && 0 <= m < d
    ensures 0 <= q <= x
  {
    if q < 0 {
      MulMonotone(d, q + 1, 0);
    } else {
      MulMonotone(1, d, q);
    }
  }

  lemma QuotientNeg(x: int, d: int, q: int, m: int)
    requires d >= 1 && x < 0 && x == d * q + m && 0 <= m < d
    ensures x <= q < 0
  {
    if q >= 0 {
      MulMonotone(0, d, q);
    } else {
      MulMonotone(1, -q, d - 1);
      assert (-q) * (d - 1) == -(d * q) + q;
    }
  }

  /** Multiplying by a non-negative factor keeps the order. */
  lemma MulMonotone(a: int, b: int, c: int)
    requires 0 <= a <= b && c >= 0
    ensures a * c <= b * c
  {
    assert b * c - a * c == (b - a) * c;
  }

  lemma MultipleMod(q: int, d: int)
    requires d >= 1
    ensures (q * d) % d == 0
  {
    var m := q * d;
    var q', r := m / d, m % d;
    assert m == d * q' + r && 0 <= r < d;
    assert r == (q - q') * d;
    if q - q' > 0 {
      MulMonotone(1, q - q', d);
    } else if q - q' < 0 {
      MulMonotone(1, q' - q, d);
    }
  }

  function Abs(x: int): (r: int)
    ensures r >= 0 && (r == x || r == -x)
  {
    if x < 0 then -x else x
  }
}
