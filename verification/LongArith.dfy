/**
 Double-word arithmetic of the evaluation stack: the portable forms, used when
 the compiler has no 64-bit type, against the double-word values they stand for.
 */
module LongArith {
  import opened Words

  const HALF := 0x1_0000
  const EFLAG_INTOV := 4

  datatype Ret = Continue | Error

  /** The value of two registers, the first the more significant. */
  function Double(hi: Word, lo: Word): nat {
    hi * WORD_MOD + lo
  }

  lemma DoubleInjective(h1: Word, l1: Word, h2: Word, l2: Word)
    ensures Double(h1, l1) == Double(h2, l2) <==> h1 == h2 && l1 == l2
  {
  }

  lemma Halves(x: Word)
    ensures Shr(x, 16) == x / HALF < HALF && And(x, 0xFFFF) == x % HALF
    ensures x == Shr(x, 16) * HALF + And(x, 0xFFFF)
  {
    Pow2Values();
    AndMask(x, 16);
    HighLow(x, 16);
  }

  /** The two 16-bit digits of a word. */
  method Digits(x: Word) returns (hi: Word, lo: Word)
    ensures x == hi * HALF + lo && hi < HALF && lo < HALF
  {
    Halves(x);
    WordClosed(x, 0xFFFF);
    hi, lo := Shr(x, 16), And(x, 0xFFFF);
  }

  /** w doubled n times. */
  function Scale(w: nat, n: nat): nat
    decreases n
  {
    if n == 0 then w else Scale(2 * w, n - 1)
  }

  lemma {:induction false} ScaleIsProduct(w: nat, n: nat)
    ensures Scale(w, n) == w * Pow2(n)
    decreases n
  {
    if n > 0 {
      ScaleIsProduct(2 * w, n - 1);
      var p := Pow2(n - 1);
      assert (2 * w) * p == w * (2 * p);
    }
  }

  /** The shifts the search makes, with their scale factors. */
  ghost predicate ShiftStep(k: nat, p: nat) {
    || (k == 1 && p == 2) || (k == 2 && p == 4) || (k == 4 && p == 0x10)
    || (k == 8 && p == 0x100) || (k == 16 && p == 0x1_0000)
  }

  lemma ShiftMore(w: Word, n: nat, x: Word, k: nat, p: nat)
    requires x == Scale(w, n) && x * p < WORD_MOD && ShiftStep(k, p)
    ensures Shl(x, k) == x * p == Scale(w, n + k)
  {
    assert Pow2(k) == p by { Pow2Values(); }
    ScaleTwice(w, n, k);
    ScaleIsProduct(x, k);
    WrapWitness(x * p, 0, x * p);
  }

  lemma {:induction false} ScaleTwice(w: nat, n: nat, k: nat)
    ensures Scale(w, n + k) == Scale(Scale(w, n), k)
    decreases n
  {
    if n > 0 {
      ScaleTwice(2 * w, n - 1, k);
    }
  }

  /** The number of leading zeros, by binary search. */
  method LeadingZeros(w: Word) returns (n: nat)
    ensures w == 0 ==> n == 32
    ensures w != 0 ==> n <= 31 && MIN_INT <= w * Pow2(n) < WORD_MOD
  {
    if w == 0 {
      return 32;
    }
    var x: Word;
    x, n := Narrow(w, w, 0, 0x0000_FFFF, 16, 0x1_0000);
    x, n := Narrow(w, x, n, 0x00FF_FFFF, 8, 0x100);
    x, n := Narrow(w, x, n, 0x0FFF_FFFF, 4, 0x10);
    x, n := Narrow(w, x, n, 0x3FFF_FFFF, 2, 4);
    x, n := Narrow(w, x, n, 0x7FFF_FFFF, 1, 2);
    ScaleIsProduct(w, n);
  }

  /** One step of the search: x, which is w shifted n places, moves k further if it fits. */
  method Narrow(ghost w: Word, x: Word, n: nat, bound: Word, k: nat, ghost p: nat) returns (x': Word, n': nat)
    requires x == Scale(w, n) && (bound + 1) * p == WORD_MOD
    requires ShiftStep(k, p)
    ensures x' == Scale(w, n')
    ensures if x <= bound then x' == x * p && n' == n + k else x' == x && n' == n
  {
    if x <= bound {
      MulMono(x, bound, p);
      ShiftMore(w, n, x, k, p);
      return Shl(x, k), n + k;
    } else {
      return x, n;
    }
  }

  // ----- long division

  /**
   One quotient digit: the estimate un / vn1 is lowered until it no longer
   overshoots, all in wrapping 32-bit arithmetic.
   */
  method QuotientDigit(un: Word, d: Word, v: Word) returns (q: Word)
    requires MIN_INT <= v && un < v && d < HALF
    ensures q < HALF && q == (un * HALF + d) / v
  {
    var vn1, vn0 := Digits(v);
    var q1, rhat := EstimateDigit(un, d, v, vn1, vn0);
    q := CorrectDigit(un, d, v, vn1, vn0, q1, rhat);
  }

  method EstimateDigit(un: Word, ghost d: Word, ghost v: Word, vn1: Word, ghost vn0: Word) returns (q: Word, rhat: Word)
    requires MIN_INT <= v && un < v && d < HALF && v == vn1 * HALF + vn0 && vn0 < HALF && vn1 < HALF
    ensures q <= HALF + 1 && rhat < HALF && Estimate(un, d, v, vn1, vn0, q, rhat)
  {
    QuotientBounds(un, vn1);
    q := un / vn1;
    rhat := Wrap(un - Wrap(q * vn1));
    FirstEstimate(un, d, v, vn1, vn0, q);
  }

  /** The source's test that the digit overshoots. */
  predicate Overshoots(d: Word, vn0: Word, q: Word, rhat: Word) {
    q >= HALF || Wrap(q * vn0) > Wrap(Wrap(HALF * rhat) + d)
  }

  method CorrectDigit(ghost un: Word, d: Word, ghost v: Word, vn1: Word, vn0: Word, q0: Word, rhat0: Word)
    returns (q: Word)
    requires Estimate(un, d, v, vn1, vn0, q0, rhat0) && rhat0 < HALF && q0 <= HALF + 1
    ensures q < HALF && q == (un * HALF + d) / v
  {
    q := q0;
    var rhat := rhat0;
    while Overshoots(d, vn0, q, rhat)
      invariant Estimate(un, d, v, vn1, vn0, q, rhat)
      invariant rhat < HALF && q <= HALF + 1
      decreases q
    {
      LowerDigit(un, d, v, vn1, vn0, q, rhat);
      q := Wrap(q - 1);
      rhat := Wrap(rhat + vn1);
      if rhat >= HALF {
        break;
      }
    }
    Settled(un, d, v, vn1, vn0, q, rhat);
  }

  /** v is split into digits, rhat is what q leaves of un, and q is not too small. */
  ghost predicate Estimate(un: int, d: int, v: int, vn1: int, vn0: int, q: int, rhat: int) {
    && MIN_INT <= v < WORD_MOD && 0 <= un < v && 0 <= d < HALF
    && v == vn1 * HALF + vn0 && 0 <= vn0 < HALF && HALF / 2 <= vn1 < HALF
    && 0 <= q && 0 <= rhat
    && q * vn1 + rhat == un
    && un * HALF + d < (q + 1) * v
  }

  lemma FirstEstimate(un: Word, d: Word, v: Word, vn1: Word, vn0: Word, q: Word)
    requires MIN_INT <= v && un < v && d < HALF && v == vn1 * HALF + vn0 && vn0 < HALF
    requires HALF / 2 <= vn1 < HALF && q == un / vn1
    ensures var rhat := Wrap(un - Wrap(q * vn1));
            q <= HALF + 1 && rhat < HALF && Estimate(un, d, v, vn1, vn0, q, rhat)
  {
    QuotientBounds(un, vn1);
    var a, r := q * vn1, un % vn1;
    MulMono(0, q, vn1);
    assert Wrap(a) == a && Wrap(un - a) == r;
    if q >= HALF + 2 {
      MulMono(HALF + 2, q, vn1);
    }
    assert (q + 1) * vn1 == a + vn1;
    Expand(q + 1, vn1, vn0);
    MulMono(0, vn0, q + 1);
  }

  /** While the loop test holds the digit is still too large. */
  lemma LowerDigit(un: Word, d: Word, v: Word, vn1: Word, vn0: Word, q: Word, rhat: Word)
    requires Estimate(un, d, v, vn1, vn0, q, rhat) && rhat < HALF && q <= HALF + 1
    requires Overshoots(d, vn0, q, rhat)
    ensures Wrap(q - 1) == q - 1 && Wrap(rhat + vn1) == rhat + vn1
    ensures Estimate(un, d, v, vn1, vn0, Wrap(q - 1), Wrap(rhat + vn1))
  {
    assert (q - 1) * vn1 == q * vn1 - vn1;
    if q >= HALF {
      MulMono(HALF, q, v);
    } else {
      Small(q, vn0);
      NoWrap(q * vn0, rhat, d);
      Expand(q, vn1, vn0);
    }
  }

  lemma Small(x: nat, y: nat)
    requires x < HALF && y < HALF
    ensures 0 <= x * y < WORD_MOD
  {
    MulMono(x, HALF - 1, y);
    MulMono(0, x, y);
  }

  /** The operands of the loop test are below 2^32, so the test is exact. */
  lemma NoWrap(product: nat, rhat: Word, d: Word)
    requires product < WORD_MOD && rhat < HALF && d < HALF
    ensures Wrap(product) == product && Wrap(Wrap(HALF * rhat) + d) == HALF * rhat + d
  {
  }

  lemma Expand(q: int, vn1: int, vn0: int)
    ensures q * (vn1 * HALF + vn0) == (q * vn1) * HALF + q * vn0
  {
  }

  lemma Settled(un: Word, d: Word, v: Word, vn1: Word, vn0: Word, q: Word, rhat: Word)
    requires Estimate(un, d, v, vn1, vn0, q, rhat) && q <= HALF
    requires rhat >= HALF || !Overshoots(d, vn0, q, rhat)
    ensures q < HALF && q == (un * HALF + d) / v
  {
    if rhat >= HALF {
      MulMono(q, HALF, vn0);
    } else {
      Small(q, vn0);
      NoWrap(q * vn0, rhat, d);
    }
    Expand(q, vn1, vn0);
    assert (q + 1) * v == q * v + v;
    QuotientUnique(un * HALF + d, v, q, un * HALF + d - q * v);
    if q >= HALF {
      MulMono(HALF, q, v);
    }
  }

  /**
   The normalised two-digit division of u1:u0 by v. C leaves a 32-place shift of
   a word undefined; `undefinedShift` is whatever the platform makes of it, and
   no result depends on it.
   */
  method DivideDigits(u1: Word, u0: Word, v0: Word, undefinedShift: Word) returns (q: Word, r: Word)
    requires u1 < v0
    ensures q * v0 + r == Double(u1, u0) && r < v0
  {
    var s := LeadingZeros(v0);
    var v := Shl(v0, s);
    var un32 := NormalisedHigh(u1, u0, v0, s, undefinedShift);
    var un10 := Shl(u0, s);
    var un1, un0 := Digits(un10);

    var q1 := QuotientDigit(un32, un1, v);
    var un21 := MultiplySubtract(un32, un1, q1, v);
    var q0 := QuotientDigit(un21, un0, v);
    var last := MultiplySubtract(un21, un0, q0, v);
    r := Shr(last, s);
    q := Wrap(Wrap(q1 * HALF) + q0);

    TwoDigits(un32, un1, un0, q1, q0, un21, last, v);
    HighLow(last, s);
    Denormalise(Double(u1, u0), v0, Pow2(s), q, last);
  }

  lemma TwoDigits(un32: Word, un1: Word, un0: Word, q1: Word, q0: Word, un21: Word, last: Word, v: Word)
    requires q1 * v + un21 == un32 * HALF + un1 && q0 * v + last == un21 * HALF + un0
    requires q1 < HALF && q0 < HALF
    ensures Wrap(Wrap(q1 * HALF) + q0) == q1 * HALF + q0
    ensures (q1 * HALF + q0) * v + last == un32 * WORD_MOD + (un1 * HALF + un0)
  {
    Distribute(q1, q0, v);
    Recombine(un32, un1, un0, q1 * v, q0 * v, un21, last);
  }

  lemma Distribute(q1: int, q0: int, v: int)
    ensures (q1 * HALF + q0) * v == (q1 * v) * HALF + q0 * v
  {
  }

  lemma Recombine(un32: int, un1: int, un0: int, a: int, b: int, un21: int, last: int)
    requires a + un21 == un32 * HALF + un1 && b + last == un21 * HALF + un0
    ensures a * HALF + b + last == un32 * WORD_MOD + (un1 * HALF + un0)
  {
  }

  /** The remainder after a digit, in wrapping arithmetic. */
  method MultiplySubtract(un: Word, d: Word, q: Word, v: Word) returns (r: Word)
    requires MIN_INT <= v && un < v && d < HALF && q == (un * HALF + d) / v
    ensures r < v && q * v + r == un * HALF + d
  {
    r := Wrap(Wrap(Wrap(un * HALF) + d) - Wrap(q * v));
    DigitRemainder(un, d, v, q, r);
  }

  /** The high word of the dividend shifted left by s, with the bits shifted out of the low word. */
  method NormalisedHigh(u1: Word, u0: Word, ghost v0: Word, s: nat, undefinedShift: Word) returns (un32: Word)
    requires u1 < v0 && s <= 31 && MIN_INT <= v0 * Pow2(s) < WORD_MOD
    ensures Shl(v0, s) == v0 * Pow2(s) && un32 < v0 * Pow2(s)
    ensures un32 * WORD_MOD + Shl(u0, s) == Double(u1, u0) * Pow2(s)
  {
    Bounded(u1, v0, Pow2(s));
    var carried := BitsShiftedOut(u0, s, undefinedShift);
    OrIsSumAt(u1, carried, s);
    NormalisedValue(u1, u0, Pow2(s), carried, Shl(u0, s), u1 * Pow2(s) + carried);
    un32 := Or(Shl(u1, s), carried);
  }

  /** The top s bits of a word, masked to nothing when s is 0. */
  method BitsShiftedOut(u0: Word, s: nat, undefinedShift: Word) returns (carried: Word)
    requires s <= 31
    ensures carried < Pow2(s) && u0 * Pow2(s) == carried * WORD_MOD + Shl(u0, s)
  {
    var shifted := if s == 0 then undefinedShift else Shr(u0, 32 - s);
    var mask := if s == 0 then 0 else WORD_MOD - 1;
    WordClosed(shifted, mask);
    carried := And(shifted, mask);
    if s == 0 {
      assert And(undefinedShift, 0) == 0;
      WrapWitness(u0, 0, u0);
    } else {
      ShiftedIn(u0, s);
      AllOnes(shifted);
    }
  }

  lemma NormalisedValue(u1: Word, u0: Word, p: nat, hi: Word, lo: Word, un32: Word)
    requires un32 == u1 * p + hi && u0 * p == hi * WORD_MOD + lo
    ensures un32 * WORD_MOD + lo == Double(u1, u0) * p
  {
    DoubleScaled(u1, u0, p);
  }

  lemma Bounded(u1: Word, v0: Word, p: nat)
    requires u1 < v0 && v0 * p < WORD_MOD
    ensures 0 <= u1 * p && u1 * p + p <= v0 * p && Wrap(u1 * p) == u1 * p
  {
    MulMono(u1 + 1, v0, p);
    MulMono(0, u1, p);
    assert (u1 + 1) * p == u1 * p + p;
  }

  lemma AllOnes(x: Word)
    ensures And(x, WORD_MOD - 1) == x
  {
    Pow2Values();
    AndMask(x, 32);
    HighLow(x, 32);
  }

  lemma OrIsSumAt(u: nat, low: nat, s: nat)
    requires low < Pow2(s)
    ensures u * Pow2(s) >= 0 && Or(u * Pow2(s), low) == u * Pow2(s) + low
  {
    MulMono(0, u, Pow2(s));
    QuotientUnique(u * Pow2(s), Pow2(s), u, 0);
    OrIsSum(u * Pow2(s), low, s);
  }

  lemma DoubleScaled(u1: Word, u0: Word, p: nat)
    ensures Double(u1, u0) * p == (u1 * p) * WORD_MOD + u0 * p
  {
  }

  /** Shifting a word left by s places moves its top s bits into the word above. */
  lemma ShiftedIn(u0: Word, s: nat)
    requires 1 <= s <= 31
    ensures Shr(u0, 32 - s) < Pow2(s)
    ensures u0 * Pow2(s) == Shr(u0, 32 - s) * WORD_MOD + Shl(u0, s)
  {
    var t := 32 - s;
    assert Pow2(s) * Pow2(t) == WORD_MOD by { Pow2Sum(s, t); Pow2Values(); }
    HighLow(u0, t);
    var hi, lo := High(u0, t), Low(u0, t);
    assert Shr(u0, t) == hi;
    SplitScaled(u0, Pow2(s), Pow2(t), hi, lo);
    WrapWitness(u0 * Pow2(s), hi, lo * Pow2(s));
  }

  lemma SplitScaled(u0: Word, p: nat, pt: nat, hi: nat, lo: nat)
    requires p * pt == WORD_MOD && u0 == hi * pt + lo && lo < pt
    ensures hi < p && u0 * p == hi * WORD_MOD + lo * p && 0 <= lo * p < WORD_MOD
  {
    if hi >= p {
      MulMono(p, hi, pt);
    }
    MulMono(lo + 1, pt, p);
    MulMono(0, lo, p);
    Regroup(hi, lo, pt, p);
  }

  lemma Regroup(hi: int, lo: int, pt: int, p: int)
    ensures (hi * pt + lo) * p == hi * (p * pt) + lo * p
    ensures (lo + 1) * p == lo * p + p
  {
    assert (hi * pt) * p == hi * (p * pt);
  }

  /** The wrapped multiply-and-subtract is the exact remainder. */
  lemma DigitRemainder(un: Word, d: Word, v: Word, q: Word, r: Word)
    requires MIN_INT <= v && un < v && d < HALF && q == (un * HALF + d) / v
    requires r == Wrap(Wrap(Wrap(un * HALF) + d) - Wrap(q * v))
    ensures r < v && q * v + r == un * HALF + d
  {
    var u := un * HALF + d;
    QuotientBounds(u, v);
    var p := q * v;
    WrapDifference(un * HALF, d, p);
    WrapWitness(u - p, 0, u - p);
  }

  lemma WrapDifference(a: int, b: int, c: int)
    ensures Wrap(Wrap(Wrap(a) + b) - Wrap(c)) == Wrap(a + b - c)
  {
    var r1 := Wrap(a) + b;
    var r2 := Wrap(r1) - Wrap(c);
    WrapWitness(a + b - c, a / WORD_MOD + r1 / WORD_MOD - c / WORD_MOD + r2 / WORD_MOD, Wrap(r2));
  }

  lemma Denormalise(n: nat, v0: nat, p: nat, q: nat, last: nat)
    requires p > 0 && last < v0 * p && q * (v0 * p) + last == n * p
    ensures last / p < v0 && q * v0 + last / p == n
  {
    var r := n - q * v0;
    assert r * p == last by {
      assert r * p == n * p - (q * v0) * p;
      assert (q * v0) * p == q * (v0 * p);
    }
    if r < 0 {
      MulMono(r, -1, p);
    }
    QuotientUnique(last, p, r, 0);
    if r >= v0 {
      MulMono(v0, r, p);
    }
  }

  // ----- long multiplication

  /** The double-word product from four 16-bit products. */
  method MultiplyDigits(u: Word, v: Word) returns (hi: Word, lo: Word)
    ensures Double(hi, lo) == Mul(u, v)
  {
    var u0, u1 := Digits(u);
    var v0, v1 := Digits(v);
    var k, w3 := DigitMultiplyAdd(u1, v1, 0);
    var w1, w2 := DigitMultiplyAdd(u0, v1, k);
    var k', w4 := DigitMultiplyAdd(u1, v0, w2);
    var p := DigitMultiply(u0, v0);
    FourProducts(u, v, u0, u1, v0, v1);
    Collect(Mul(u, v), p, Mul(u0, v1), Mul(u1, v0), Mul(u1, v1), k, w3, w1, w2, k', w4);
    HighWordFits(u, v, p + w1 + k', w4 * HALF + w3);
    LowWord(k', w4, w3);
    HighWord(p, w1, k');
    hi := Wrap(Wrap(p + w1) + k');
    lo := Wrap(Wrap((k' * HALF + w4) * HALF) + w3);
  }

  lemma LowWord(k: Word, w4: Word, w3: Word)
    requires w4 < HALF && w3 < HALF
    ensures Wrap(Wrap((k * HALF + w4) * HALF) + w3) == w4 * HALF + w3
  {
    assert (k * HALF + w4) * HALF == k * WORD_MOD + w4 * HALF;
  }

  lemma HighWord(p: nat, w1: nat, k: nat)
    requires p + w1 + k < WORD_MOD
    ensures Wrap(Wrap(p + w1) + k) == p + w1 + k
  {
  }

  lemma Collect(uv: int, p: int, p01: int, p10: int, p11: int, k: int, w3: int, w1: int, w2: int, k': int, w4: int)
    requires uv == p * WORD_MOD + p01 * HALF + p10 * HALF + p11
    requires k * HALF + w3 == p11 && w1 * HALF + w2 == p01 + k && k' * HALF + w4 == p10 + w2
    ensures uv == (p + w1 + k') * WORD_MOD + (w4 * HALF + w3)
  {
  }

  method DigitMultiply(x: Word, y: Word) returns (p: Word)
    requires x < HALF && y < HALF
    ensures p == Mul(x, y)
  {
    DigitProduct(x, y, 0);
    MulIsProduct(x, y);
    p := Wrap(x * y);
  }

  /** x * y + z, split into 16-bit digits. */
  method DigitMultiplyAdd(x: Word, y: Word, z: Word) returns (hi: Word, lo: Word)
    requires x < HALF && y < HALF && z < HALF
    ensures hi * HALF + lo == Mul(x, y) + z && hi < HALF && lo < HALF
  {
    DigitProduct(x, y, z);
    MulIsProduct(x, y);
    hi, lo := Digits(Wrap(Wrap(x * y) + z));
  }

  lemma DigitProduct(x: nat, y: nat, z: nat)
    requires x < HALF && y < HALF && z < HALF
    ensures 0 <= x * y && x * y + z < WORD_MOD
    ensures Wrap(x * y) == x * y && Wrap(Wrap(x * y) + z) == x * y + z
  {
    MulMono(x, HALF - 1, y);
    MulMono(0, x, y);
  }

  lemma FourProducts(u: Word, v: Word, u0: Word, u1: Word, v0: Word, v1: Word)
    requires u == u0 * HALF + u1 && v == v0 * HALF + v1
    ensures Mul(u, v) == Mul(u0, v0) * WORD_MOD + Mul(u0, v1) * HALF + Mul(u1, v0) * HALF + Mul(u1, v1)
  {
    MulSplits(v, u, u0, u1);
    MulSplits(u0, v, v0, v1);
    MulSplits(u1, v, v0, v1);
  }

  lemma MulSplits(x: nat, y: nat, hi: nat, lo: nat)
    requires y == hi * HALF + lo
    ensures Mul(x, y) == Mul(y, x) == Mul(x, hi) * HALF + Mul(x, lo) == Mul(hi, x) * HALF + Mul(lo, x)
  {
    MulIsProduct(x, y);
    MulIsProduct(y, x);
    MulIsProduct(x, hi);
    MulIsProduct(x, lo);
    MulIsProduct(hi, x);
    MulIsProduct(lo, x);
    Expand(x, hi, lo);
  }

  lemma HighWordFits(u: Word, v: Word, hi: nat, lo: Word)
    requires Mul(u, v) == hi * WORD_MOD + lo
    ensures hi < WORD_MOD - 1
  {
    MulIsProduct(u, v);
    MulMono(u, WORD_MOD - 1, v);
  }

  /** The carry out of a wrapped sum, read off the top bits of its operands and result. */
  function CarryBit(a: Word, b: Word, res: Word): (carry: Word)
    ensures carry == (if Top(a) == Top(b) then Top(a) else 1 - Top(res))
  {
    TopBits(a, b);
    var either := And(Or(a, b), Not(res));
    TopBits(Or(a, b), Not(res));
    TopBits(And(a, b), either);
    Top(Or(And(a, b), either))
  }

  lemma CarryIsExact(a: Word, b: Word)
    ensures a + b == Double(CarryBit(a, b, Wrap(a + b)), Wrap(a + b))
  {
  }

  /** Add a word to a double word, with the carry from its low half. */
  method AddToDouble(hi: Word, lo: Word, c: Word) returns (hi': Word, lo': Word)
    requires hi < WORD_MOD - 1
    ensures Double(hi', lo') == Double(hi, lo) + c
  {
    CarryIsExact(lo, c);
    lo' := Wrap(lo + c);
    var carry := CarryBit(lo, c, lo');
    WrapWitness(hi + carry, 0, hi + carry);
    hi' := Wrap(hi + carry);
  }

  /** A sum in wrapping arithmetic, with the carry of its first addition. */
  method SumWithCarry(b: Word, a: Word, c: Word) returns (result: Word, carry: Word)
    ensures result == Wrap(b + a + c % 2) && carry == (b + a) / WORD_MOD
  {
    AndMask(c, 1);
    assert And(c, 1) == c % 2;
    CarryIsExact(b, a);
    var resnocarry := Wrap(b + a);
    carry := CarryBit(b, a, resnocarry);
    WrapWitness(b + a, carry, resnocarry);
    var x := resnocarry + c % 2;
    WrapWitness(b + a + c % 2, carry + x / WORD_MOD, Wrap(x));
    result := Wrap(resnocarry + And(c, 1));
  }

  /** The borrow out of b - a less a borrow in, by the same means. */
  function BorrowBit(b: Word, a: Word, res: Word): (borrow: Word)
    ensures borrow == (if Top(b) == Top(a) then Top(res) else Top(a))
  {
    TopBits(b, a);
    var equiv := Wrap(And(b, a) - Or(b, a) - 1);
    assert equiv == Not(Xor(b, a)) by { OrSplits(b, a); }
    TopBits(Not(b), a);
    TopBits(equiv, res);
    var below, same := And(Not(b), a), And(equiv, res);
    TopBits(below, same);
    Top(Or(below, same))
  }

  lemma BorrowIsExact(b: Word, a: Word, c: int)
    requires 0 <= c <= 1
    ensures var res := Wrap(b - a - c); b - a - c == res - BorrowBit(b, a, res) * WORD_MOD
  {
    var d := b - a - c;
    var k := if d < 0 then 1 else 0;
    WrapWitness(d, -k, d + k * WORD_MOD);
  }

  method DifferenceWithBorrow(b: Word, a: Word, c: Word) returns (result: Word, borrow: Word)
    ensures result == Wrap(b - a - c % 2) && b - a - c % 2 == result - borrow * WORD_MOD
  {
    AndMask(c, 1);
    assert And(c, 1) == c % 2;
    var resnoborrow := Wrap(b - a);
    var x := resnoborrow - c % 2;
    WrapWitness(b - a - c % 2, (b - a) / WORD_MOD + x / WORD_MOD, Wrap(x));
    BorrowIsExact(b, a, c % 2);
    result := Wrap(resnoborrow - And(c, 1));
    borrow := BorrowBit(b, a, result);
  }

  // ----- long shifts

  const DOUBLE_MOD := WORD_MOD * WORD_MOD

  /** The double-word branch of lshl and lshr: an unsigned count, zero from 64 up. */
  function LongShl(d: nat, count: Word): nat {
    if count < 64 then (d * Pow2(count)) % DOUBLE_MOD else 0
  }

  function LongShr(d: nat, count: Word): nat {
    QuotientBounds(d, Pow2(count));
    if count < 64 then d / Pow2(count) else 0
  }

  /** d doubled n times within 64 bits. */
  function Doubled(d: nat, n: nat): nat
    decreases n
  {
    if n == 0 then d else (2 * Doubled(d, n - 1)) % DOUBLE_MOD
  }

  lemma {:induction false} DoubledIsShift(d: nat, n: nat)
    requires d < DOUBLE_MOD
    ensures Doubled(d, n) == Scale(d, n) % DOUBLE_MOD
    decreases n
  {
    if n > 0 {
      DoubledIsShift(d, n - 1);
      ScaleStep(d, n - 1);
      TwiceMod(Scale(d, n - 1));
    }
  }

  lemma TwiceMod(x: nat)
    ensures (2 * (x % DOUBLE_MOD)) % DOUBLE_MOD == (2 * x) % DOUBLE_MOD
  {
    var q, r := x / DOUBLE_MOD, x % DOUBLE_MOD;
    assert x == q * DOUBLE_MOD + r;
    var k := if 2 * r < DOUBLE_MOD then 0 else 1;
    QuotientUnique(2 * x, DOUBLE_MOD, 2 * q + k, 2 * r - k * DOUBLE_MOD);
    QuotientUnique(2 * r, DOUBLE_MOD, k, 2 * r - k * DOUBLE_MOD);
  }

  /** Doubling up to 64 times is the double-word shift, which clears the word at 64. */
  lemma LoopIsLongShl(d: nat, count: nat)
    requires d < DOUBLE_MOD && count < WORD_MOD
    ensures Doubled(d, if count > 64 then 64 else count) == LongShl(d, count)
  {
    var n := if count > 64 then 64 else count;
    DoubledIsShift(d, n);
    ScaleIsProduct(d, n);
    if n == 64 {
      Pow2Values();
      QuotientUnique(d * DOUBLE_MOD, DOUBLE_MOD, d, 0);
    }
  }

  lemma LoopIsLongShr(d: nat, count: nat)
    requires d < DOUBLE_MOD && count < WORD_MOD
    ensures High(d, if count > 64 then 64 else count) == LongShr(d, count)
  {
    var n := if count > 64 then 64 else count;
    HighLow(d, n);
    if n == 64 {
      Pow2Values();
      QuotientUnique(d, DOUBLE_MOD, 0, d);
    }
  }

  lemma {:induction false} HighStep(d: nat, n: nat)
    ensures High(d, n + 1) == High(d, n) / 2
  {
    if n > 0 {
      HighStep(d / 2, n - 1);
    }
  }

  lemma OneLeft(c: Word, b: Word)
    ensures var c' := Wrap(c * 2); var b' := Wrap(b * 2);
            Or(c', Top(b)) < WORD_MOD && Double(Or(c', Top(b)), b') == (2 * Double(c, b)) % DOUBLE_MOD
  {
    WrapWitness(c * 2, Top(c), c * 2 - Top(c) * WORD_MOD);
    WrapWitness(b * 2, Top(b), b * 2 - Top(b) * WORD_MOD);
    if Top(b) == 1 {
      OrLowBit(Wrap(c * 2));
    }
    var d' := 2 * Double(c, b) - Top(c) * DOUBLE_MOD;
    QuotientUnique(2 * Double(c, b), DOUBLE_MOD, Top(c), d');
  }

  lemma OneRight(c: Word, b: Word)
    ensures Or(b / 2, (c % 2) * MIN_INT) < WORD_MOD
    ensures Double(c / 2, Or(b / 2, (c % 2) * MIN_INT)) == Double(c, b) / 2
  {
    Pow2Values();
    OrCommutes(b / 2, MIN_INT);
    OrIsSum(MIN_INT, b / 2, 31);
  }

  // ----- the instructions

  /** The evaluation stack and error flags of an execution context. */
  class EvalStack {
    var areg: Word
    var breg: Word
    var creg: Word
    var eflags: nat

    constructor (a: Word, b: Word, c: Word)
      ensures areg == a && breg == b && creg == c && eflags == 0
    {
      areg, breg, creg, eflags := a, b, c, 0;
    }

    /** ldiv: C:B divided by A, flagged when the quotient would not fit. */
    method Ldiv(undefinedShift: Word) returns (ret: Ret)
      modifies this
      ensures creg == old(creg)
      ensures old(creg >= areg) ==> ret == Error && eflags == Or(old(eflags), EFLAG_INTOV)
      ensures old(creg >= areg) ==> areg == old(areg) && breg == old(breg)
      ensures old(creg < areg) ==> ret == Continue && eflags == old(eflags)
      ensures old(creg < areg) ==> areg == old(Double(creg, breg) / areg) && breg == old(Double(creg, breg) % areg)
      ensures old(creg < areg) ==> areg * old(areg) + breg == old(Double(creg, breg)) && breg < old(areg)
    {
      if creg >= areg {
        eflags := Or(eflags, EFLAG_INTOV);
        return Error;
      }
      var q, r := DivideDigits(creg, breg, areg, undefinedShift);
      QuotientUnique(Double(creg, breg), areg, q, r);
      areg, breg := q, r;
      return Continue;
    }

    /** lmul: B * A + C, low word in A and high word in B. */
    method Lmul() returns (ret: Ret)
      modifies this
      ensures ret == Continue && creg == old(creg) && eflags == old(eflags)
      ensures Double(breg, areg) == old(breg * areg + creg)
    {
      var hi, lo := MultiplyDigits(breg, areg);
      HighWordFits(breg, areg, hi, lo);
      MulIsProduct(breg, areg);
      breg, areg := AddToDouble(hi, lo, creg);
      return Continue;
    }

    /** lsum: the sum of A, B and the low bit of C, with a carry. */
    method Lsum() returns (ret: Ret)
      modifies this
      ensures ret == Continue && creg == old(creg) && eflags == old(eflags)
      ensures areg == old(Wrap(breg + areg + creg % 2))
      ensures breg == old((breg + areg) / WORD_MOD)
    {
      areg, breg := SumWithCarry(breg, areg, creg);
      return Continue;
    }

    /** ldiff: B less A less the low bit of C, with a borrow. */
    method Ldiff() returns (ret: Ret)
      modifies this
      ensures ret == Continue && creg == old(creg) && eflags == old(eflags)
      ensures areg == old(Wrap(breg - areg - creg % 2))
      ensures old(breg - areg - creg % 2) == areg - breg * WORD_MOD
    {
      areg, breg := DifferenceWithBorrow(breg, areg, creg);
      return Continue;
    }

    /**
     lshl: C:B shifted left by A places, one at a time, A being read as signed.
     A count with its top bit set is negative to the loop, which then leaves the
     value alone where the double-word branch clears it.
     */
    method Lshl() returns (ret: Ret)
      modifies this
      ensures ret == Continue && eflags == old(eflags) && creg == breg
      ensures old(areg) >= MIN_INT ==> Double(breg, areg) == old(Double(creg, breg))
      ensures Double(breg, areg) == old(LongShl(Double(creg, breg), areg))
         <==> old(areg < MIN_INT || Double(creg, breg) == 0)
    {
      ghost var d := Double(creg, breg);
      LoopIsLongShl(d, areg);
      if Signed(areg) > 64 {
        areg := 64;
      }
      var loop := 0;
      while loop < Signed(areg)
        invariant 0 <= loop && (loop == 0 || loop <= Signed(areg)) &&
                  areg == (if Signed(old(areg)) > 64 then 64 else old(areg))
        invariant Double(creg, breg) == Doubled(d, loop) && eflags == old(eflags)
      {
        OneLeft(creg, breg);
        TopMask(breg);
        var bit := if And(breg, MIN_INT) == 0 then 0 else 1;
        breg := Wrap(breg * 2);
        creg := Wrap(creg * 2);
        creg := Or(creg, bit);
        loop := loop + 1;
      }
      areg, breg := breg, creg;
      return Continue;
    }

    /** lshr: C:B shifted right by A places, likewise. */
    method Lshr() returns (ret: Ret)
      modifies this
      ensures ret == Continue && eflags == old(eflags) && creg == breg
      ensures old(areg) >= MIN_INT ==> Double(breg, areg) == old(Double(creg, breg))
      ensures Double(breg, areg) == old(LongShr(Double(creg, breg), areg))
         <==> old(areg < MIN_INT || Double(creg, breg) == 0)
    {
      hide And, Or;
      ghost var d := Double(creg, breg);
      LoopIsLongShr(d, areg);
      if Signed(areg) > 64 {
        areg := 64;
      }
      var loop := 0;
      while loop < Signed(areg)
        invariant 0 <= loop && (loop == 0 || loop <= Signed(areg)) &&
                  areg == (if Signed(old(areg)) > 64 then 64 else old(areg))
        invariant Double(creg, breg) == High(d, loop) && eflags == old(eflags)
      {
        HighStep(d, loop);
        OneRight(creg, breg);
        AndMask(creg, 1);
        var bit := if And(creg, 1) == 0 then 0 else MIN_INT;
        creg := creg / 2;
        breg := breg / 2;
        breg := Or(breg, bit);
        loop := loop + 1;
      }
      areg, breg := breg, creg;
      return Continue;
    }

    /** norm: shift B:A left until its top bit is set, counting the places in C. */
    method Norm() returns (ret: Ret)
      modifies this
      ensures ret == Continue && eflags == old(eflags)
      ensures old(areg == 0 && breg == 0) ==> areg == 0 && breg == 0 && creg == 64
      ensures old(areg != 0 || breg != 0) ==> breg >= MIN_INT && creg < 64
      ensures old(areg != 0 || breg != 0) ==> Double(breg, areg) == old(Double(breg, areg)) * Pow2(creg)
    {
      creg := 0;
      if areg == 0 && breg == 0 {
        creg := 64;
      } else {
        ghost var d := Double(breg, areg);
        while And(breg, MIN_INT) == 0
          invariant Double(breg, areg) == Scale(d, creg)
          invariant Double(breg, areg) > 0 && creg <= 63
          invariant eflags == old(eflags)
          decreases 64 - creg
        {
          ShiftPair(breg, areg);
          ScaleStep(d, creg);
          StaysBelow64(d, creg);
          breg := Wrap(breg * 2);
          if And(areg, MIN_INT) != 0 {
            breg := Or(breg, 1);
          }
          areg := Wrap(areg * 2);
          creg := creg + 1;
        }
        TopMask(breg);
        ScaleIsProduct(d, creg);
      }
      return Continue;
    }
  }

  lemma TopMask(x: Word)
    ensures And(x, MIN_INT) == Top(x) * MIN_INT
  {
    Pow2Values();
    TopBits(x, MIN_INT);
    AndZeroLow(x, 31);
    WordClosed(x, MIN_INT);
    HighLow(And(x, MIN_INT), 31);
  }

  lemma {:induction false} AndZeroLow(x: nat, k: nat)
    ensures Low(And(x, Pow2(k)), k) == 0
  {
    if k > 0 {
      AndZeroLow(x / 2, k - 1);
      AndStep(x, Pow2(k));
    }
  }

  /** Dividing a product with addend returns its parts. */
  method MultiplyThenDivide(q: Word, v: Word, r: Word, undefinedShift: Word) returns (q': Word, r': Word)
    requires r < v
    ensures q' == q && r' == r
  {
    var s := new EvalStack(v, q, r);
    var ret := s.Lmul();
    BelowDivisor(q, v, r, s.breg, s.areg);
    s.creg, s.breg, s.areg := s.breg, s.areg, v;
    ghost var product := Double(s.creg, s.breg);
    ret := s.Ldiv(undefinedShift);
    QuotientUnique(product, v, q, r);
    q', r' := s.areg, s.breg;
  }

  lemma BelowDivisor(q: Word, v: Word, r: Word, hi: Word, lo: Word)
    requires r < v && Double(hi, lo) == q * v + r
    ensures hi < v
  {
    MulMono(q, WORD_MOD - 1, v);
  }

  lemma {:induction false} ScaleStep(d: nat, n: nat)
    ensures Scale(d, n + 1) == 2 * Scale(d, n)
    decreases n
  {
    if n > 0 {
      ScaleStep(2 * d, n - 1);
    }
  }

  lemma StaysBelow64(d: nat, n: nat)
    requires 0 < Scale(d, n) < WORD_MOD * MIN_INT
    ensures n < 63
  {
    if n >= 63 {
      ScaleIsProduct(d, n);
      Pow2Values();
      if n > 63 { Pow2Monotone(63, n); }
      MulMono(1, d, Pow2(n));
    }
  }

  lemma ShiftPair(hi: Word, lo: Word)
    requires And(hi, MIN_INT) == 0
    ensures var hi' := if And(lo, MIN_INT) != 0 then Or(Wrap(hi * 2), 1) else Wrap(hi * 2);
            hi' < WORD_MOD && Double(hi', Wrap(lo * 2)) == 2 * Double(hi, lo) && hi < MIN_INT
  {
    TopMask(hi);
    TopMask(lo);
    OrLowBit(Wrap(hi * 2));
  }

  lemma OrLowBit(x: Word)
    requires x % 2 == 0
    ensures Or(x, 1) == x + 1
  {
    OrIsSum(x, 1, 1);
  }
}
