/**
 The software REAL32 instructions. A REAL32 magnitude is compared exactly, as an
 integer number of units of 2^-149, the smallest denormal.
 */
module SoftFloat {
  import opened Words
  import opened LongArith

  const FP_INFINITY := 0x7F80_0000
  const FRACTION_MOD := 0x80_0000
  const GUARD_MOD := 0x100_0000_0000

  /** The exponent field of a pattern with its sign cleared. */
  function ExponentField(f: nat): nat {
    f / FRACTION_MOD
  }

  /** The spacing of magnitudes at a pattern. */
  function Spacing(f: nat): nat {
    if ExponentField(f) == 0 then 1 else Pow2(ExponentField(f) - 1)
  }

  /**
   The magnitude a pattern denotes, in units of 2^-149 (section 3.4 of IEEE
   754-2008). The infinity pattern gets the value the format would hold there,
   which is what rounding to nearest compares against.
   */
  function Magnitude(f: nat): nat {
    Mul(Significand(f), Spacing(f))
  }

  /** The fraction with its leading one, if it has one. */
  function Significand(f: nat): nat {
    if ExponentField(f) == 0 then f else FRACTION_MOD + f % FRACTION_MOD
  }

  lemma MagnitudeStep(f: nat)
    ensures Magnitude(f + 1) == Magnitude(f) + Spacing(f)
  {
    var e, m := f / FRACTION_MOD, f % FRACTION_MOD;
    var s := Spacing(f);
    MulIsProduct(Significand(f), s);
    MulIsProduct(Significand(f + 1), Spacing(f + 1));
    if m + 1 < FRACTION_MOD {
      QuotientUnique(f + 1, FRACTION_MOD, e, m + 1);
      if e > 0 {
        assert (FRACTION_MOD + m + 1) * s == (FRACTION_MOD + m) * s + s;
      }
    } else {
      QuotientUnique(f + 1, FRACTION_MOD, e + 1, 0);
      if e > 0 {
        assert Pow2(e) == 2 * s;
        assert (FRACTION_MOD + m) * s + s == FRACTION_MOD * (2 * s);
      }
    }
  }

  lemma {:induction false} MagnitudeMonotone(f: nat, g: nat)
    requires f <= g
    ensures Magnitude(f) <= Magnitude(g)
    decreases g - f
  {
    if f < g {
      MagnitudeStep(g - 1);
      MagnitudeMonotone(f, g - 1);
    }
  }

  // ----- unpacking

  /**
   unpacksn: the fraction left-aligned with its leading one, the exponent, and
   4 * B plus the kind: 0 zero, 1 number, 2 infinity, 3 not a number. A
   denormal keeps exponent 1 and gains no leading one.
   */
  method Unpacksn(s: EvalStack)
    modifies s
    ensures s.eflags == old(s.eflags)
    ensures var f := old(s.areg) % MIN_INT;
            var kind := if f == 0 then 0 else if f < FP_INFINITY then 1 else if f == FP_INFINITY then 2 else 3;
            s.creg == Wrap(4 * old(s.breg) + kind) &&
            (kind <= 1 ==> s.areg == Significand(f) * 256) &&
            (kind <= 1 ==> s.breg == (if f == 0 then 0 else if ExponentField(f) == 0 then 1 else ExponentField(f))) &&
            (kind >= 2 ==> s.areg == (f - FP_INFINITY) * 256 && s.breg == 0xFF)
  {
    var exponent, mantissa := Fields(s.areg);
    var kind;
    if exponent == 0 {
      if mantissa == 0 {
        kind := 0;
      } else {
        kind := 1;
        exponent := 1;
      }
    } else if exponent == 0xFF {
      kind := if mantissa == 0 then 2 else 3;
    } else {
      kind := 1;
      LeadingOne(mantissa);
      mantissa := Or(mantissa, MIN_INT);
    }
    s.areg, s.breg, s.creg := mantissa, exponent, Wrap(4 * s.breg + kind);
  }

  lemma LeadingOne(mantissa: Word)
    requires mantissa < MIN_INT
    ensures Or(mantissa, MIN_INT) == mantissa + MIN_INT
  {
    Pow2Values();
    OrCommutes(mantissa, MIN_INT);
    OrIsSum(MIN_INT, mantissa, 31);
  }

  /** The exponent field and the fraction field shifted to leave room for the leading one. */
  method Fields(w: Word) returns (exponent: Word, mantissa: Word)
    ensures var f := w % MIN_INT;
            exponent == ExponentField(f) <= 0xFF && mantissa == (f % FRACTION_MOD) * 256 < MIN_INT
  {
    Pow2Values();
    AndMask(Shr(w, 23), 8);
    HighLow(Shr(w, 23), 8);
    AndMask(w, 23);
    HighLow(w, 23);
    exponent := And(Shr(w, 23), 0xFF);
    mantissa := Shl(And(w, 0x7F_FFFF), 8);
    FieldsOf(w);
    WrapWitness((w % FRACTION_MOD) * 256, 0, (w % FRACTION_MOD) * 256);
  }

  lemma FieldsOf(w: Word)
    ensures (w / FRACTION_MOD) % 256 == (w % MIN_INT) / FRACTION_MOD
    ensures w % FRACTION_MOD == (w % MIN_INT) % FRACTION_MOD
  {
    var q, f := w / MIN_INT, w % MIN_INT;
    var e, m := f / FRACTION_MOD, f % FRACTION_MOD;
    QuotientUnique(w, FRACTION_MOD, q * 256 + e, m);
    QuotientUnique(q * 256 + e, 256, q, e);
  }

  // ----- after normalising

  /** A signed word widened to 64 bits as C converts it. */
  function SignExtend(w: Word): nat {
    if w < MIN_INT then w else w + (DOUBLE_MOD - WORD_MOD)
  }

  /**
   postnormsn: subtract the normalising shift from the exponent; below the
   normal range shift the fraction back right, and flush to zero at -32. The
   guard word is widened with its sign, so the shifted value is right exactly
   when the guard's top bit is clear or the fraction is all ones.
   */
  method Postnormsn(s: EvalStack, wsTemp: Word)
    modifies s
    ensures s.eflags == old(s.eflags)
    ensures var exponent := Signed(Wrap(wsTemp - old(s.creg)));
            (exponent <= -32 ==> s.areg == 0 && s.breg == 0 && s.creg == 0) &&
            (-32 < exponent <= 0 ==>
              s.creg == 0 &&
              (Double(s.breg, s.areg) == High(old(Double(s.breg, s.areg)), 1 - exponent) <==>
                 old(s.areg) < MIN_INT || old(s.breg) == WORD_MOD - 1)) &&
            (0 < exponent ==> s.creg == exponent && s.breg == old(s.breg) && s.areg == old(s.areg))
  {
    var guard := s.areg;
    var exponent := Wrap(wsTemp - s.creg);
    var mantissa := s.breg;
    if Signed(exponent) <= -32 {
      exponent, mantissa, guard := 0, 0, 0;
    } else if Signed(exponent) <= 0 {
      mantissa, guard := ShiftDown(mantissa, guard, 1 - Signed(exponent));
      exponent := 0;
    }
    s.areg, s.breg, s.creg := guard, mantissa, exponent;
  }

  /** The denormalising shift, in a 64-bit variable both words are converted to. */
  method ShiftDown(mantissa: Word, guard: Word, n: nat) returns (mantissa': Word, guard': Word)
    requires 1 <= n <= 32
    ensures Double(mantissa', guard') == High(Double(mantissa, guard), n) <==>
            guard < MIN_INT || mantissa == WORD_MOD - 1
  {
    WidenedPair(mantissa, guard);
    var x := (SignExtend(mantissa) * WORD_MOD) % DOUBLE_MOD;
    x := Or(x, SignExtend(guard));
    ShiftedDiffers(mantissa, guard, n);
    x := High(x, n);
    WrapWitness(x / WORD_MOD, 0, x / WORD_MOD);
    mantissa', guard' := Wrap(x / WORD_MOD), Wrap(x);
  }

  /** The 64-bit value the widening builds. */
  function Widened(mantissa: Word, guard: Word): nat {
    Double(if guard < MIN_INT then mantissa else WORD_MOD - 1, guard)
  }

  lemma WidenedPair(mantissa: Word, guard: Word)
    ensures Or((SignExtend(mantissa) * WORD_MOD) % DOUBLE_MOD, SignExtend(guard)) == Widened(mantissa, guard)
  {
    var x := SignExtend(mantissa) * WORD_MOD;
    var y := SignExtend(guard);
    QuotientUnique(x, DOUBLE_MOD, if mantissa < MIN_INT then 0 else WORD_MOD - 1, mantissa * WORD_MOD);
    var z := Or(mantissa * WORD_MOD, y);
    assert Pow2(32) == WORD_MOD by { Pow2Values(); }
    HighLow(mantissa * WORD_MOD, 32);
    HighLow(y, 32);
    HighLow(z, 32);
    QuotientUnique(mantissa * WORD_MOD, WORD_MOD, mantissa, 0);
    QuotientUnique(y, WORD_MOD, if guard < MIN_INT then 0 else WORD_MOD - 1, guard);
    OrHigh(mantissa * WORD_MOD, y, 32);
    OrLow(mantissa * WORD_MOD, y, 32);
    OrAllOnes(mantissa, 32);
  }

  /** Shifting by 1 to 32 places keeps every bit of the upper word, so a wrong upper word shows. */
  lemma ShiftedDiffers(mantissa: Word, guard: Word, n: nat)
    requires 1 <= n <= 32
    ensures High(Widened(mantissa, guard), n) < DOUBLE_MOD
    ensures High(Widened(mantissa, guard), n) == High(Double(mantissa, guard), n)
       <==> guard < MIN_INT || mantissa == WORD_MOD - 1
  {
    var x, y := Widened(mantissa, guard), Double(mantissa, guard);
    HighLow(x, n);
    DivSmaller(x, Pow2(n));
    if guard >= MIN_INT && mantissa != WORD_MOD - 1 && High(x, n) == High(y, n) {
      HighAgree(x, y, n);
      HighAgainFrom(x, y, n);
    }
  }

  lemma DivSmaller(x: nat, d: nat)
    requires d > 0 && x < DOUBLE_MOD
    ensures x / d < DOUBLE_MOD
  {
    QuotientBounds(x, d);
  }

  lemma HighAgree(x: nat, y: nat, n: nat)
    requires High(x, n) == High(y, n) && n <= 32
    ensures High(x, 32) == High(y, 32)
  {
    HighTwice(x, n, 32 - n);
    HighTwice(y, n, 32 - n);
  }

  lemma HighAgainFrom(x: nat, y: nat, n: nat)
    requires High(x, 32) == High(y, 32) && x < DOUBLE_MOD && y < DOUBLE_MOD
    ensures x / WORD_MOD == y / WORD_MOD
  {
    assert Pow2(32) == WORD_MOD by { Pow2Values(); }
    HighLow(x, 32);
    HighLow(y, 32);
  }

  // ----- rounding

  /** The kept 24 bits of a fraction and guard, rounded to nearest with ties to even. */
  function NearestEven(x: nat): nat {
    var kept, rest := x / GUARD_MOD, x % GUARD_MOD;
    if rest < GUARD_MOD / 2 || (rest == GUARD_MOD / 2 && kept % 2 == 0) then kept else kept + 1
  }

  /** roundsn: build the REAL32, rounding on the bits below its fraction. */
  method Roundsn(s: EvalStack)
    modifies s
    ensures s.eflags == old(s.eflags) && s.breg == old(s.breg) && s.creg == old(s.creg)
    ensures Signed(old(s.creg)) >= 0xFF ==> s.areg == FP_INFINITY
    ensures var x := old(Double(s.breg, s.areg)); var e := old(s.creg);
            e < 0xFF ==> s.areg == e * FRACTION_MOD + (x / GUARD_MOD) % FRACTION_MOD + (NearestEven(x) - x / GUARD_MOD)
  {
    if Signed(s.creg) >= 0xFF {
      s.areg := FP_INFINITY;
    } else {
      var f := Assemble(s.creg, s.breg);
      RoundBits(s.breg, s.areg, f);
      RoundTest(s.breg, s.areg);
      if And(s.breg, 0x80) == 0 {
      } else if Or(Or(s.areg, And(s.breg, 0x7F)), And(f, 1)) == 0 {
      } else {
        f := Wrap(f + 1);
      }
      s.areg := f;
    }
  }

  /** Exponent and fraction packed into their fields. */
  method Assemble(c: Word, b: Word) returns (f: Word)
    ensures f < MIN_INT && f % 2 == (b / 256) % 2
    ensures c < 0xFF ==> f == c * FRACTION_MOD + (b / 256) % FRACTION_MOD < FP_INFINITY
  {
    hide Shl, Or;
    var low := LowByte(c);
    var m := FractionBits(b);
    ShiftedField(low);
    PackedFields(low, m, b / 256);
    f := Or(Shl(low, 23), m);
  }

  lemma ShiftedField(low: Word)
    requires low < 256
    ensures Shl(low, 23) == low * FRACTION_MOD
  {
    assert Pow2(23) == FRACTION_MOD by { Pow2Values(); }
    WrapWitness(low * FRACTION_MOD, 0, low * FRACTION_MOD);
  }

  method LowByte(c: Word) returns (low: Word)
    ensures low == c % 256
  {
    Pow2Values();
    AndMask(c, 8);
    HighLow(c, 8);
    WordClosed(c, 0xFF);
    low := And(c, 0xFF);
  }

  lemma PackedFields(low: nat, m: nat, x: nat)
    requires low < 256 && m == x % FRACTION_MOD
    ensures Or(low * FRACTION_MOD, m) == low * FRACTION_MOD + m
    ensures (low * FRACTION_MOD + m) % 2 == x % 2
  {
    assert Pow2(23) == FRACTION_MOD by { Pow2Values(); }
    QuotientUnique(low * FRACTION_MOD, FRACTION_MOD, low, 0);
    OrIsSum(low * FRACTION_MOD, m, 23);
    ParityOf(low, m, x);
  }

  /** The fraction field: an arithmetic shift whose copies of the sign bit the mask drops. */
  method FractionBits(b: Word) returns (m: Word)
    ensures m == (b / 256) % FRACTION_MOD
  {
    var shifted := Wrap(Signed(b) / 256);
    WordClosed(shifted, 0x7F_FFFF);
    m := And(shifted, 0x7F_FFFF);
    var q := if b < MIN_INT then 0 else 1;
    QuotientUnique(Signed(b), 256, b / 256 - q * 0x100_0000, b % 256);
    SameLowBits(b / 256, q);
    assert Pow2(23) == FRACTION_MOD by { Pow2Values(); }
    AndMask(shifted, 23);
    HighLow(shifted, 23);
  }

  lemma SameLowBits(x: nat, q: int)
    requires x < 0x100_0000 && 0 <= q <= 1
    ensures Wrap(x - q * 0x100_0000) % FRACTION_MOD == x % FRACTION_MOD
  {
    WrapWitness(x - q * 0x100_0000, -q, x - q * 0x100_0000 + q * WORD_MOD);
    var y := x - q * 0x100_0000 + q * WORD_MOD;
    QuotientUnique(y, FRACTION_MOD, x / FRACTION_MOD - q * 2 + q * 512, x % FRACTION_MOD);
  }

  lemma ParityOf(low: nat, m: nat, x: nat)
    requires m == x % FRACTION_MOD
    ensures (low * FRACTION_MOD + m) % 2 == x % 2
  {
    var q := x / FRACTION_MOD;
    assert x == 2 * (q * 0x40_0000) + m;
    QuotientUnique(x, 2, q * 0x40_0000 + m / 2, m % 2);
    QuotientUnique(low * FRACTION_MOD + m, 2, low * 0x40_0000 + m / 2, m % 2);
  }

  /** The tests on the round bit and what lies below it, as tests on the low byte and guard. */
  lemma RoundBits(b: Word, a: Word, f: Word)
    ensures And(b, 0x80) == 0 <==> b % 256 < 128
    ensures And(b, 0x80) != 0 ==>
              (Or(Or(a, And(b, 0x7F)), And(f, 1)) == 0 <==> b % 256 == 128 && a == 0 && f % 2 == 0)
  {
    hide And, Or;
    RoundBit(b);
    if b % 256 >= 128 { SevenOfEight(b); }
    BelowRoundBit(b, a, f);
  }

  lemma SevenOfEight(b: Word)
    requires b % 256 >= 128
    ensures b % 128 == b % 256 - 128
  {
    QuotientUnique(b, 128, b / 256 * 2 + 1, b % 256 - 128);
  }

  lemma BelowRoundBit(b: Word, a: Word, f: Word)
    ensures Or(Or(a, And(b, 0x7F)), And(f, 1)) == 0 <==> b % 128 == 0 && a == 0 && f % 2 == 0
  {
    LowSeven(b);
    assert And(f, 1) == f % 2 by { AndMask(f, 1); }
    OrZero(a, b % 128);
    OrZero(Or(a, b % 128), f % 2);
  }

  /** The same tests decide NearestEven. */
  lemma RoundTest(b: Word, a: Word)
    ensures Double(b, a) / GUARD_MOD == b / 256
    ensures NearestEven(Double(b, a)) == b / 256 <==>
              b % 256 < 128 || (b % 256 == 128 && a == 0 && (b / 256) % 2 == 0)
  {
    QuotientUnique(Double(b, a), GUARD_MOD, b / 256, (b % 256) * WORD_MOD + a);
    Thresholds(b % 256, a);
  }

  lemma Thresholds(low: nat, a: Word)
    requires low < 256
    ensures low < 128 <==> low * WORD_MOD + a < GUARD_MOD / 2
    ensures low == 128 && a == 0 <==> low * WORD_MOD + a == GUARD_MOD / 2
  {
  }

  lemma LowSeven(b: Word)
    ensures And(b, 0x7F) == b % 128
  {
    Pow2Values();
    AndMask(b, 7);
    HighLow(b, 7);
  }

  lemma RoundBit(b: Word)
    ensures And(b, 0x80) == ((b / 128) % 2) * 128
  {
    Pow2Values();
    AndHigh(b, 0x80, 7);
    AndZeroLow(b, 7);
    HighLow(And(b, 0x80), 7);
    HighLow(b, 7);
    HighLow(0x80, 7);
    AndStep(b / 128, 1);
  }

  lemma OrZero(a: nat, b: nat)
    ensures Or(a, b) == 0 <==> a == 0 && b == 0
  {
    if a != 0 && b != 0 && Or(a, b) == 0 {
      OrSplits(a, b);
      OrStep(a, b);
      OrZero(a / 2, b / 2);
    }
  }

  // ----- what rounding and the whole sequence achieve

  /** The distance from a pattern to the value x * 2^-40 at spacing s, in units of 2^-189. */
  function Distance(g: nat, x: nat, s: nat): nat {
    Gap(Magnitude(g), Mul(x, s))
  }

  function Gap(m: nat, v: int): nat {
    var d := m * GUARD_MOD - v;
    if d < 0 then -d else d
  }

  /**
   Rounding is to nearest, ties to even (section 4.3.1 of IEEE 754-2008): no
   pattern up to infinity is closer to the exact value than the result, and a
   pattern as close as the result is the result or leaves the result even. The
   fraction must be normalised, its top bit set exactly when the exponent is not 0.
   */
  lemma RoundsToNearest(e: nat, x: nat, f: nat, g: nat)
    requires e < 0xFF && x < DOUBLE_MOD && (x >= DOUBLE_MOD / 2 <==> e > 0)
    requires f == e * FRACTION_MOD + (x / GUARD_MOD) % FRACTION_MOD + (NearestEven(x) - x / GUARD_MOD)
    requires g <= FP_INFINITY
    ensures var s := if e == 0 then 1 else Pow2(e - 1);
            Distance(f, x, s) <= Distance(g, x, s) &&
            (Distance(f, x, s) == Distance(g, x, s) ==> f == g || f % 2 == 0)
  {
    var kept, rest := x / GUARD_MOD, x % GUARD_MOD;
    var below := e * FRACTION_MOD + kept % FRACTION_MOD;
    var s := if e == 0 then 1 else Pow2(e - 1);
    var down, up := Neighbours(e, x, below, s);
    NearestPattern(below, g, Mul(x, s), rest, down, up);
  }

  /** Of a pattern and its successor, the one the rule picks, against any other. */
  lemma NearestPattern(below: nat, g: nat, v: nat, rest: nat, down: int, up: int)
    requires v == Magnitude(below) * GUARD_MOD + down && v + up == Magnitude(below + 1) * GUARD_MOD && down >= 0 &&
             up > 0
    requires rest < GUARD_MOD / 2 ==> down < up
    requires rest > GUARD_MOD / 2 ==> down > up
    requires rest == GUARD_MOD / 2 ==> down == up
    ensures var stays := rest < GUARD_MOD / 2 || (rest == GUARD_MOD / 2 && below % 2 == 0);
            var f := if stays then below else below + 1;
            Gap(Magnitude(f), v) <= Gap(Magnitude(g), v) &&
            (Gap(Magnitude(f), v) == Gap(Magnitude(g), v) ==> f == g || f % 2 == 0)
  {
    if g < below {
      MagnitudeStrict(g, below);
    } else if g > below + 1 {
      MagnitudeStrict(below + 1, g);
    }
    ClosestIsChosen(Magnitude(below), Magnitude(below + 1), v, rest, down, up, Magnitude(g), below);
  }

  /** The exact value lies between the truncated pattern and the next one. */
  lemma Neighbours(e: nat, x: nat, below: nat, s: nat) returns (down: int, up: int)
    requires e < 0xFF && x < DOUBLE_MOD && (x >= DOUBLE_MOD / 2 <==> e > 0)
    requires below == e * FRACTION_MOD + (x / GUARD_MOD) % FRACTION_MOD
    requires s == if e == 0 then 1 else Pow2(e - 1)
    ensures Mul(x, s) == Magnitude(below) * GUARD_MOD + down && 0 <= down
    ensures Mul(x, s) + up == Magnitude(below + 1) * GUARD_MOD && 0 < up
    ensures var rest := x % GUARD_MOD;
            (rest < GUARD_MOD / 2 ==> down < up) &&
            (rest > GUARD_MOD / 2 ==> down > up) &&
            (rest == GUARD_MOD / 2 ==> down == up)
    ensures below % 2 == (x / GUARD_MOD) % 2
  {
    var kept, rest := x / GUARD_MOD, x % GUARD_MOD;
    QuotientUnique(below, FRACTION_MOD, e, kept % FRACTION_MOD);
    assert Spacing(below) == s;
    assert Significand(below) == kept;
    MulIsProduct(kept, s);
    MulIsProduct(x, s);
    MagnitudeStep(below);
    down, up := rest * s, (GUARD_MOD - rest) * s;
    Gaps(kept, rest, x, s);
    EvenWhenKeptIsEven(e, kept);
  }

  lemma MagnitudeStrict(f: nat, g: nat)
    requires f < g
    ensures Magnitude(f) < Magnitude(g)
  {
    MagnitudeStep(f);
    MagnitudeMonotone(f + 1, g);
  }

  /** The rounding rule picks the nearer of the two neighbours; a tie leaves it the choice; all others are further. */
  lemma ClosestIsChosen(low: nat, high: nat, v: nat, rest: nat, down: int, up: int, mg: nat, kept: nat)
    requires v == low * GUARD_MOD + down && v + up == high * GUARD_MOD && down >= 0 && up > 0
    requires rest < GUARD_MOD / 2 ==> down < up
    requires rest > GUARD_MOD / 2 ==> down > up
    requires rest == GUARD_MOD / 2 ==> down == up
    ensures var stays := rest < GUARD_MOD / 2 || (rest == GUARD_MOD / 2 && kept % 2 == 0);
            var chosen, other := if stays then low else high, if stays then high else low;
            Gap(chosen, v) <= Gap(other, v) && (Gap(chosen, v) == Gap(other, v) ==> rest == GUARD_MOD / 2) &&
            (mg < low || mg > high ==> Gap(chosen, v) < Gap(mg, v))
  {
    assert Gap(low, v) == down && Gap(high, v) == up;
  }

  lemma Gaps(kept: nat, rest: nat, x: nat, s: nat)
    requires x == kept * GUARD_MOD + rest && rest < GUARD_MOD && s > 0
    ensures x * s - kept * s * GUARD_MOD == rest * s
    ensures (kept * s + s) * GUARD_MOD - x * s == (GUARD_MOD - rest) * s
    ensures rest < GUARD_MOD / 2 ==> rest * s < (GUARD_MOD - rest) * s
    ensures rest > GUARD_MOD / 2 ==> rest * s > (GUARD_MOD - rest) * s
    ensures rest == GUARD_MOD / 2 ==> rest * s == (GUARD_MOD - rest) * s
    ensures 0 <= rest * s && 0 < (GUARD_MOD - rest) * s
  {
    MulMono(1, GUARD_MOD - rest, s);
    assert (kept * GUARD_MOD + rest) * s == kept * s * GUARD_MOD + rest * s;
    assert (GUARD_MOD - rest) * s == s * GUARD_MOD - rest * s;
    if rest < GUARD_MOD / 2 {
      MulMono(rest + 1, GUARD_MOD - rest, s);
      assert (rest + 1) * s == rest * s + s;
    } else if rest > GUARD_MOD / 2 {
      MulMono(GUARD_MOD - rest + 1, rest, s);
      assert (GUARD_MOD - rest + 1) * s == (GUARD_MOD - rest) * s + s;
    }
    MulMono(0, rest, s);
  }

  lemma EvenWhenKeptIsEven(e: nat, kept: nat)
    ensures (e * FRACTION_MOD + kept % FRACTION_MOD) % 2 == kept % 2
  {
    ParityOf(e, kept % FRACTION_MOD, kept);
  }

  /** Unpacking, normalising, correcting and rounding a finite REAL32 returns its magnitude. */
  method UnpackAndRound(w: Word, n: Word) returns (f: Word)
    requires ExponentField(w % MIN_INT) != 0xFF
    ensures f == w % MIN_INT
  {
    var s := new EvalStack(w, n, 0);
    Unpacksn(s);
    ghost var fraction, exponent := s.areg, s.breg;
    var wsTemp := s.breg;
    s.areg, s.breg := 0, s.areg;
    var _ := s.Norm();
    ghost var shift := s.creg;
    ghost var g := w % MIN_INT;
    NormalisingShift(g, fraction, exponent, shift, s.breg, s.areg);
    Postnormsn(s, wsTemp);
    assert s.creg == ExponentField(g) && Double(s.breg, s.areg) == Double(fraction, 0);
    ExactPattern(g, fraction);
    Roundsn(s);
    f := s.areg;
  }

  lemma ExactPattern(g: nat, fraction: Word)
    requires g < FP_INFINITY && fraction == Significand(g) * 256
    ensures var x := Double(fraction, 0);
            NearestEven(x) == x / GUARD_MOD && ExponentField(g) * FRACTION_MOD + (x / GUARD_MOD) % FRACTION_MOD == g
  {
    QuotientUnique(Double(fraction, 0), GUARD_MOD, Significand(g), 0);
    if ExponentField(g) > 0 {
      QuotientUnique(Significand(g), FRACTION_MOD, 1, g % FRACTION_MOD);
    }
  }

  /** How far the fraction of a finite number moves, and what moving it back gives. */
  lemma NormalisingShift(g: nat, fraction: Word, exponent: Word, shift: Word, hi: Word, lo: Word)
    requires g < FP_INFINITY && fraction == Significand(g) * 256
    requires exponent == (if g == 0 then 0 else if ExponentField(g) == 0 then 1 else ExponentField(g))
    requires if fraction == 0 then hi == 0 && lo == 0 && shift == 64
             else hi >= MIN_INT && shift < 64 && Double(hi, lo) == Double(fraction, 0) * Pow2(shift)
    ensures g == 0 ==> Signed(Wrap(exponent - shift)) == -64
    ensures ExponentField(g) > 0 ==> shift == 0 && hi == fraction && lo == 0
    ensures g > 0 && ExponentField(g) == 0 ==>
              -32 < Signed(Wrap(exponent - shift)) <= 0 && lo == 0 &&
              1 - Signed(Wrap(exponent - shift)) == shift && High(Double(hi, lo), shift) == Double(fraction, 0)
  {
    if g > 0 {
      if ExponentField(g) > 0 {
        NoShift(fraction, shift, hi, lo);
      } else {
        DenormalShift(fraction, shift, hi, lo);
        var k := if shift == 1 then 0 else 1;
        WrapWitness(1 - shift, -k, 1 - shift + k * WORD_MOD);
      }
    } else {
      WrapWitness(-64, -1, WORD_MOD - 64);
    }
  }

  lemma NoShift(fraction: Word, shift: nat, hi: Word, lo: Word)
    requires fraction >= MIN_INT && Double(hi, lo) == Double(fraction, 0) * Pow2(shift)
    ensures shift == 0 && hi == fraction && lo == 0
  {
    DoubleInjective(hi, lo, fraction, 0);
    FactorBelow(Double(fraction, 0), Pow2(shift), 2);
  }

  lemma FactorBelow(d: nat, p: nat, bound: nat)
    requires d * p < d * bound
    ensures p < bound
  {
    if p >= bound {
      MulMono(bound, p, d);
    }
  }

  lemma DenormalShift(fraction: Word, shift: nat, hi: Word, lo: Word)
    requires 256 <= fraction < MIN_INT && hi >= MIN_INT && Double(hi, lo) == Double(fraction, 0) * Pow2(shift)
    ensures 1 <= shift < 24 && lo == 0 && High(Double(hi, lo), shift) == Double(fraction, 0)
  {
    var p, d := Pow2(shift), Double(fraction, 0);
    DoubleScaled(fraction, 0, p);
    WrapWitness(Double(hi, lo), fraction * p, 0);
    WrapWitness(Double(hi, lo), hi, lo);
    HighLow(Double(hi, lo), shift);
    QuotientUnique(d * p, p, d, 0);
    FactorBelow(d, p, 0x100_0000);
    PowerBelow(shift);
  }

  lemma PowerBelow(n: nat)
    requires Pow2(n) < 0x100_0000
    ensures n < 24
  {
    if n >= 24 {
      PowerAtLeast(n);
    }
  }

  lemma {:induction false} PowerAtLeast(n: nat)
    requires n >= 24
    ensures Pow2(n) >= 0x100_0000
  {
    if n == 24 {
      Pow2Values();
    } else {
      PowerAtLeast(n - 1);
    }
  }

  // ----- fractional multiply

  /** r is the fraction nearest to the product p of two fractions, an even one on a tie. */
  predicate NearestFraction(r: int, p: int) {
    && -MIN_INT / 2 <= r * MIN_INT - p <= MIN_INT / 2
    && ((r * MIN_INT - p == MIN_INT / 2 || r * MIN_INT - p == -MIN_INT / 2) ==> r % 2 == 0)
  }

  /** fmul: the nearest fraction, except that -1 times -1, which is not a fraction, wraps to -1. */
  method Fmul(s: EvalStack)
    modifies s
    ensures s.breg == old(s.creg) && s.creg == old(s.creg) && s.eflags == old(s.eflags)
    ensures var p := old(Signed(s.areg) * Signed(s.breg)); var r := Signed(s.areg);
            (NearestFraction(r, p) <==> old(s.areg != MIN_INT || s.breg != MIN_INT)) &&
            (old(s.areg == MIN_INT && s.breg == MIN_INT) ==> s.areg == MIN_INT)
  {
    ProductRange(Signed(s.areg), Signed(s.breg));
    ghost var product := Signed(s.areg) * Signed(s.breg);
    var hi, lo := DoubledProductWords(Signed(s.areg) * Signed(s.breg));
    DoubledProduct(product, hi, lo);
    s.areg := RoundHalfEven(hi, lo);
    FractionRounds(product, hi, lo, s.areg);
    s.breg := s.creg;
  }

  /** Twice a 64-bit product, as two words shifted left by one. */
  method DoubledProductWords(product: int) returns (hi: Word, lo: Word)
    ensures Double(hi, lo) == (2 * (product % DOUBLE_MOD)) % DOUBLE_MOD
  {
    hi, lo := Wrap((product % DOUBLE_MOD) / WORD_MOD), Wrap(product);
    ProductParts(product, hi, lo);
    OneLeft(hi, lo);
    TopMask(lo);
    WordClosed(Wrap(hi * 2), 1);
    hi := Wrap(hi * 2);
    if And(lo, MIN_INT) != 0 {
      hi := Or(hi, 1);
    }
    lo := Wrap(lo * 2);
  }

  method RoundHalfEven(hi: Word, lo: Word) returns (a: Word)
    ensures a == if lo > MIN_INT || (lo == MIN_INT && hi % 2 == 1) then Wrap(hi + 1) else hi
  {
    AndMask(hi, 1);
    if Signed(lo) >= 0 {
      a := hi;
    } else if lo != MIN_INT {
      a := Wrap(hi + 1);
    } else if And(hi, 1) != 0 {
      a := Wrap(hi + 1);
    } else {
      a := hi;
    }
  }

  lemma ProductRange(a: int, b: int)
    requires -MIN_INT <= a < MIN_INT && -MIN_INT <= b < MIN_INT
    ensures -MIN_INT * MIN_INT < a * b <= MIN_INT * MIN_INT
    ensures a * b > MIN_INT * MIN_INT - MIN_INT ==> a == -MIN_INT && b == -MIN_INT
    ensures a == -MIN_INT && b == -MIN_INT ==> a * b == MIN_INT * MIN_INT
  {
    var x, y := if a < 0 then -a else a, if b < 0 then -b else b;
    MulMono(x, MIN_INT, y);
    MulMono(0, x, y);
    MulMono(y, MIN_INT, MIN_INT);
    if x < MIN_INT { MulMono(x, MIN_INT - 1, y); }
    if y < MIN_INT { MulMono(y, MIN_INT - 1, MIN_INT); }
    assert a * b == x * y || a * b == -(x * y);
  }

  lemma ProductParts(product: int, hi: Word, lo: Word)
    requires hi == Wrap((product % DOUBLE_MOD) / WORD_MOD) && lo == Wrap(product)
    ensures Double(hi, lo) == product % DOUBLE_MOD
  {
    var r := product % DOUBLE_MOD;
    WrapWitness(r / WORD_MOD, 0, r / WORD_MOD);
    WrapWitness(product, (product / DOUBLE_MOD) * WORD_MOD + r / WORD_MOD, r % WORD_MOD);
  }

  lemma DoubledProduct(product: int, hi: Word, lo: Word)
    requires -MIN_INT * MIN_INT < product <= MIN_INT * MIN_INT
    requires Double(hi, lo) == (2 * (product % DOUBLE_MOD)) % DOUBLE_MOD
    ensures product < MIN_INT * MIN_INT ==> 2 * product == Signed(hi) * WORD_MOD + lo
    ensures product == MIN_INT * MIN_INT ==> hi == MIN_INT && lo == 0
  {
    var r := product % DOUBLE_MOD;
    var k := if product < 0 then -1 else 0;
    QuotientUnique(product, DOUBLE_MOD, k, product - k * DOUBLE_MOD);
    var j := if 2 * r >= DOUBLE_MOD then 1 else 0;
    QuotientUnique(2 * r, DOUBLE_MOD, j, 2 * r - j * DOUBLE_MOD);
    if product == MIN_INT * MIN_INT {
      DoubleInjective(hi, lo, MIN_INT, 0);
    }
  }

  lemma FractionRounds(product: int, hi: Word, lo: Word, a: Word)
    requires if product == MIN_INT * MIN_INT then hi == MIN_INT && lo == 0
             else product <= MIN_INT * MIN_INT - MIN_INT && 2 * product == Signed(hi) * WORD_MOD + lo
    requires a == if lo > MIN_INT || (lo == MIN_INT && hi % 2 == 1) then Wrap(hi + 1) else hi
    ensures product == MIN_INT * MIN_INT ==> a == MIN_INT
    ensures product < MIN_INT * MIN_INT ==> NearestFraction(Signed(a), product)
  {
  }

  /** The case that shows the guard sign-extended: a zero fraction over a guard of 2^31, shifted down one place. */
  lemma GuardSignShows()
    ensures High(Widened(0, MIN_INT), 1) != High(Double(0, MIN_INT), 1)
  {
    ShiftedDiffers(0, MIN_INT, 1);
  }
}
