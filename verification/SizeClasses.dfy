/**
 The two-level size classes of the allocator and the bitmap searches over them.
 A class is named by a first-level index fl and a second-level index sl.
 */
module SizeClasses {
  import opened Words

  const FLI_OFFSET := 6
  const MAX_LOG2_SLI := 5
  const MAX_SLI := 32
  const SMALL_BLOCK := 128
  const REAL_FLI := 24
  const CLASSES := 768   // REAL_FLI * MAX_SLI
  const MAX_BLOCK := 0x4000_0000

  // ----- bits of a bitmap

  predicate Bit(x: nat, i: nat) {
    High(x, i) % 2 == 1
  }

  lemma AndParity(n: nat, h: nat, l: nat)
    ensures (2 * n + (if h % 2 == 1 && l % 2 == 1 then 1 else 0)) % 2 == 1 <==> h % 2 == 1 && l % 2 == 1
  {
  }

  lemma OrParity(n: nat, h: nat, l: nat)
    ensures (2 * n + (if h % 2 == 1 || l % 2 == 1 then 1 else 0)) % 2 == 1 <==> h % 2 == 1 || l % 2 == 1
  {
  }

  lemma {:induction false} BitAnd(a: nat, b: nat, i: nat)
    ensures Bit(And(a, b), i) <==> Bit(a, i) && Bit(b, i)
  {
    hide And, High;
    AndHigh(a, b, i);
    var h, l := High(a, i), High(b, i);
    AndStep(h, l);
    AndParity(And(h / 2, l / 2), h, l);
  }

  lemma {:induction false} BitOr(a: nat, b: nat, i: nat)
    ensures Bit(Or(a, b), i) <==> Bit(a, i) || Bit(b, i)
  {
    hide Or, High;
    OrHigh(a, b, i);
    var h, l := High(a, i), High(b, i);
    OrStep(h, l);
    OrParity(Or(h / 2, l / 2), h, l);
  }

  lemma {:induction false} BitOfPower(n: nat, i: nat)
    ensures Bit(Pow2(n), i) <==> i == n
    decreases n
  {
    if n == 0 {
      if i > 0 { HighOfZero(i - 1); }
    } else if i > 0 {
      BitOfPower(n - 1, i - 1);
    }
  }

  lemma {:induction false} HighOfZero(i: nat)
    ensures High(0, i) == 0
  {
    if i > 0 { HighOfZero(i - 1); }
  }

  /** The complement within k bits flips exactly the bits below k. */
  lemma {:induction false} BitOfComplement(x: nat, k: nat, i: nat)
    requires x < Pow2(k) && i < k
    ensures Bit(Pow2(k) - 1 - x, i) <==> !Bit(x, i)
    decreases k
  {
    var y := Pow2(k) - 1 - x;
    assert y / 2 == Pow2(k - 1) - 1 - x / 2;
    if i > 0 {
      BitOfComplement(x / 2, k - 1, i - 1);
    }
  }

  /** A value below 2^k with no bit set below k is zero. */
  lemma {:induction false} NoBits(x: nat, k: nat)
    requires x < Pow2(k) && forall i: nat | i < k :: !Bit(x, i)
    ensures x == 0
    decreases k
  {
    if k > 0 {
      assert !Bit(x, 0);
      forall i: nat | i < k - 1 ensures !Bit(x / 2, i) {
        assert !Bit(x, i + 1);
      }
      NoBits(x / 2, k - 1);
    }
  }

  lemma {:induction false} BitsBelow(x: nat, k: nat, i: nat)
    requires x < Pow2(k) && i >= k
    ensures !Bit(x, i)
    decreases k
  {
    if k == 0 {
      HighOfZero(i);
    } else {
      BitsBelow(x / 2, k - 1, i - 1);
    }
  }

  /** set_bit and clear_bit on one bitmap word. */
  function SetBit(n: nat, x: Word): Word
    requires n < 32
  {
    Pow2Below32(n);
    WordClosed(x, Pow2(n));
    Or(x, Pow2(n))
  }

  function ClearBit(n: nat, x: Word): Word
    requires n < 32
  {
    Pow2Below32(n);
    WordClosed(x, Not(Pow2(n)));
    And(x, Not(Pow2(n)))
  }

  lemma Pow2Below32(n: nat)
    requires n < 32
    ensures Pow2(n) < WORD_MOD
  {
    Pow2Values();
    Pow2Monotone(n, 32);
  }

  lemma SetBitBits(n: nat, x: Word, i: nat)
    requires n < 32
    ensures Bit(SetBit(n, x), i) <==> Bit(x, i) || i == n
  {
    BitOr(x, Pow2(n), i);
    BitOfPower(n, i);
  }

  lemma ClearBitBits(n: nat, x: Word, i: nat)
    requires n < 32
    ensures Bit(ClearBit(n, x), i) <==> Bit(x, i) && i != n
  {
    Pow2Below32(n);
    BitAnd(x, Not(Pow2(n)), i);
    BitOfPower(n, i);
    Pow2Values();
    if i < 32 {
      BitOfComplement(Pow2(n), 32, i);
    } else {
      BitsBelow(x, 32, i);
    }
  }

  lemma ZeroIffNoBits(x: Word)
    ensures x == 0 <==> forall i: nat | i < 32 :: !Bit(x, i)
  {
    Pow2Values();
    if x == 0 {
      forall i: nat | i < 32 ensures !Bit(x, i) { HighOfZero(i); }
    } else if forall i: nat | i < 32 :: !Bit(x, i) {
      NoBits(x, 32);
    }
  }

  // ----- the bit searches

  /** The 256-entry table: the position of the top bit of a byte, -1 for none. */
  function Table(i: nat): int
    requires i < 256
  {
    if i == 0 then -1
    else if i < 2 then 0 else if i < 4 then 1 else if i < 8 then 2 else if i < 16 then 3
    else if i < 32 then 4 else if i < 64 then 5 else if i < 128 then 6 else 7
  }

  /** The number of low bits the table search skips. */
  function ByteShift(x: Word): nat {
    if x <= 0xffff then (if x <= 0xff then 0 else 8) else (if x <= 0xff_ffff then 16 else 24)
  }

  /** The position of the top set bit, -1 for zero. */
  function MsBit(x: Word): (r: int)
    ensures x == 0 ==> r == -1
    ensures x > 0 ==> 0 <= r < 32 && Pow2(r) <= x < Pow2(r + 1)
  {
    var a := ByteShift(x);
    var byte := Shr(x, a);
    Pow2Values();
    HighLow(x, a);
    if x > 0 then
      TableBounds(byte);
      Scaled(x, a, byte, Table(byte));
      Table(byte) + a
    else
      Table(byte) + a
  }

  lemma TableBounds(i: nat)
    requires 0 < i < 256
    ensures 0 <= Table(i) < 8 && Pow2(Table(i)) <= i < Pow2(Table(i) + 1)
  {
    Pow2Values();
  }

  lemma Scaled(x: nat, a: nat, q: nat, t: nat)
    requires q == x / Pow2(a) && Pow2(t) <= q < Pow2(t + 1)
    ensures Pow2(t + a) <= x < Pow2(t + a + 1)
  {
    hide Pow2;
    QuotientBounds(x, Pow2(a));
    Pow2Sum(t, a);
    Pow2Sum(t + 1, a);
    TimesBounds(x, Pow2(a), q, Pow2(t), Pow2(t + 1));
  }

  lemma TimesBounds(x: nat, p: nat, q: nat, u: nat, v: nat)
    requires q * p <= x < q * p + p && u <= q < v
    ensures u * p <= x < v * p
  {
    MulMono(u, q, p);
    MulMono(q + 1, v, p);
    assert (q + 1) * p == q * p + p;
  }

  /** The lowest set bit of a positive value, as a power of two. */
  function Lowest(x: nat): nat
    requires x > 0
  {
    if x % 2 == 1 then 1 else 2 * Lowest(x / 2)
  }

  /** And with the two's complement negation isolates the lowest set bit. */
  lemma {:induction false} AndNegation(x: nat, k: nat)
    requires 0 < x < Pow2(k)
    ensures And(x, Pow2(k) - x) == Lowest(x)
    decreases k
  {
    var y := Pow2(k) - x;
    AndStep(x, y);
    if x % 2 == 1 {
      assert y / 2 == Pow2(k - 1) - 1 - x / 2;
      AndComplement(x / 2, k - 1);
    } else {
      AndNegation(x / 2, k - 1);
    }
  }

  lemma {:induction false} AndComplement(x: nat, k: nat)
    requires x < Pow2(k)
    ensures And(x, Pow2(k) - 1 - x) == 0
    decreases k
  {
    if k > 0 {
      var y := Pow2(k) - 1 - x;
      assert y / 2 == Pow2(k - 1) - 1 - x / 2;
      AndStep(x, y);
      AndComplement(x / 2, k - 1);
    }
  }

  /** The position of the lowest set bit, -1 for zero. */
  function LsBit(i: Word): int {
    WordClosed(i, Negated(i));
    MsBit(And(i, Negated(i)))
  }

  function Negated(i: Word): Word {
    Wrap(-(i as int))
  }

  lemma LsBitZero()
    ensures LsBit(0) == -1
  {
  }

  lemma LsBitIsLowest(x: Word)
    requires x > 0
    ensures 0 <= LsBit(x) < 32 && Bit(x, LsBit(x))
    ensures forall i: nat | i < LsBit(x) :: !Bit(x, i)
  {
    hide MsBit, And, Wrap, Bit, Lowest;
    WrapWitness(-(x as int), -1, WORD_MOD - x);
    Pow2Values();
    AndNegation(x, 32);
    var r := LowestPosition(x);
    WordClosed(x, Negated(x));
    SameTopBit(Pow2(r), r, MsBit(And(x, Negated(x))));
  }

  /** The position of the top bit is determined. */
  lemma SameTopBit(x: nat, a: nat, b: nat)
    requires Pow2(a) <= x < Pow2(a + 1) && Pow2(b) <= x < Pow2(b + 1)
    ensures a == b
  {
    if a < b && a + 1 < b {
      Pow2Monotone(a + 1, b);
    } else if b < a && b + 1 < a {
      Pow2Monotone(b + 1, a);
    }
  }

  lemma {:induction false} LowestPosition(x: nat) returns (r: nat)
    requires x > 0
    ensures Lowest(x) == Pow2(r) && Bit(x, r)
    ensures forall i: nat | i < r :: !Bit(x, i)
  {
    if x % 2 == 1 {
      r := 0;
    } else {
      var h := LowestPosition(x / 2);
      r := h + 1;
      forall i: nat | i < r ensures !Bit(x, i) {
        if i > 0 { assert !Bit(x / 2, i - 1); }
      }
    }
  }

  /** The bitmap with the bits below k masked off. */
  function BitsFrom(x: Word, k: nat): Word
    requires k < 32
  {
    var mask := Wrap((WORD_MOD - 1) * Pow2(k));
    WordClosed(x, mask);
    And(x, mask)
  }

  lemma BitsFromBits(x: Word, k: nat, i: nat)
    requires k < 32
    ensures Bit(BitsFrom(x, k), i) <==> Bit(x, i) && k <= i
  {
    var p := Pow2(k);
    Pow2Below32(k);
    WrapWitness((WORD_MOD - 1) * p, p - 1, WORD_MOD - p);
    BitAnd(x, WORD_MOD - p, i);
    Pow2Values();
    if i < 32 {
      BitOfComplement(p - 1, 32, i);
      BitOfOnes(k, i);
    } else {
      BitsBelow(x, 32, i);
    }
  }

  lemma {:induction false} BitOfOnes(k: nat, i: nat)
    ensures Bit(Pow2(k) - 1, i) <==> i < k
    decreases k
  {
    if k == 0 {
      HighOfZero(i);
    } else {
      var m := Pow2(k) - 1;
      assert m / 2 == Pow2(k - 1) - 1 && m % 2 == 1;
      if i > 0 {
        BitOfOnes(k - 1, i - 1);
      }
    }
  }

  // ----- size classes

  /** The class a free block of r bytes is filed under. */
  function MappingInsert(r: Word): (int, int) {
    if r < SMALL_BLOCK then (0, r / (SMALL_BLOCK / MAX_SLI))
    else
      var m := MsBit(r);
      AtLeastSmall(r);
      (m - FLI_OFFSET, Shr(r, m - MAX_LOG2_SLI) - MAX_SLI)
  }

  lemma AtLeastSmall(r: Word)
    requires r >= SMALL_BLOCK
    ensures 7 <= MsBit(r) < 32
  {
    Pow2Values();
    if MsBit(r) < 6 {
      Pow2Monotone(MsBit(r) + 1, 7);
    }
  }

  /** The smallest size in a class, and how many sizes it spans. */
  function ClassLow(fl: nat, sl: nat): nat {
    if fl == 0 then sl * 4 else (MAX_SLI + sl) * Pow2(fl + 1)
  }

  function ClassWidth(fl: nat): nat {
    if fl == 0 then 4 else Pow2(fl + 1)
  }

  /** Every size lies in the class it is mapped to. */
  lemma MappingInsertIsClass(r: Word)
    requires r < MAX_BLOCK
    ensures var (fl, sl) := MappingInsert(r);
            0 <= fl < REAL_FLI && 0 <= sl < MAX_SLI && ClassLow(fl, sl) <= r < ClassLow(fl, sl) + ClassWidth(fl)
  {
    if r >= SMALL_BLOCK {
      AtLeastSmall(r);
      var m := MsBit(r);
      TopBelow30(r);
      ShiftedToSix(r, m);
    }
  }

  lemma TopBelow30(r: Word)
    requires 0 < r < MAX_BLOCK
    ensures MsBit(r) < 30
  {
    assert Pow2(30) == MAX_BLOCK by { Pow2Values(); assert Pow2(31) == 2 * Pow2(30); }
    if MsBit(r) > 30 {
      Pow2Monotone(30, MsBit(r));
    }
  }

  lemma ShiftedToSix(r: Word, m: nat)
    requires 7 <= m && Pow2(m) <= r < Pow2(m + 1)
    ensures var q := Shr(r, m - 5); 32 <= q < 64 && q * Pow2(m - 5) <= r < q * Pow2(m - 5) + Pow2(m - 5)
  {
    SixBits(m);
    QuotientBetween(r, Pow2(m - 5), 32, 64);
  }

  lemma SixBits(m: nat)
    requires m >= 5
    ensures Pow2(m) == 32 * Pow2(m - 5) && Pow2(m + 1) == 64 * Pow2(m - 5)
  {
    Pow2Sum(5, m - 5);
    Pow2Sum(6, m - 5);
    assert Pow2(5) == 32 && Pow2(6) == 64 by { Pow2Values(); }
  }

  lemma QuotientBetween(r: nat, p: nat, lo: nat, hi: nat)
    requires p > 0 && lo * p <= r < hi * p
    ensures lo <= r / p < hi && (r / p) * p <= r < (r / p) * p + p
  {
    QuotientBounds(r, p);
    var q := r / p;
    assert (q + 1) * p == q * p + p;
    LessProduct(lo, q + 1, p);
    LessProduct(q, hi, p);
  }

  lemma LessProduct(x: int, y: int, d: nat)
    requires x * d < y * d
    ensures x < y
  {
    if x >= y {
      MulMono(y, x, d);
    }
  }

  /** The number of a class, in order of size. */
  function ClassIndex(fl: int, sl: int): int {
    fl * MAX_SLI + sl
  }

  function ClassOf(r: Word): int {
    ClassIndex(MappingInsert(r).0, MappingInsert(r).1)
  }

  lemma ClassOfRange(r: Word)
    requires r < MAX_BLOCK
    ensures 0 <= ClassOf(r) < CLASSES
  {
    MappingInsertIsClass(r);
  }

  /** Classes in order of size do not overlap. */
  lemma ClassesOrdered(f1: nat, s1: nat, f2: nat, s2: nat)
    requires s1 < MAX_SLI && s2 < MAX_SLI && ClassIndex(f1, s1) < ClassIndex(f2, s2)
    ensures ClassLow(f1, s1) + ClassWidth(f1) <= ClassLow(f2, s2)
  {
    Pow2Values();
    if f1 == f2 {
      if f1 > 0 {
        MulMono(MAX_SLI + s1 + 1, MAX_SLI + s2, Pow2(f1 + 1));
        assert (MAX_SLI + s1 + 1) * Pow2(f1 + 1) == (MAX_SLI + s1) * Pow2(f1 + 1) + Pow2(f1 + 1);
      }
    } else {
      assert f1 < f2;
      var p2 := Pow2(f2 + 1);
      MulMono(MAX_SLI, MAX_SLI + s2, p2);
      if f1 == 0 {
        Pow2Monotone(1, f2 + 1);
      } else {
        var p1 := Pow2(f1 + 1);
        Pow2Monotone(f1 + 1, f2 + 1);
        MulMono(MAX_SLI + s1 + 1, 2 * MAX_SLI, p1);
        assert (MAX_SLI + s1 + 1) * p1 == (MAX_SLI + s1) * p1 + p1;
        assert 2 * MAX_SLI * p1 <= MAX_SLI * p2;
      }
    }
  }

  /** A block's class is at or above a class exactly when its size reaches the class. */
  lemma ClassReached(r: Word, fl: nat, sl: nat)
    requires r < MAX_BLOCK && sl < MAX_SLI
    ensures ClassOf(r) >= ClassIndex(fl, sl) <==> r >= ClassLow(fl, sl)
  {
    MappingInsertIsClass(r);
    var (f, s) := MappingInsert(r);
    if ClassOf(r) < ClassIndex(fl, sl) {
      ClassesOrdered(f, s, fl, sl);
    } else if ClassOf(r) > ClassIndex(fl, sl) {
      ClassesOrdered(fl, sl, f, s);
    }
  }

  /** The class search starts at for a request, and the request rounded up to it. */
  function MappingSearch(r: Word): (Word, int, int)
    requires r < MAX_BLOCK
  {
    if r < SMALL_BLOCK then (r, 0, r / (SMALL_BLOCK / MAX_SLI))
    else
      AtLeastSmall(r);
      TopBelow30(r);
      Pow2Below32(MsBit(r) - MAX_LOG2_SLI);
      var t := Pow2(MsBit(r) - MAX_LOG2_SLI) - 1;
      var up := Wrap(r + t);
      WordClosed(up, Not(t));
      (And(up, Not(t)), MappingInsert(up).0, MappingInsert(up).1)
  }

  /**
   Rounding a request up reaches exactly the lower end of the class searched
   from, keeps the alignment, and adds less than a thirty-second.
   */
  lemma SearchRoundsToClass(r: Word)
    requires 8 <= r < MAX_BLOCK && r % 8 == 0
    ensures var (r', fl, sl) := MappingSearch(r);
            fl >= 0 && 0 <= sl < MAX_SLI && r' == ClassLow(fl, sl) && r' % 8 == 0 && r <= r' <= r + r / 32
    ensures MappingSearch(r).0 < MAX_BLOCK <==> MappingSearch(r).1 < REAL_FLI
  {
    if r >= SMALL_BLOCK {
      LargeSearch(r);
    }
  }

  lemma LargeSearch(r: Word)
    requires SMALL_BLOCK <= r < MAX_BLOCK && r % 8 == 0
    ensures var (r', fl, sl) := MappingSearch(r);
            fl >= 0 && 0 <= sl < MAX_SLI && r' == ClassLow(fl, sl) && r' % 8 == 0 && r <= r' <= r + r / 32
    ensures MappingSearch(r).0 < MAX_BLOCK <==> MappingSearch(r).1 < REAL_FLI
  {
    hide MsBit, Wrap, And, Not, Shr, ClassLow, Pow2;
    AtLeastSmall(r);
    TopBelow30(r);
    var m := MsBit(r);
    Pow2Below32(m - 5);
    SixBits(m);
    var p := Pow2(m - 5);
    var up := r + p - 1;
    WrapWitness(up, 0, up);
    RoundedDown(up, m - 5);
    var q := RoundUpQuotient(r, m);
    RoundedClass(up, m, q);
    SearchInRange(MappingInsert(up).0, MappingInsert(up).1);
  }

  /**
   No class whose sizes all suit the request starts below the rounded request: the
   search begins at the first class that is sure to do, and a request that starts a
   class is left as it is.
   */
  lemma SearchIsLeast(r: Word, fl: nat, sl: nat)
    requires 8 <= r < MAX_BLOCK && r % 8 == 0 && sl < MAX_SLI && r <= ClassLow(fl, sl)
    ensures MappingSearch(r).0 <= ClassLow(fl, sl)
  {
    if r >= SMALL_BLOCK {
      hide MappingSearch;
      AtLeastSmall(r);
      TopBelow30(r);
      var m := MsBit(r);
      var p := Pow2(m - 5);
      var q := SearchSteps(r);
      var x := ClassSteps(fl, sl, m);
      assert (x + 1) * p == x * p + p;
      LessProduct(q, x + 1, p);
      MulMono(q, x, p);
    }
  }

  /** The rounded request in steps of its class width, which it exceeds by less than one. */
  lemma SearchSteps(r: Word) returns (q: nat)
    requires SMALL_BLOCK <= r < MAX_BLOCK && r % 8 == 0
    ensures 7 <= MsBit(r) < 30
    ensures MappingSearch(r).0 == q * Pow2(MsBit(r) - 5) < r + Pow2(MsBit(r) - 5)
  {
    hide MsBit, Wrap, And, Not, Shr, ClassLow, Pow2;
    AtLeastSmall(r);
    TopBelow30(r);
    var m := MsBit(r);
    Pow2Below32(m - 5);
    SixBits(m);
    var up := r + Pow2(m - 5) - 1;
    WrapWitness(up, 0, up);
    RoundedDown(up, m - 5);
    q := RoundUpQuotient(r, m);
    MulIsProduct(q, Pow2(m - 5));
  }

  /** A class that starts at 2^m or above starts at a whole number of steps of 2^(m - 5). */
  lemma ClassSteps(fl: nat, sl: nat, m: nat) returns (x: nat)
    requires 7 <= m && sl < MAX_SLI && Pow2(m) <= ClassLow(fl, sl)
    ensures ClassLow(fl, sl) == x * Pow2(m - 5)
  {
    if fl == 0 || fl + 6 < m { ClassBelow(fl, sl, m); }
    Pow2Sum(fl + 6 - m, m - 5);
    x := (MAX_SLI + sl) * Pow2(fl + 6 - m);
  }

  lemma ClassBelow(fl: nat, sl: nat, m: nat)
    requires 7 <= m && sl < MAX_SLI && (fl == 0 || fl + 6 < m)
    ensures ClassLow(fl, sl) < Pow2(m)
  {
    if fl == 0 {
      assert Pow2(7) == 128 by { Pow2Values(); }
      if m > 7 { Pow2Monotone(7, m); }
    } else {
      SixBits(fl + 6);
      Pow2Monotone(fl + 6, m);
      MulMono(MAX_SLI + sl, 63, Pow2(fl + 1));
    }
  }

  /** The rounded request is a whole number q of steps of its class width. */
  lemma RoundUpQuotient(r: Word, m: nat) returns (q: nat)
    requires 7 <= m < 30 && r % 8 == 0 && Pow2(m) <= r < Pow2(m + 1)
    ensures var p := Pow2(m - 5); var up := r + p - 1; var r' := up - Low(up, m - 5);
            r' == Mul(q, p) && 32 <= q <= 64 && r' <= up < r' + p && r' % 8 == 0 && r <= r' <= r + r / 32
  {
    var p := Pow2(m - 5);
    var up := r + p - 1;
    SixBits(m);
    HighLow(up, m - 5);
    q := up / p;
    MulIsProduct(q, p);
    QuotientBetween(up, p, 32, 65);
    RoundedAligned(m, q, r, up);
  }

  /** A size with top bit m and q above its low m - 5 bits is mapped by them. */
  lemma MappedTo(up: Word, m: nat, q: nat)
    requires 7 <= m < 32 && Pow2(m) <= up < Pow2(m + 1) && up / Pow2(m - 5) == q && 32 <= q < 64
    ensures MappingInsert(up) == (m - FLI_OFFSET, q - MAX_SLI)
  {
    if m > 7 { Pow2Monotone(7, m); }
    assert Pow2(7) == 128 by { Pow2Values(); }
    hide Pow2;
    SameTopBit(up, m, MsBit(up));
  }

  /** The class of the rounded request, which may be the first of the next row. */
  lemma RoundedClass(up: Word, m: nat, q: nat)
    requires 7 <= m < 30 && 32 <= q <= 64 && Mul(q, Pow2(m - 5)) <= up < Mul(q, Pow2(m - 5)) + Pow2(m - 5)
    ensures var (fl, sl) := MappingInsert(up);
            fl > 0 && 0 <= sl < MAX_SLI && ClassLow(fl, sl) == Mul(q, Pow2(m - 5))
  {
    hide Mul, MappingInsert, MsBit, Pow2;
    var p := Pow2(m - 5);
    MulIsProduct(q, p);
    SixBits(m);
    MulMono(32, q, p);
    if q < 64 {
      MulMono(q, 63, p);
      QuotientUnique(up, p, q, up - q * p);
      MappedTo(up, m, q);
    } else {
      SixBits(m + 1);
      QuotientUnique(up, 2 * p, 32, up - 64 * p);
      MappedTo(up, m + 1, 32);
    }
  }

  /** Clearing the low k bits rounds down to a multiple of 2^k. */
  lemma RoundedDown(x: Word, k: nat)
    requires k < 32 && Pow2(k) - 1 < WORD_MOD
    ensures And(x, Not(Pow2(k) - 1)) == x - Low(x, k)
  {
    Pow2Values();
    AndNotLow(x, k, 32);
  }

  lemma {:induction false} AndNotLow(x: nat, k: nat, w: nat)
    requires k <= w && x < Pow2(w)
    ensures Pow2(k) <= Pow2(w) && And(x, Pow2(w) - Pow2(k)) == x - Low(x, k)
    decreases w
  {
    if k < w { Pow2Monotone(k, w); }
    if k == 0 {
      AndMask(x, w);
      LowIsAll(x, w);
    } else {
      AndNotLow(x / 2, k - 1, w - 1);
      var y := Pow2(w) - Pow2(k);
      assert y / 2 == Pow2(w - 1) - Pow2(k - 1) && y % 2 == 0;
      AndStep(x, y);
    }
  }

  lemma LowIsAll(x: nat, w: nat)
    requires x < Pow2(w)
    ensures Low(x, w) == x
  {
    HighLow(x, w);
    QuotientUnique(x, Pow2(w), 0, x);
  }

  /** Sizes are multiples of 8, and so are the class boundaries a rounded request meets. */
  lemma RoundedAligned(m: nat, q: nat, r: nat, up: nat)
    requires 7 <= m && r % 8 == 0 && up == r + Pow2(m - 5) - 1 && 32 * Pow2(m - 5) <= r
    requires q * Pow2(m - 5) <= up < q * Pow2(m - 5) + Pow2(m - 5)
    ensures (q * Pow2(m - 5)) % 8 == 0 && r <= q * Pow2(m - 5) <= r + r / 32
  {
    var p := Pow2(m - 5);
    assert Pow2(2) == 4 && Pow2(3) == 8 by { Pow2Values(); }
    if m > 7 {
      Pow2Sum(3, m - 8);
      MultipleOf8(q, Pow2(m - 8));
    }
  }

  lemma MultipleOf8(q: nat, h: nat)
    ensures (q * (8 * h)) % 8 == 0
  {
    assert q * (8 * h) == 8 * (q * h);
  }

  lemma SearchInRange(fl: nat, sl: nat)
    requires fl > 0 && sl < MAX_SLI
    ensures ClassLow(fl, sl) < MAX_BLOCK <==> fl < REAL_FLI
  {
    Pow2Values();
    assert Pow2(25) == 2 * Pow2(24);
    if fl < REAL_FLI {
      if fl < 23 { Pow2Monotone(fl + 1, 24); }
      MulMono(MAX_SLI + sl, 63, Pow2(fl + 1));
    } else {
      if fl > 24 { Pow2Monotone(25, fl + 1); }
      MulMono(MAX_SLI, MAX_SLI + sl, Pow2(fl + 1));
    }
  }
}
