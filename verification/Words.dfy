/**
 Machine words of the 32-bit interpreter, held as bit patterns 0 .. 2^32-1, and
 the C operators the interpreter applies to them. The bitwise operators are
 defined digit by digit on unbounded naturals, so that the same definitions
 serve 32-bit and 64-bit operands; wrap-around is always written out.
 */
module Words {

  const WORD_MOD := 0x1_0000_0000
  const MIN_INT := 0x8000_0000

  type Word = x: int | 0 <= x < WORD_MOD

  /** The word left by storing any integer in 32 bits. */
  function Wrap(x: int): Word {
    x % WORD_MOD
  }

  /** The value of a word read as a two's complement integer. */
  function Signed(w: Word): int {
    if w < MIN_INT then w else w - WORD_MOD
  }

  /** Wrapping keeps the remainder of any split by 2^32. */
  lemma WrapWitness(x: int, q: int, r: int)
    requires x == q * WORD_MOD + r && 0 <= r < WORD_MOD
    ensures Wrap(x) == r && x / WORD_MOD == q
  {
  }

  function Pow2(n: nat): nat
    ensures Pow2(n) > 0
  {
    if n == 0 then 1 else 2 * Pow2(n - 1)
  }

  function And(a: nat, b: nat): nat {
    if a == 0 || b == 0 then 0
    else 2 * And(a / 2, b / 2) + (if a % 2 == 1 && b % 2 == 1 then 1 else 0)
  }

  function Or(a: nat, b: nat): nat {
    if a == 0 then b else if b == 0 then a
    else 2 * Or(a / 2, b / 2) + (if a % 2 == 1 || b % 2 == 1 then 1 else 0)
  }

  function Xor(a: nat, b: nat): nat {
    if a == 0 then b else if b == 0 then a
    else 2 * Xor(a / 2, b / 2) + (if a % 2 != b % 2 then 1 else 0)
  }

  /** Bitwise complement of a word. */
  function Not(w: Word): Word {
    WORD_MOD - 1 - w
  }

  /** Unsigned left and right shifts by fewer than 32 places. */
  function Shl(w: Word, n: nat): Word {
    Wrap(w * Pow2(n))
  }

  function Shr(w: Word, n: nat): Word {
    QuotientBounds(w, Pow2(n));
    w / Pow2(n)
  }

  // ----- powers of two

  lemma {:induction false} Pow2Sum(m: nat, n: nat)
    ensures Pow2(m + n) == Pow2(m) * Pow2(n)
  {
    if m > 0 {
      Pow2Sum(m - 1, n);
      assert 2 * Pow2(m - 1) * Pow2(n) == Pow2(m) * Pow2(n);
    }
  }

  lemma {:induction false} Pow2Monotone(m: nat, n: nat)
    requires m < n
    ensures 2 * Pow2(m) <= Pow2(n)
  {
    if m + 1 < n {
      Pow2Monotone(m, n - 1);
    }
  }

  lemma Pow2Values()
    ensures Pow2(0) == 1 && Pow2(1) == 2 && Pow2(2) == 4 && Pow2(3) == 8
    ensures Pow2(4) == 0x10 && Pow2(5) == 0x20 && Pow2(6) == 0x40 && Pow2(7) == 0x80
    ensures Pow2(8) == 0x100 && Pow2(16) == 0x1_0000 && Pow2(23) == 0x80_0000 && Pow2(24) == 0x100_0000
    ensures Pow2(31) == MIN_INT && Pow2(32) == WORD_MOD
    ensures Pow2(39) == 0x80_0000_0000 && Pow2(40) == 0x100_0000_0000
    ensures Pow2(63) == 0x8000_0000_0000_0000 && Pow2(64) == WORD_MOD * WORD_MOD
  {
    assert Pow2(4) == 16;
    Pow2Sum(4, 4);
    Pow2Sum(8, 8);
    Pow2Sum(8, 16);
    assert Pow2(24) == 0x100_0000 == 2 * Pow2(23);
    Pow2Sum(16, 16);
    assert Pow2(32) == 2 * Pow2(31);
    Pow2Sum(8, 32);
    assert Pow2(40) == 2 * Pow2(39);
    Pow2Sum(32, 32);
    assert Pow2(64) == 2 * Pow2(63);
  }

  // ----- arithmetic of quotients

  lemma MulMono(x: int, y: int, d: int)
    requires x <= y && d >= 0
    ensures x * d <= y * d
  {
  }

  lemma SmallMultiple(k: int, d: int)
    requires 0 < d && -d < k * d < d
    ensures k == 0
  {
    if k >= 1 {
      MulMono(1, k, d);
    } else if k <= -1 {
      MulMono(k, -1, d);
    }
  }

  /** x * y as repeated addition; keeps products opaque to the solver until MulIsProduct. */
  function Mul(x: nat, y: nat): nat {
    if x == 0 then 0 else Mul(x - 1, y) + y
  }

  lemma {:induction false} MulIsProduct(x: nat, y: nat)
    ensures Mul(x, y) == x * y
  {
    if x > 0 {
      MulIsProduct(x - 1, y);
      assert (x - 1) * y + y == x * y;
    }
  }

  /** A quotient is pinned down by its defining bounds. */
  lemma QuotientUnique(n: int, d: nat, q: int, r: int)
    requires 0 <= r < d && n == q * d + r
    ensures n / d == q && n % d == r
  {
    var q', r' := n / d, n % d;
    assert n == d * q' + r';
    assert (q' - q) * d == r - r' by {
      assert (q' - q) * d == q' * d - q * d;
    }
    SmallMultiple(q' - q, d);
  }

  lemma QuotientBounds(n: nat, d: nat)
    requires d > 0
    ensures 0 <= n / d <= n && n == (n / d) * d + n % d
  {
    var q := n / d;
    assert n == d * q + n % d;
    assert q >= 0;
    MulMono(1, d, q);
  }

  /** The digits from place k up, and those below place k. */
  function High(x: nat, k: nat): nat {
    if k == 0 then x else High(x / 2, k - 1)
  }

  function Low(x: nat, k: nat): nat {
    if k == 0 then 0 else 2 * Low(x / 2, k - 1) + x % 2
  }

  lemma {:induction false} HighLow(x: nat, k: nat)
    ensures x == High(x, k) * Pow2(k) + Low(x, k)
    ensures Low(x, k) < Pow2(k)
    ensures High(x, k) == x / Pow2(k) && Low(x, k) == x % Pow2(k)
  {
    if k > 0 {
      HighLow(x / 2, k - 1);
      var h, p := High(x, k), Pow2(k - 1);
      assert 2 * (h * p) == h * (2 * p);
    }
    QuotientUnique(x, Pow2(k), High(x, k), Low(x, k));
  }

  // ----- bitwise operators against arithmetic

  /** Or of a multiple of 2^s with a value below 2^s is their sum. */
  lemma {:induction false} OrIsSum(a: nat, b: nat, s: nat)
    requires a % Pow2(s) == 0 && b < Pow2(s)
    ensures Or(a, b) == a + b
    decreases s
  {
    if a != 0 && b != 0 {
      var q := a / Pow2(s);
      assert a == Pow2(s) * q;
      assert s > 0;
      assert a == 2 * (Pow2(s - 1) * q) by {
        assert Pow2(s) == 2 * Pow2(s - 1);
        assert 2 * Pow2(s - 1) * q == 2 * (Pow2(s - 1) * q);
      }
      assert a / 2 == Pow2(s - 1) * q && a % 2 == 0;
      assert (a / 2) % Pow2(s - 1) == 0 by { QuotientUnique(a / 2, Pow2(s - 1), q, 0); }
      OrIsSum(a / 2, b / 2, s - 1);
    }
  }

  /** And with 2^k - 1 keeps the low k bits. */
  lemma {:induction false} AndMask(a: nat, k: nat)
    ensures And(a, Pow2(k) - 1) == Low(a, k)
    decreases k
  {
    if k > 0 {
      var m := Pow2(k) - 1;
      assert m / 2 == Pow2(k - 1) - 1 && m % 2 == 1;
      AndMask(a / 2, k - 1);
      AndStep(a, m);
    }
  }

  lemma AndStep(a: nat, b: nat)
    ensures And(a, b) == 2 * And(a / 2, b / 2) + (if a % 2 == 1 && b % 2 == 1 then 1 else 0)
  {
  }

  lemma OrStep(a: nat, b: nat)
    ensures Or(a, b) == 2 * Or(a / 2, b / 2) + (if a % 2 == 1 || b % 2 == 1 then 1 else 0)
  {
  }

  lemma {:induction false} OrCommutes(a: nat, b: nat)
    ensures Or(a, b) == Or(b, a)
  {
    if a != 0 && b != 0 {
      OrCommutes(a / 2, b / 2);
    }
  }

  /** The operators act on the high digits of their operands independently. */
  lemma {:induction false} AndHigh(a: nat, b: nat, k: nat)
    ensures High(And(a, b), k) == And(High(a, k), High(b, k))
    decreases k
  {
    if k > 0 {
      AndHigh(a / 2, b / 2, k - 1);
      AndStep(a, b);
    }
  }

  lemma {:induction false} OrHigh(a: nat, b: nat, k: nat)
    ensures High(Or(a, b), k) == Or(High(a, k), High(b, k))
    decreases k
  {
    if k > 0 {
      OrHigh(a / 2, b / 2, k - 1);
      OrStep(a, b);
    }
  }

  lemma {:induction false} OrLow(a: nat, b: nat, k: nat)
    ensures Low(Or(a, b), k) == Or(Low(a, k), Low(b, k))
    decreases k
  {
    if k > 0 {
      hide Or;
      OrLow(a / 2, b / 2, k - 1);
      OrStep(a, b);
      OrStep(Low(a, k), Low(b, k));
    }
  }

  /** Or with all ones is all ones. */
  lemma {:induction false} OrAllOnes(a: nat, k: nat)
    requires a < Pow2(k)
    ensures Or(a, Pow2(k) - 1) == Pow2(k) - 1
    decreases k
  {
    if k > 0 {
      var m := Pow2(k) - 1;
      assert m / 2 == Pow2(k - 1) - 1 && m % 2 == 1;
      OrAllOnes(a / 2, k - 1);
      OrStep(a, m);
    }
  }

  lemma XorStep(a: nat, b: nat)
    ensures Xor(a, b) == 2 * Xor(a / 2, b / 2) + (if a % 2 != b % 2 then 1 else 0)
  {
  }

  lemma {:induction false} XorHigh(a: nat, b: nat, k: nat)
    ensures High(Xor(a, b), k) == Xor(High(a, k), High(b, k))
    decreases k
  {
    if k > 0 {
      XorHigh(a / 2, b / 2, k - 1);
      XorStep(a, b);
    }
  }

  /** Every place set in either operand is set in both or in exactly one. */
  lemma {:induction false} OrSplits(a: nat, b: nat)
    ensures Or(a, b) == And(a, b) + Xor(a, b)
  {
    if a != 0 && b != 0 {
      OrSplits(a / 2, b / 2);
    }
  }

  /** The top bit of a word. */
  function Top(w: Word): nat
    ensures Top(w) == (if w >= MIN_INT then 1 else 0)
  {
    TopIsHigh(w);
    High(w, 31)
  }

  lemma TopIsHigh(w: Word)
    ensures High(w, 31) == (if w >= MIN_INT then 1 else 0)
  {
    Pow2Values();
    HighLow(w, 31);
  }

  lemma TopBits(a: Word, b: Word)
    ensures And(a, b) < WORD_MOD && Or(a, b) < WORD_MOD && Xor(a, b) < WORD_MOD
    ensures Top(And(a, b)) == And(Top(a), Top(b))
    ensures Top(Or(a, b)) == Or(Top(a), Top(b))
    ensures Top(Xor(a, b)) == Xor(Top(a), Top(b))
  {
    WordClosed(a, b);
    AndHigh(a, b, 31);
    OrHigh(a, b, 31);
    XorHigh(a, b, 31);
  }

  /** The operators stay within 32 bits. */
  lemma WordClosed(a: Word, b: Word)
    ensures And(a, b) < WORD_MOD && Or(a, b) < WORD_MOD && Xor(a, b) < WORD_MOD
  {
    Pow2Values();
    AndHigh(a, b, 32);
    OrHigh(a, b, 32);
    XorHigh(a, b, 32);
    HighLow(a, 32);
    HighLow(b, 32);
    HighLow(And(a, b), 32);
    HighLow(Or(a, b), 32);
    HighLow(Xor(a, b), 32);
  }

  lemma {:induction false} HighTwice(d: nat, m: nat, n: nat)
    ensures High(High(d, m), n) == High(d, m + n)
  {
    if m > 0 {
      HighTwice(d / 2, m - 1, n);
    }
  }
}
