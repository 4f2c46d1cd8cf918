/** The word-at-a-time copy and fill of memory, against the loops over bytes they stand for. */
module MemOps {
  import opened Words

  newtype Byte = x: int | 0 <= x < 256

  // ----- the loops over bytes, as functions

  /** Bytes copied one by one, lowest first, so that an overlap repeats what was just written. */
  function CopyBytes(m: seq<Byte>, dst: nat, src: nat, n: nat): (m': seq<Byte>)
    requires dst + n <= |m| && src + n <= |m|
    ensures |m'| == |m|
    decreases n
  {
    if n == 0 then m else CopyBytes(m[dst := m[src]], dst + 1, src + 1, n - 1)
  }

  function FillBytes(m: seq<Byte>, s: nat, c: Byte, n: nat): (m': seq<Byte>)
    requires s + n <= |m|
    ensures |m'| == |m|
    decreases n
  {
    if n == 0 then m else FillBytes(m[s := c], s + 1, c, n - 1)
  }

  // ----- words in memory, low byte first

  function ReadWord(m: seq<Byte>, a: nat): Word
    requires a + 4 <= |m|
  {
    Word4(m[a], m[a + 1], m[a + 2], m[a + 3])
  }

  function ByteOf(w: Word, k: nat): Byte
    requires k < 4
  {
    ((if k == 0 then w else if k == 1 then w / 0x100 else if k == 2 then w / 0x1_0000
      else w / 0x100_0000) % 0x100) as Byte
  }

  function WriteWord(m: seq<Byte>, a: nat, w: Word): (m': seq<Byte>)
    requires a + 4 <= |m|
    ensures |m'| == |m|
  {
    m[a := ByteOf(w, 0)][a + 1 := ByteOf(w, 1)][a + 2 := ByteOf(w, 2)][a + 3 := ByteOf(w, 3)]
  }

  function Word4(b0: Byte, b1: Byte, b2: Byte, b3: Byte): Word {
    b0 as int + 0x100 * (b1 as int) + 0x1_0000 * (b2 as int) + 0x100_0000 * (b3 as int)
  }

  lemma BytesOfWord4(b0: Byte, b1: Byte, b2: Byte, b3: Byte)
    ensures var w := Word4(b0, b1, b2, b3);
            ByteOf(w, 0) == b0 && ByteOf(w, 1) == b1 && ByteOf(w, 2) == b2 && ByteOf(w, 3) == b3
  {
    var w, x1 := Word4(b0, b1, b2, b3), b1 as int + 0x100 * (b2 as int) + 0x1_0000 * (b3 as int);
    var x2 := b2 as int + 0x100 * (b3 as int);
    Digit(w, x1, b0 as int);
    Digit(x1, x2, b1 as int);
    Digit(x2, b3 as int, b2 as int);
    QuotientUnique(w, 0x1_0000, x2, b0 as int + 0x100 * (b1 as int));
    QuotientUnique(w, 0x100_0000, b3 as int, b0 as int + 0x100 * (b1 as int) + 0x1_0000 * (b2 as int));
  }

  lemma Digit(w: int, q: int, r: int)
    requires 0 <= r < 0x100 && w == r + 0x100 * q
    ensures w / 0x100 == q && w % 0x100 == r
  {
    QuotientUnique(w, 0x100, q, r);
  }

  lemma BytesOfWord(m: seq<Byte>, a: nat)
    requires a + 4 <= |m|
    ensures forall k :: 0 <= k < 4 ==> ByteOf(ReadWord(m, a), k) == m[a + k]
  {
    hide ByteOf;
    BytesOfWord4(m[a], m[a + 1], m[a + 2], m[a + 3]);
  }

  // ----- one word is four bytes

  /** Four bytes copied to an address a whole number of words away make one word copied. */
  lemma WordIsFourBytes(m: seq<Byte>, dst: nat, src: nat, n: nat)
    requires dst + n <= |m| && src + n <= |m| && n >= 4 && dst % 4 == 0 && src % 4 == 0
    ensures CopyBytes(m, dst, src, n) == CopyBytes(WriteWord(m, dst, ReadWord(m, src)), dst + 4, src + 4, n - 4)
  {
    var m1 := m[dst := m[src]];
    var m2 := m1[dst + 1 := m1[src + 1]];
    var m3 := m2[dst + 2 := m2[src + 2]];
    var m4 := m3[dst + 3 := m3[src + 3]];
    assert CopyBytes(m, dst, src, n) == CopyBytes(m1, dst + 1, src + 1, n - 1);
    assert CopyBytes(m1, dst + 1, src + 1, n - 1) == CopyBytes(m2, dst + 2, src + 2, n - 2);
    assert CopyBytes(m2, dst + 2, src + 2, n - 2) == CopyBytes(m3, dst + 3, src + 3, n - 3);
    assert CopyBytes(m3, dst + 3, src + 3, n - 3) == CopyBytes(m4, dst + 4, src + 4, n - 4);
    BytesOfWord(m, src);
    assert m1[src + 1] == m[src + 1] && m2[src + 2] == m[src + 2] && m3[src + 3] == m[src + 3] by {
      AlignedApart(dst, src);
    }
    assert m4 == WriteWord(m, dst, ReadWord(m, src));
  }

  lemma AlignedApart(a: nat, b: nat)
    requires a % 4 == 0 && b % 4 == 0
    ensures a == b || a + 4 <= b || b + 4 <= a
  {
  }

  /** The byte repeated in a word. */
  function Spread(c: Byte): Word {
    Word4(c, c, c, c)
  }

  lemma SpreadBytes(c: Byte)
    ensures forall k :: 0 <= k < 4 ==> ByteOf(Spread(c), k) == c
  {
    hide ByteOf;
    BytesOfWord4(c, c, c, c);
  }

  /** x moved up s places. */
  function Up(x: nat, s: nat): nat {
    if s == 0 then x else 2 * Up(x, s - 1)
  }

  lemma UpValues(x: nat)
    ensures Up(x, 8) == 0x100 * x && Up(x, 16) == 0x1_0000 * x
  {
    UpFour(x, 0);
    UpFour(x, 4);
    UpFour(x, 8);
    UpFour(x, 12);
  }

  lemma UpFour(x: nat, s: nat)
    ensures Up(x, s + 4) == 16 * Up(x, s)
  {
    hide Up;
    UpStep(x, s + 4);
    UpStep(x, s + 3);
    UpStep(x, s + 2);
    UpStep(x, s + 1);
  }

  lemma {:induction false} AndUp(a: nat, b: nat, s: nat)
    ensures And(Up(a, s), Up(b, s)) == Up(And(a, b), s)
    decreases s
  {
    if s > 0 {
      AndUp(a, b, s - 1);
      hide And, Up;
      Twice(Up(a, s - 1));
      Twice(Up(b, s - 1));
      AndStep(2 * Up(a, s - 1), 2 * Up(b, s - 1));
      UpStep(a, s);
      UpStep(b, s);
      UpStep(And(a, b), s);
    }
  }

  lemma UpStep(x: nat, s: nat)
    requires s > 0
    ensures Up(x, s) == 2 * Up(x, s - 1)
  {
  }

  lemma Twice(x: nat)
    ensures (2 * x) / 2 == x && (2 * x) % 2 == 0
  {
  }

  lemma {:induction false} OrUp(a: nat, b: nat, s: nat)
    requires a < Pow2(s)
    ensures Or(a, Up(b, s)) == a + Up(b, s)
    decreases s
  {
    if s > 0 {
      OrUp(a / 2, b, s - 1);
      hide Or, Up;
      Twice(Up(b, s - 1));
      OrStep(a, 2 * Up(b, s - 1));
      UpStep(b, s);
    }
  }

  /** The bytes of c, shifted and masked as the original does, make the low byte of c repeated. */
  lemma SpreadByMasks(c: Word)
    ensures And(c, 0xff) == c % 0x100
    ensures var c0 := And(c, 0xff); c0 < 0x100 && Or(c0, And(Shl(c0, 8), 0xff00)) == 0x101 * c0
    ensures var c1 := 0x101 * And(c, 0xff); Or(c1, And(Shl(c1, 16), 0xffff_0000)) == Spread((c % 0x100) as Byte)
  {
    hide Or, And, Shl, Up, Low, High;
    LowByte(c);
    var c0, c1 := c % 0x100, 0x101 * (c % 0x100);
    Pow2Values();
    MaskedByte(c0, 8, 0xff, 0xff00);
    MaskedByte(c1, 16, 0xffff, 0xffff_0000);
    OrUp(c0, c0, 8);
    OrUp(c1, c1, 16);
    UpValues(c0);
    UpValues(c1);
  }

  /** x shifted up s places, within a mask of k ones there, is x there. */
  lemma MaskedByte(x: nat, s: nat, m: nat, m': nat)
    requires (s == 8 && m == 0xff && m' == 0xff00) || (s == 16 && m == 0xffff && m' == 0xffff_0000)
    requires x <= m
    ensures x < WORD_MOD && And(Shl(x, s), m') == Up(x, s)
  {
    hide And, Up, Low, High, Pow2;
    ShiftedByte(x, s, m);
    UpValues(m);
    AndUp(x, m, s);
    AndMask(x, s);
    Pow2Values();
    LowAll(x, s);
  }

  /** A shift that loses no bit. */
  lemma ShiftedByte(x: nat, s: nat, m: nat)
    requires ((s == 8 && m == 0xff) || (s == 16 && m == 0xffff)) && x <= m
    ensures x < WORD_MOD && Shl(x, s) == Up(x, s)
  {
    hide And, Up, Low, High, Pow2, Shl;
    Pow2Values();
    UpValues(x);
    if s == 8 { ShiftedTo(x, 8, 0x100 * x); } else { ShiftedTo(x, 16, 0x1_0000 * x); }
  }

  lemma ShiftedTo(x: Word, s: nat, v: Word)
    requires s < 32 && x * Pow2(s) == v
    ensures Shl(x, s) == v
  {
    hide Pow2;
    WrapWitness(v, 0, v);
  }

  lemma {:induction false} LowAll(x: nat, k: nat)
    requires x < Pow2(k)
    ensures Low(x, k) == x
    decreases k
  {
    if k > 0 { LowAll(x / 2, k - 1); }
  }

  lemma LowByte(c: Word)
    ensures And(c, 0xff) == c % 0x100
  {
    Pow2Values();
    AndMask(c, 8);
    HighLow(c, 8);
  }

  lemma FillFour(m: seq<Byte>, s: nat, c: Byte, n: nat)
    requires s + n <= |m| && n >= 4
    ensures FillBytes(m, s, c, n) == FillBytes(WriteWord(m, s, Spread(c)), s + 4, c, n - 4)
  {
    var m1 := m[s := c];
    var m2 := m1[s + 1 := c];
    var m3 := m2[s + 2 := c];
    assert FillBytes(m, s, c, n) == FillBytes(m1, s + 1, c, n - 1);
    assert FillBytes(m1, s + 1, c, n - 1) == FillBytes(m2, s + 2, c, n - 2);
    assert FillBytes(m2, s + 2, c, n - 2) == FillBytes(m3, s + 3, c, n - 3);
    SpreadBytes(c);
    assert m3[s + 3 := c] == WriteWord(m, s, Spread(c));
  }

  // ----- alignment

  /** The low two bits of a disjunction are clear exactly if they are in both. */
  lemma AlignedBits(a: nat, b: nat)
    ensures And(a, 3) == 0 <==> a % 4 == 0
    ensures Or(a, b) % 4 == 0 <==> a % 4 == 0 && b % 4 == 0
  {
    assert Pow2(2) == 4 by { Pow2Values(); }
    AndMask(a, 2);
    HighLow(a, 2);
    hide And, Or;
    OrStep(a, b);
    OrStep(a / 2, b / 2);
    LowTwo(Or(a, b), Or(a / 4, b / 4));
    LowTwo(a, a / 4);
    LowTwo(b, b / 4);
  }

  lemma LowTwo(x: nat, q: nat)
    ensures x % 4 == 0 <==> x % 2 == 0 && (x / 2) % 2 == 0
    ensures x / 2 / 2 == x / 4
  {
  }

  // ----- the original loops

  /** _tvm_memcpy. */
  method Memcpy(m: array<Byte>, dst: nat, src: nat, n: nat)
    requires dst + n <= m.Length && src + n <= m.Length && m.Length < WORD_MOD
    modifies m
    ensures m[..] == CopyBytes(old(m[..]), dst, src, n)
  {
    hide And, Or, WriteWord, ReadWord;
    AlignedBits(Or(n, dst), src);
    AlignedBits(n, dst);
    AlignedBits(Or(Or(n, dst), src), 0);
    var d: nat, s: nat := dst, src;
    if And(Or(Or(n, dst), src), 3) == 0 {
      var words: nat := n / 4;
      while words > 0
        invariant d + 4 * words <= m.Length && s + 4 * words <= m.Length && d % 4 == 0 && s % 4 == 0
        invariant CopyBytes(m[..], d, s, 4 * words) == CopyBytes(old(m[..]), dst, src, n)
      {
        WordIsFourBytes(m[..], d, s, 4 * words);
        StoreWord(m, d, LoadWord(m, s));
        s := s + 4;
        d := d + 4;
        words := words - 1;
      }
    } else {
      var left: nat := n;
      while left > 0
        invariant d + left <= m.Length && s + left <= m.Length
        invariant CopyBytes(m[..], d, s, left) == CopyBytes(old(m[..]), dst, src, n)
      {
        ghost var was := m[..];
        m[d] := m[s];
        assert m[..] == was[d := was[s]];
        s := s + 1;
        d := d + 1;
        left := left - 1;
      }
    }
  }

  function LoadWord(m: array<Byte>, a: nat): Word
    requires a + 4 <= m.Length
    reads m
  {
    ReadWord(m[..], a)
  }

  method StoreWord(m: array<Byte>, a: nat, w: Word)
    requires a + 4 <= m.Length
    modifies m
    ensures m[..] == WriteWord(old(m[..]), a, w)
  {
    hide ByteOf;
    m[a] := ByteOf(w, 0);
    m[a + 1] := ByteOf(w, 1);
    m[a + 2] := ByteOf(w, 2);
    m[a + 3] := ByteOf(w, 3);
  }

  /** _tvm_memset; only the low byte of c counts. */
  method Memset(m: array<Byte>, s0: nat, c0: Word, n: nat)
    requires s0 + n <= m.Length && m.Length < WORD_MOD
    modifies m
    ensures m[..] == FillBytes(old(m[..]), s0, (c0 % 0x100) as Byte, n)
  {
    hide And, Or, Shl, ByteOf;
    AlignedBits(n, s0);
    AlignedBits(Or(n, s0), 0);
    ghost var b := (c0 % 0x100) as Byte;
    var s: nat, c := s0, c0;
    if And(Or(n, s0), 3) == 0 && n / 16 != 0 {
      SpreadByMasks(c);
      c := And(c, 0xff);
      c := Or(c, And(Shl(c, 8), 0xff00));
      c := Or(c, And(Shl(c, 16), 0xffff_0000));
      var words: nat := n / 4;
      while words > 0
        invariant s + 4 * words <= m.Length && c == Spread(b)
        invariant FillBytes(m[..], s, b, 4 * words) == FillBytes(old(m[..]), s0, b, n)
      {
        FillFour(m[..], s, b, 4 * words);
        StoreWord(m, s, c);
        s := s + 4;
        words := words - 1;
      }
    } else {
      var left: nat := n;
      while left > 0
        invariant s + left <= m.Length
        invariant FillBytes(m[..], s, b, left) == FillBytes(old(m[..]), s0, b, n)
      {
        ghost var was := m[..];
        m[s] := (c % 0x100) as Byte;
        assert m[..] == was[s := b];
        s := s + 1;
        left := left - 1;
      }
    }
  }

  // ----- what the byte loop does

  /** The n bytes from s hold c, and no other byte changes. */
  lemma {:induction false} FillSets(m: seq<Byte>, s: nat, c: Byte, n: nat)
    requires s + n <= |m|
    ensures var m' := FillBytes(m, s, c, n);
            (forall i :: s <= i < s + n ==> m'[i] == c) && m'[..s] == m[..s] && m'[s + n..] == m[s + n..]
    decreases n
  {
    if n > 0 {
      var m1, m' := m[s := c], FillBytes(m, s, c, n);
      FillSets(m1, s + 1, c, n - 1);
      assert m'[s] == m'[..s + 1][s] && m1[..s + 1][s] == c;
      assert m'[..s] == m'[..s + 1][..s] && m[..s] == m1[..s + 1][..s];
      assert m1[s + n..] == m[s + n..];
    }
  }

  /** Where the regions do not overlap the wrong way round, the copy delivers the source as it was, and nothing else
   changes. */
  lemma {:induction false} CopyDelivers(m: seq<Byte>, dst: nat, src: nat, n: nat)
    requires dst + n <= |m| && src + n <= |m| && (dst <= src || src + n <= dst)
    ensures var m' := CopyBytes(m, dst, src, n);
            m'[dst..dst + n] == m[src..src + n] && m'[..dst] == m[..dst] && m'[dst + n..] == m[dst + n..]
    decreases n
  {
    if n > 0 {
      var m1 := m[dst := m[src]];
      CopyDelivers(m1, dst + 1, src + 1, n - 1);
      var m' := CopyBytes(m, dst, src, n);
      assert m'[..dst + 1] == m1[..dst + 1];
      assert m'[dst] == m'[..dst + 1][dst] == m1[dst];
      assert m'[dst + 1..dst + n] == m1[src + 1..src + n] == m[src + 1..src + n];
      assert m'[dst..dst + n] == [m'[dst]] + m'[dst + 1..dst + n];
      assert m'[..dst] == m'[..dst + 1][..dst] == m1[..dst + 1][..dst];
    }
  }

  /** An overlapping copy upwards repeats the first dst - src bytes. */
  lemma {:induction false} CopyRepeats(m: seq<Byte>, dst: nat, src: nat, n: nat, i: nat)
    requires src < dst && dst + n <= |m| && i < n
    ensures var m' := CopyBytes(m, dst, src, n); m'[dst + i] == m[src + i % (dst - src)] && m'[..dst] == m[..dst]
    decreases n
  {
    var m1 := m[dst := m[src]];
    var m', d := CopyBytes(m, dst, src, n), dst - src;
    CopyBelow(m1, dst + 1, src + 1, n - 1);
    assert m'[dst] == m'[..dst + 1][dst] == m1[dst];
    assert m'[..dst] == m'[..dst + 1][..dst] == m1[..dst + 1][..dst];
    if i > 0 {
      CopyRepeats(m1, dst + 1, src + 1, n - 1, i - 1);
      var r := (i - 1) % d;
      QuotientOf(i - 1, d);
      if r + 1 < d { QuotientUnique(i, d, (i - 1) / d, r + 1); } else { QuotientUnique(i, d, (i - 1) / d + 1, 0); }
    } else {
      QuotientUnique(0, d, 0, 0);
    }
  }

  lemma QuotientOf(x: nat, d: nat)
    requires d > 0
    ensures x == (x / d) * d + x % d && 0 <= x % d < d && ((x / d) + 1) * d == (x / d) * d + d
  {
    QuotientBounds(x, d);
  }

  lemma {:induction false} CopyBelow(m: seq<Byte>, dst: nat, src: nat, n: nat)
    requires dst + n <= |m| && src + n <= |m|
    ensures CopyBytes(m, dst, src, n)[..dst] == m[..dst]
    decreases n
  {
    if n > 0 {
      var m1 := m[dst := m[src]];
      CopyBelow(m1, dst + 1, src + 1, n - 1);
      var m' := CopyBytes(m, dst, src, n);
      assert m'[..dst] == m'[..dst + 1][..dst] == m1[..dst + 1][..dst];
    }
  }
}
