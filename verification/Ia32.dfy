/**
 The IA-32 sequences the translator emits for long shifts, multiply, divide, sum
 and difference, run on a small machine and compared with the double-word values
 the interpreter's instructions stand for.
 */
module Ia32 {
  import opened Words
  import opened LongArith

  /** The virtual registers holding the old A, B and C stack entries, and one temporary. */
  datatype Reg = RA | RB | RC | RT

  datatype Ins =
    | Shld(count: Reg, src: Reg, dst: Reg)
    | ShlReg(count: Reg, dst: Reg)
    | Shrd(count: Reg, src: Reg, dst: Reg)
    | ShrReg(count: Reg, dst: Reg)
    | CmpConst(k: Word, reg: Reg)
    | JumpBelow(target: nat)
    | SetLabel(lab: nat)
    | Swap(r1: Reg, r2: Reg)
    | MoveConst(k: Word, reg: Reg)
    | Umul(factor: Reg, src: Reg, high: Reg)
    | Udiv(high: Reg, low: Reg, divisor: Reg)
    | Add(src: Reg, dst: Reg)
    | Adc(src: Reg, dst: Reg)
    | AdcConst(k: Word, dst: Reg)
    | Sbb(src: Reg, dst: Reg)
    | RotateCarryRight8(reg: Reg)
    | RotateCarryLeft8(reg: Reg)

  datatype Machine = Machine(a: Word, b: Word, c: Word, t: Word, carry: bool, fault: bool)
  {
    function Get(r: Reg): Word {
      match r case RA => a case RB => b case RC => c case RT => t
    }

    function Set(r: Reg, w: Word): Machine {
      match r
      case RA => this.(a := w)
      case RB => this.(b := w)
      case RC => this.(c := w)
      case RT => this.(t := w)
    }

    function CarryIn(): Word { if carry then 1 else 0 }
  }

  /** The processor uses only the low five bits of a shift count. */
  function Masked(count: Word): (n: nat)
    ensures n < 32
  {
    count % 32
  }

  function ShiftedLeft(hi: Word, lo: Word, n: nat): nat {
    (Double(hi, lo) * Pow2(n)) % DOUBLE_MOD
  }

  lemma DoubleParts(d: nat)
    requires d < DOUBLE_MOD
    ensures 0 <= d / WORD_MOD < WORD_MOD && d == Double(d / WORD_MOD, d % WORD_MOD)
  {
  }

  /** The upper half of hi:lo shifted left, and the lower half of hi:lo shifted right. */
  function UpperLeft(hi: Word, lo: Word, n: nat): Word {
    ShiftedLeft(hi, lo, n) / WORD_MOD
  }

  function LowerRight(hi: Word, lo: Word, n: nat): Word {
    High(Double(hi, lo), n) % WORD_MOD
  }

  function Left(w: Word, n: nat): Word {
    Wrap(w * Pow2(n))
  }

  function Right(w: Word, n: nat): (r: Word)
    ensures r == High(w, n)
  {
    HighIsSmaller(w, n);
    High(w, n)
  }

  lemma HighIsSmaller(x: Word, n: nat)
    ensures High(x, n) < WORD_MOD
  {
    if n > 0 { HighIsSmaller(x / 2, n - 1); }
  }

  function SetSum(m: Machine, dst: Reg, sum: nat): Machine {
    m.Set(dst, Wrap(sum)).(carry := sum >= WORD_MOD)
  }

  function SetDifference(m: Machine, dst: Reg, difference: int): Machine {
    m.Set(dst, Wrap(difference)).(carry := difference < 0)
  }

  function SetProduct(m: Machine, low: Reg, high: Reg, product: nat): Machine {
    m.Set(low, Wrap(product)).Set(high, Wrap(product / WORD_MOD)).(carry := product >= WORD_MOD)
  }

  /** Divide high:low; the processor faults when the quotient does not fit. */
  function Divide(m: Machine, high: Reg, low: Reg, divisor: Word): Machine {
    var hi, lo := m.Get(high), m.Get(low);
    if hi >= divisor then m.(fault := true)
    else
      QuotientFits(hi, lo, divisor);
      m.Set(low, Double(hi, lo) / divisor).Set(high, Double(hi, lo) % divisor)
  }

  function RotateRight8(m: Machine, reg: Reg): Machine {
    var w := m.Get(reg);
    var low := w % 256;
    m.Set(reg, w - low + m.CarryIn() * 128 + low / 2).(carry := low % 2 == 1)
  }

  function RotateLeft8(m: Machine, reg: Reg): Machine {
    var w := m.Get(reg);
    var low := w % 256;
    m.Set(reg, w - low + (low * 2) % 256 + m.CarryIn()).(carry := low >= 128)
  }

  function Step(i: Ins, m: Machine): Machine {
    match i
    case Shld(count, src, dst) => m.Set(dst, UpperLeft(m.Get(dst), m.Get(src), Masked(m.Get(count))))
    case ShlReg(count, dst) => m.Set(dst, Left(m.Get(dst), Masked(m.Get(count))))
    case Shrd(count, src, dst) => m.Set(dst, LowerRight(m.Get(src), m.Get(dst), Masked(m.Get(count))))
    case ShrReg(count, dst) => m.Set(dst, Right(m.Get(dst), Masked(m.Get(count))))
    case CmpConst(k, reg) => m.(carry := m.Get(reg) < k)
    case JumpBelow(_) => m
    case SetLabel(_) => m
    case Swap(r1, r2) => m.Set(r1, m.Get(r2)).Set(r2, m.Get(r1))
    case MoveConst(k, reg) => m.Set(reg, k)
    case Umul(factor, src, high) => SetProduct(m, factor, high, Mul(m.Get(factor), m.Get(src)))
    case Udiv(high, low, divisor) => Divide(m, high, low, m.Get(divisor))
    case Add(src, dst) => SetSum(m, dst, m.Get(dst) + m.Get(src))
    case Adc(src, dst) => SetSum(m, dst, m.Get(dst) + m.Get(src) + m.CarryIn())
    case AdcConst(k, dst) => SetSum(m, dst, m.Get(dst) + k + m.CarryIn())
    case Sbb(src, dst) => SetDifference(m, dst, m.Get(dst) - m.Get(src) - m.CarryIn())
    case RotateCarryRight8(reg) => RotateRight8(m, reg)
    case RotateCarryLeft8(reg) => RotateLeft8(m, reg)
  }

  lemma QuotientFits(hi: Word, lo: Word, v: Word)
    requires hi < v
    ensures 0 <= Double(hi, lo) / v < WORD_MOD && 0 <= Double(hi, lo) % v < WORD_MOD
  {
    var d := Double(hi, lo);
    QuotientBounds(d, v);
    if d / v >= WORD_MOD {
      MulMono(WORD_MOD, d / v, v);
    }
  }

  /** A straight sequence of instructions. */
  datatype Code = End | Then(ins: Ins, rest: Code)

  /** What follows a label. Every jump the sequences make is forward. */
  function After(code: Code, lab: nat): (rest: Code)
    ensures rest == code || rest < code
  {
    match code
    case End => End
    case Then(ins, rest) => if ins == SetLabel(lab) then rest else After(rest, lab)
  }

  function Run(code: Code, m: Machine): Machine
    decreases code
  {
    match code
    case End => m
    case Then(ins, rest) =>
      if m.fault then m
      else if ins.JumpBelow? && m.carry then Run(After(rest, ins.target), m)
      else Run(rest, Step(ins, m))
  }

  datatype LongOp = LSum | LDiff | LMul | LShl | LShr | LDiv

  /** The sequence emitted for an operation, with the fresh label it may use. */
  function Emit(op: LongOp, lab: nat): Code {
    match op
    case LSum => Then(RotateCarryRight8(RC), Then(Adc(RA, RB), CarryToT()))
    case LDiff => Then(RotateCarryRight8(RC), Then(Sbb(RA, RB), CarryToT()))
    case LMul => Then(Umul(RA, RB, RT), Then(Add(RC, RA), Then(AdcConst(0, RT), End)))
    case LShl => Then(Shld(RA, RB, RC), Then(ShlReg(RA, RB), MoveWords(RB, RC, lab)))
    case LShr => Then(Shrd(RA, RC, RB), Then(ShrReg(RA, RC), MoveWords(RC, RB, lab)))
    case LDiv => Then(Udiv(RC, RB, RA), End)
  }

  /** Move the carry into the temporary. */
  function CarryToT(): Code {
    Then(MoveConst(0, RT), Then(RotateCarryLeft8(RT), End))
  }

  /** For counts from 32 up exchange the words and clear `first`; from 64 up clear `second` too. */
  function MoveWords(first: Reg, second: Reg, lab: nat): Code {
    Then(CmpConst(32, RA),
         Then(JumpBelow(lab), Then(Swap(RB, RC), Then(MoveConst(0, first), ClearSecond(second, lab)))))
  }

  /** The registers that become the A and B stack entries after an operation. */
  function ResultA(op: LongOp, m: Machine): Word {
    match op
    case LMul => m.a
    case _ => m.b
  }

  function ResultB(op: LongOp, m: Machine): Word {
    match op
    case LShl | LShr | LDiv => m.c
    case _ => m.t
  }

  // ----- long shifts

  lemma RunOne(ins: Ins, rest: Code, m: Machine, m': Machine)
    requires !m.fault && !ins.JumpBelow? && m' == Step(ins, m)
    ensures Run(Then(ins, rest), m) == Run(rest, m')
  {
  }

  lemma RunJump(lab: nat, rest: Code, m: Machine)
    requires !m.fault
    ensures Run(Then(JumpBelow(lab), rest), m) == Run(if m.carry then After(rest, lab) else rest, m)
  {
  }

  /** A shift leaves every register but its destination, and never faults. */
  lemma ShiftFrame(i: Ins, m: Machine)
    requires i.Shld? || i.ShlReg? || i.Shrd? || i.ShrReg?
    requires i.dst != RA
    ensures Step(i, m).fault == m.fault && Step(i, m).a == m.a
  {
  }

  /** The word moves from the second test on. */
  function ClearSecond(second: Reg, lab: nat): Code {
    Then(CmpConst(64, RA), Then(JumpBelow(lab), Then(MoveConst(0, second), Then(SetLabel(lab), End))))
  }

  lemma RunClearSecond(second: Reg, lab: nat, m: Machine)
    requires !m.fault && second != RA
    ensures var end := Run(ClearSecond(second, lab), m);
            end.b == (if m.a < 64 || second != RB then m.b else 0) &&
            end.c == (if m.a < 64 || second != RC then m.c else 0) && !end.fault
    ensures After(ClearSecond(second, lab), lab) == End
  {
    var last := Then(MoveConst(0, second), Then(SetLabel(lab), End));
    assert After(last, lab) == End;
    var m1 := m.(carry := m.a < 64);
    RunOne(CmpConst(64, RA), Then(JumpBelow(lab), last), m, m1);
    RunJump(lab, last, m1);
    if m.a >= 64 {
      var m2 := m1.Set(second, 0);
      RunOne(MoveConst(0, second), Then(SetLabel(lab), End), m1, m2);
      RunOne(SetLabel(lab), End, m2, m2);
    }
  }

  /** What follows the shifts, in closed form. */
  lemma RunMoveWords(first: Reg, second: Reg, lab: nat, m: Machine)
    requires !m.fault && ((first == RB && second == RC) || (first == RC && second == RB))
    ensures var end := Run(MoveWords(first, second, lab), m);
            !end.fault &&
            (m.a < 32 ==> end.b == m.b && end.c == m.c) &&
            (32 <= m.a < 64 ==> end.Get(first) == 0 && end.Get(second) == m.Get(first)) &&
            (64 <= m.a ==> end.b == 0 && end.c == 0)
  {
    var tail := ClearSecond(second, lab);
    var swap := Then(Swap(RB, RC), Then(MoveConst(0, first), tail));
    var m1 := m.(carry := m.a < 32);
    RunOne(CmpConst(32, RA), Then(JumpBelow(lab), swap), m, m1);
    RunJump(lab, swap, m1);
    if m.a < 32 {
      RunClearSecond(second, lab, m1);
      assert After(swap, lab) == After(Then(MoveConst(0, first), tail), lab) == After(tail, lab);
    } else {
      var m2 := m1.(b := m.c, c := m.b);
      var m3 := m2.Set(first, 0);
      RunOne(Swap(RB, RC), Then(MoveConst(0, first), tail), m1, m2);
      RunOne(MoveConst(0, first), tail, m2, m3);
      RunClearSecond(second, lab, m3);
    }
  }

  /** The sequence is its two shifts and then the word moves. */
  lemma RunShifts(s1: Ins, s2: Ins, rest: Code, m: Machine)
    requires !m.fault
    requires s1.Shld? || s1.Shrd?
    requires s2.ShlReg? || s2.ShrReg?
    requires s1.dst != RA && s2.dst != RA
    ensures var m1 := Step(s2, Step(s1, m));
            m1.a == m.a && !m1.fault && Run(Then(s1, Then(s2, rest)), m) == Run(rest, m1)
  {
    ShiftFrame(s1, m);
    ShiftFrame(s2, Step(s1, m));
    RunOne(s1, Then(s2, rest), m, Step(s1, m));
    RunOne(s2, rest, Step(s1, m), Step(s2, Step(s1, m)));
  }

  /** The emitted left shift is the double-word shift for every unsigned count. */
  lemma LongShlCorrect(lab: nat, m: Machine)
    requires !m.fault
    ensures var end := Run(Emit(LShl, lab), m);
            Double(ResultB(LShl, end), ResultA(LShl, end)) == LongShl(Double(m.c, m.b), m.a)
  {
    var n := Masked(m.a);
    var m1 := m.(c := UpperLeft(m.c, m.b, n), b := Left(m.b, n));
    assert Step(ShlReg(RA, RB), Step(Shld(RA, RB, RC), m)) == m1;
    RunShifts(Shld(RA, RB, RC), ShlReg(RA, RB), MoveWords(RB, RC, lab), m);
    RunMoveWords(RB, RC, lab, m1);
    LeftShiftValue(m.c, m.b, m.a);
  }

  /** The masked shifts against the shift by the whole count. */
  lemma LeftShiftValue(c: Word, b: Word, count: Word)
    ensures var n := Masked(count);
            LongShl(Double(c, b), count) ==
              if count < 32 then Double(UpperLeft(c, b, n), Left(b, n))
              else if count < 64 then Double(Left(b, n), 0) else 0
  {
    var n := Masked(count);
    if count < 32 {
      LowWordShifts(c, b, n);
      DoubleParts(ShiftedLeft(c, b, n));
    } else if count < 64 {
      LeftByWord(c, b, n);
    }
  }

  lemma LeftByWord(c: Word, b: Word, n: nat)
    ensures (Double(c, b) * Pow2(n + 32)) % DOUBLE_MOD == Double(Left(b, n), 0)
  {
    Pow2Sum(n, 32);
    assert Pow2(32) == WORD_MOD by { Pow2Values(); }
    WholeWordLeft(c, b, Pow2(n));
  }

  lemma LowWordShifts(c: Word, b: Word, n: nat)
    ensures ShiftedLeft(c, b, n) % WORD_MOD == Wrap(b * Pow2(n))
  {
    var p := Pow2(n);
    var x := Double(c, b) * p;
    DoubleScaled(c, b, p);
    DropHigh(c * p, b * p);
  }

  lemma DropHigh(hi: int, lo: int)
    ensures (hi * WORD_MOD + lo) % WORD_MOD == lo % WORD_MOD
    ensures (hi * WORD_MOD + lo) % DOUBLE_MOD % WORD_MOD == lo % WORD_MOD
  {
    var x := hi * WORD_MOD + lo;
    var q, r := lo / WORD_MOD, lo % WORD_MOD;
    WrapWitness(x, hi + q, r);
    var k := x / DOUBLE_MOD;
    WrapWitness(x % DOUBLE_MOD, hi + q - k * WORD_MOD, r);
  }

  lemma WholeWordLeft(c: Word, b: Word, p: nat)
    ensures (Double(c, b) * (p * WORD_MOD)) % DOUBLE_MOD == Wrap(b * p) * WORD_MOD
  {
    var bp := b * p;
    DoubleScaled(c, b, p);
    var q := bp / WORD_MOD;
    assert Double(c, b) * (p * WORD_MOD) == (Double(c, b) * p) * WORD_MOD;
    assert (Double(c, b) * p) * WORD_MOD == (c * p + q) * DOUBLE_MOD + Wrap(bp) * WORD_MOD;
    QuotientUnique(Double(c, b) * (p * WORD_MOD), DOUBLE_MOD, c * p + q, Wrap(bp) * WORD_MOD);
  }

  /** The emitted right shift likewise. */
  lemma LongShrCorrect(lab: nat, m: Machine)
    requires !m.fault
    ensures var end := Run(Emit(LShr, lab), m);
            Double(ResultB(LShr, end), ResultA(LShr, end)) == LongShr(Double(m.c, m.b), m.a)
  {
    var n := Masked(m.a);
    var m1 := m.(b := LowerRight(m.c, m.b, n), c := Right(m.c, n));
    assert Step(ShrReg(RA, RC), Step(Shrd(RA, RC, RB), m)) == m1;
    RunShifts(Shrd(RA, RC, RB), ShrReg(RA, RC), MoveWords(RC, RB, lab), m);
    RunMoveWords(RC, RB, lab, m1);
    RightShiftValue(m.c, m.b, m.a);
  }

  lemma RightShiftValue(c: Word, b: Word, count: Word)
    ensures var n := Masked(count);
            LongShr(Double(c, b), count) ==
              if count < 32 then Double(Right(c, n), LowerRight(c, b, n))
              else if count < 64 then Right(c, n) else 0
  {
    hide High, Pow2;
    var n := Masked(count);
    var d := Double(c, b);
    if count < 64 {
      HighLow(d, count);
      HighTwice(d, 32, n);
      assert High(d, 32) == c by { Pow2Values(); HighLow(d, 32); QuotientUnique(d, WORD_MOD, c, b); }
      if count < 32 {
        HighTwice(d, n, 32);
        var h := High(d, n);
        assert h / WORD_MOD == High(h, 32) by { Pow2Values(); HighLow(h, 32); }
      }
    }
  }

  // ----- sums, products and quotients

  /** Rotating an 8-bit register right through the carry puts its low bit in the carry. */
  lemma RunRotate(rest: Code, m: Machine) returns (m1: Machine)
    requires !m.fault
    ensures Run(Then(RotateCarryRight8(RC), rest), m) == Run(rest, m1)
    ensures m1.a == m.a && m1.b == m.b && !m1.fault && m1.CarryIn() == m.c % 2
  {
    m1 := RotateRight8(m, RC);
    RunOne(RotateCarryRight8(RC), rest, m, m1);
  }

  /** The tail of a sum or difference leaves the carry in the temporary. */
  lemma RunCarryToT(m: Machine)
    requires !m.fault
    ensures Run(CarryToT(), m).t == m.CarryIn() && Run(CarryToT(), m).b == m.b
  {
    var m1 := m.(t := 0);
    RunOne(MoveConst(0, RT), Then(RotateCarryLeft8(RT), End), m, m1);
    RunOne(RotateCarryLeft8(RT), End, m1, RotateLeft8(m1, RT));
  }

  lemma RunAdc(m: Machine) returns (m': Machine)
    requires !m.fault
    ensures Run(Then(Adc(RA, RB), CarryToT()), m) == Run(CarryToT(), m') && !m'.fault
    ensures Double(m'.CarryIn(), m'.b) == m.b + m.a + m.CarryIn()
  {
    var sum := m.b + m.a + m.CarryIn();
    m' := SetSum(m, RB, sum);
    RunOne(Adc(RA, RB), CarryToT(), m, m');
    var k := if sum >= WORD_MOD then 1 else 0;
    WrapWitness(sum, k, sum - k * WORD_MOD);
  }

  lemma RunSbb(m: Machine) returns (m': Machine)
    requires !m.fault
    ensures Run(Then(Sbb(RA, RB), CarryToT()), m) == Run(CarryToT(), m') && !m'.fault
    ensures m'.b - m'.CarryIn() * WORD_MOD == m.b - m.a - m.CarryIn()
  {
    var difference := m.b - m.a - m.CarryIn();
    m' := SetDifference(m, RB, difference);
    RunOne(Sbb(RA, RB), CarryToT(), m, m');
    var k := if difference < 0 then 1 else 0;
    WrapWitness(difference, -k, difference + k * WORD_MOD);
  }

  /** lsum's sequence leaves the full sum, carry included. */
  lemma LongSumCorrect(lab: nat, m: Machine)
    requires !m.fault
    ensures var end := Run(Emit(LSum, lab), m);
            Double(ResultB(LSum, end), ResultA(LSum, end)) == m.b + m.a + m.c % 2
  {
    var m1 := RunRotate(Then(Adc(RA, RB), CarryToT()), m);
    var m2 := RunAdc(m1);
    RunCarryToT(m2);
  }

  /** ldiff's sequence leaves the difference and the borrow. */
  lemma LongDiffCorrect(lab: nat, m: Machine)
    requires !m.fault
    ensures var end := Run(Emit(LDiff, lab), m);
            ResultA(LDiff, end) - ResultB(LDiff, end) * WORD_MOD == m.b - m.a - m.c % 2
            && 0 <= ResultB(LDiff, end) <= 1
  {
    var m1 := RunRotate(Then(Sbb(RA, RB), CarryToT()), m);
    var m2 := RunSbb(m1);
    RunCarryToT(m2);
  }

  /** lmul's sequence leaves A * B + C (Mul is the product, by MulIsProduct). */
  lemma LongMulCorrect(lab: nat, m: Machine)
    requires !m.fault
    ensures var end := Run(Emit(LMul, lab), m);
            Double(ResultB(LMul, end), ResultA(LMul, end)) == Mul(m.a, m.b) + m.c
  {
    var m1 := RunUmul(m);
    var m2 := RunAdd(m1);
    var _ := RunAdcConst(m2);
  }

  lemma RunUmul(m: Machine) returns (m': Machine)
    requires !m.fault
    ensures Run(Emit(LMul, 0), m) == Run(Then(Add(RC, RA), Then(AdcConst(0, RT), End)), m') && !m'.fault
    ensures Double(m'.t, m'.a) == Mul(m.a, m.b) && m'.c == m.c && m'.t < WORD_MOD - 1
  {
    var q := Mul(m.a, m.b);
    HighWordFits(m.a, m.b, q / WORD_MOD, q % WORD_MOD);
    WrapWitness(q / WORD_MOD, 0, q / WORD_MOD);
    m' := SetProduct(m, RA, RT, q);
    RunOne(Umul(RA, RB, RT), Then(Add(RC, RA), Then(AdcConst(0, RT), End)), m, m');
  }

  lemma RunAdd(m: Machine) returns (m': Machine)
    requires !m.fault
    ensures Run(Then(Add(RC, RA), Then(AdcConst(0, RT), End)), m) == Run(Then(AdcConst(0, RT), End), m') && !m'.fault
    ensures Double(m'.CarryIn(), m'.a) == m.a + m.c && m'.t == m.t
  {
    var sum := m.a + m.c;
    m' := SetSum(m, RA, sum);
    RunOne(Add(RC, RA), Then(AdcConst(0, RT), End), m, m');
    var k := if sum >= WORD_MOD then 1 else 0;
    WrapWitness(sum, k, sum - k * WORD_MOD);
  }

  lemma RunAdcConst(m: Machine) returns (m': Machine)
    requires !m.fault && m.t < WORD_MOD - 1
    ensures Run(Then(AdcConst(0, RT), End), m) == m' && m'.t == m.t + m.CarryIn() && m'.a == m.a
  {
    var sum := m.t + 0 + m.CarryIn();
    WrapWitness(sum, 0, sum);
    m' := SetSum(m, RT, sum);
    RunOne(AdcConst(0, RT), End, m, m');
  }

  /** ldiv's single instruction faults exactly where the interpreter flags overflow, and else divides. */
  lemma LongDivCorrect(lab: nat, m: Machine)
    requires !m.fault
    ensures var end := Run(Emit(LDiv, lab), m);
            (end.fault <==> m.c >= m.a) &&
            (m.c < m.a ==> ResultA(LDiv, end) == Double(m.c, m.b) / m.a && ResultB(LDiv, end) == Double(m.c, m.b) % m.a)
  {
    RunOne(Udiv(RC, RB, RA), End, m, Divide(m, RC, RB, m.a));
  }

  // ----- the emitted code against the interpreter

  /**
   The translated code and the interpreter leave the same results for every
   operation, on every state, except lsum: the interpreter's carry ignores the
   carry coming in, which shows exactly when B + A is 2^32 - 1 and C is odd.
   */
  method CompareSum(a: Word, b: Word, c: Word, t: Word, lab: nat) returns (same: bool)
    ensures same <==> !(b + a == WORD_MOD - 1 && c % 2 == 1)
  {
    var s := new EvalStack(a, b, c);
    var _ := s.Lsum();
    var end := Run(Emit(LSum, lab), Machine(a, b, c, t, false, false));
    LongSumCorrect(lab, Machine(a, b, c, t, false, false));
    WrapWitness(a + b + c % 2, ResultB(LSum, end), ResultA(LSum, end));
    same := s.areg == ResultA(LSum, end) && s.breg == ResultB(LSum, end);
  }

  method CompareArithmetic(op: LongOp, a: Word, b: Word, c: Word, t: Word, lab: nat, undefinedShift: Word)
    returns (same: bool)
    requires op == LDiff || op == LMul || op == LDiv
    ensures same
  {
    var s := new EvalStack(a, b, c);
    var m := Machine(a, b, c, t, false, false);
    var end := Run(Emit(op, lab), m);
    match op {
      case LDiff =>
        LongDiffCorrect(lab, m);
        var _ := s.Ldiff();
      case LMul =>
        LongMulCorrect(lab, m);
        MulIsProduct(a, b);
        var _ := s.Lmul();
      case LDiv =>
        LongDivCorrect(lab, m);
        var ret := s.Ldiv(undefinedShift);
        if end.fault || ret == Error {
          return end.fault && ret == Error;
        }
    }
    DoubleInjective(s.breg, s.areg, ResultB(op, end), ResultA(op, end));
    same := s.areg == ResultA(op, end) && s.breg == ResultB(op, end);
  }

  method CompareShifts(left: bool, a: Word, b: Word, c: Word, t: Word, lab: nat) returns (same: bool)
    ensures same <==> a < MIN_INT || (b == 0 && c == 0)
  {
    var s := new EvalStack(a, b, c);
    var m := Machine(a, b, c, t, false, false);
    var op := if left then LShl else LShr;
    var end := Run(Emit(op, lab), m);
    if left {
      LongShlCorrect(lab, m);
      var _ := s.Lshl();
    } else {
      LongShrCorrect(lab, m);
      var _ := s.Lshr();
    }
    DoubleInjective(s.breg, s.areg, ResultB(op, end), ResultA(op, end));
    same := s.areg == ResultA(op, end) && s.breg == ResultB(op, end);
  }

  /** The case that shows the lost carry: 2^32 - 1 plus 0 with a carry in makes a carry that the interpreter does not
   report. */
  lemma SumCarryLost(lab: nat)
    ensures var m := Machine(0, WORD_MOD - 1, 1, 0, false, false);
            ResultB(LSum, Run(Emit(LSum, lab), m)) == 1 && (m.b + m.a) / WORD_MOD == 0
  {
    var m := Machine(0, WORD_MOD - 1, 1, 0, false, false);
    LongSumCorrect(lab, m);
    DoubleInjective(ResultB(LSum, Run(Emit(LSum, lab), m)), ResultA(LSum, Run(Emit(LSum, lab), m)), 1, 0);
  }

  /** The case that shows the shift loops stopping at once: 1 shifted by 2^31 places is 0 in the emitted code and
   stays 1 in the loop. */
  lemma ShiftLoopStops(lab: nat)
    ensures var m := Machine(MIN_INT, 1, 0, 0, false, false); var end := Run(Emit(LShl, lab), m);
            Double(ResultB(LShl, end), ResultA(LShl, end)) == 0 != Double(m.c, m.b)
  {
    LongShlCorrect(lab, Machine(MIN_INT, 1, 0, 0, false, false));
  }
}
