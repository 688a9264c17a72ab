/** CRC-16 (reflected, polynomial 0xA001) as the link layer computes it.

    The loop in `CalculateCrc16` is the program's; `Crc` is its value, and the lemmas
    say what the check is good for: a residue of zero, and detection of every burst
    of at most sixteen bits. */
module Checksum {
  import opened Prelude

  type byte = x: int | 0 <= x < 256

  const POLY: bv16 := 0xA001

  /** One bit through the shift register. */
  function BitStep(w: bv16, d: bool): bv16 {
    if ((w & 1) == 1) != d then (w >> 1) ^ POLY else w >> 1
  }

  function CrcBits(w: bv16, bits: seq<bool>): bv16
    decreases |bits|
  {
    if bits == [] then w else CrcBits(BitStep(w, bits[0]), bits[1..])
  }

  /** The low `n` bits of a number, least significant first: the order in which the bits
      of a byte enter the register. */
  function Bits(b: nat, n: nat): (r: seq<bool>)
    ensures |r| == n
  {
    if n == 0 then [] else [b % 2 == 1] + Bits(b / 2, n - 1)
  }

  function Value(bits: seq<bool>): nat {
    if bits == [] then 0 else (if bits[0] then 1 else 0) + 2 * Value(bits[1..])
  }

  function BitsOf(data: seq<byte>): (r: seq<bool>)
    ensures |r| == 8 * |data|
  {
    if data == [] then [] else Bits(data[0], 8) + BitsOf(data[1..])
  }

  function Crc(w: bv16, data: seq<byte>): bv16 {
    CrcBits(w, BitsOf(data))
  }

  function RegisterBits(w: bv16, n: nat): (r: seq<bool>)
    ensures |r| == n
  {
    if n == 0 then [] else [w & 1 == 1] + RegisterBits(w >> 1, n - 1)
  }

  /** `w & 0xFF` as a number. */
  function LowByte(w: bv16): byte {
    ValueBound(RegisterBits(w, 8));
    Value(RegisterBits(w, 8))
  }

  /** `(w >> 8) & 0xFF` as a number. */
  function HighByte(w: bv16): byte { LowByte(w >> 8) }

  lemma {:induction false} ValueBound(bits: seq<bool>)
    ensures Value(bits) < Pow2(|bits|)
    ensures Pow2(8) == 256
  {
    if bits != [] {
      ValueBound(bits[1..]);
    }
  }

  lemma {:induction false} BitsOfValue(bits: seq<bool>)
    ensures Bits(Value(bits), |bits|) == bits
  {
    if bits != [] {
      BitsOfValue(bits[1..]);
      assert Value(bits) / 2 == Value(bits[1..]);
      assert bits == [bits[0]] + bits[1..];
    }
  }

  /** A number below 2^n is its n bits. */
  lemma {:induction false} ValueOfBits(b: nat, n: nat)
    requires b < Pow2(n)
    ensures Value(Bits(b, n)) == b
  {
    if n > 0 {
      ValueOfBits(b / 2, n - 1);
      assert Bits(b, n)[1..] == Bits(b / 2, n - 1);
    }
  }

  // ---------------------------------------------------------------- bits

  lemma {:induction false} CrcBitsConcat(w: bv16, a: seq<bool>, b: seq<bool>)
    ensures CrcBits(w, a + b) == CrcBits(CrcBits(w, a), b)
    decreases |a|
  {
    if a == [] {
      assert a + b == b;
    } else {
      assert (a + b)[0] == a[0] && (a + b)[1..] == a[1..] + b;
      CrcBitsConcat(BitStep(w, a[0]), a[1..], b);
    }
  }

  lemma {:induction false} BitsOfConcat(a: seq<byte>, b: seq<byte>)
    ensures BitsOf(a + b) == BitsOf(a) + BitsOf(b)
    decreases |a|
  {
    if a == [] {
      assert a + b == b;
    } else {
      assert (a + b)[0] == a[0] && (a + b)[1..] == a[1..] + b;
      BitsOfConcat(a[1..], b);
    }
  }

  lemma CrcConcat(w: bv16, a: seq<byte>, b: seq<byte>)
    ensures Crc(w, a + b) == Crc(Crc(w, a), b)
  {
    BitsOfConcat(a, b);
    CrcBitsConcat(w, BitsOf(a), BitsOf(b));
  }

  // ---------------------------------------------------------------- bursts

  /** The high `16 - n` bits of a register. */
  function HighMask(n: nat): bv16 {
    if n == 0 then 0xFFFF
    else if n == 1 then 0xFFFE
    else if n == 2 then 0xFFFC
    else if n == 3 then 0xFFF8
    else if n == 4 then 0xFFF0
    else if n == 5 then 0xFFE0
    else if n == 6 then 0xFFC0
    else if n == 7 then 0xFF80
    else if n == 8 then 0xFF00
    else if n == 9 then 0xFE00
    else if n == 10 then 0xFC00
    else if n == 11 then 0xF800
    else if n == 12 then 0xF000
    else if n == 13 then 0xE000
    else if n == 14 then 0xC000
    else if n == 15 then 0x8000
    else 0
  }

  predicate Agree(v: bv16, w: bv16, mask: bv16) { (v ^ w) & mask == 0 }

  lemma HighMaskTop(n: nat)
    requires n <= 15
    ensures HighMask(n) & 0x8000 == 0x8000
    ensures HighMask(n + 1) == HighMask(n) << 1
  {}

  /** Agreement in the top bit after a step means the same feedback decision was taken,
      so the bits above one more position agreed before the step. */
  lemma StepBack(v: bv16, w: bv16, d: bool, e: bool, m: bv16, next: bv16)
    requires m & 0x8000 == 0x8000 && next == m << 1
    requires Agree(BitStep(v, d), BitStep(w, e), m)
    ensures (((v & 1) == 1) != d) == (((w & 1) == 1) != e)
    ensures Agree(v, w, next)
    ensures v == w ==> d == e
  {}

  lemma {:induction false} BurstBack(v: bv16, w: bv16, a: seq<bool>, b: seq<bool>)
    requires |a| == |b| <= 16
    requires CrcBits(v, a) == CrcBits(w, b)
    ensures Agree(v, w, HighMask(|a|))
    decreases |a|
  {
    if a == [] {
      assert v == w;
    } else {
      hide BitStep, Agree, HighMask;
      var n := |a| - 1;
      BurstBack(BitStep(v, a[0]), BitStep(w, b[0]), a[1..], b[1..]);
      HighMaskTop(n);
      StepBack(v, w, a[0], b[0], HighMask(n), HighMask(n + 1));
    }
  }

  /** The register after at most sixteen bits tells what the first of them was. */
  lemma FirstBit(w: bv16, a: seq<bool>, b: seq<bool>)
    requires 0 < |a| == |b| <= 16 && CrcBits(w, a) == CrcBits(w, b)
    ensures a[0] == b[0]
  {
    hide BitStep, Agree, HighMask;
    var n := |a| - 1;
    BurstBack(BitStep(w, a[0]), BitStep(w, b[0]), a[1..], b[1..]);
    HighMaskTop(n);
    StepBack(w, w, a[0], b[0], HighMask(n), HighMask(n + 1));
  }

  /** From one register value, sixteen bits or fewer can be told apart by the register they lead to. */
  lemma {:induction false} BurstInjective(w: bv16, a: seq<bool>, b: seq<bool>)
    requires |a| == |b| <= 16
    requires CrcBits(w, a) == CrcBits(w, b)
    ensures a == b
    decreases |a|
  {
    hide BitStep;
    if a != [] {
      FirstBit(w, a, b);
      BurstInjective(BitStep(w, a[0]), a[1..], b[1..]);
      assert a == [a[0]] + a[1..] && b == [b[0]] + b[1..];
    }
  }

  /** The register can be run backwards: with the data fixed, different registers stay different. */
  lemma {:induction false} RegisterInjective(v: bv16, w: bv16, bits: seq<bool>)
    requires CrcBits(v, bits) == CrcBits(w, bits)
    ensures v == w
    decreases |bits|
  {
    if bits != [] {
      RegisterInjective(BitStep(v, bits[0]), BitStep(w, bits[0]), bits[1..]);
      OddAgree(v, w, bits[0]);
    }
  }

  lemma OddAgree(v: bv16, w: bv16, d: bool)
    requires BitStep(v, d) == BitStep(w, d)
    ensures v == w
  {}

  /** Burst detection: two bit strings that agree outside a window of at most sixteen bits
      have the same CRC only if they agree inside it too. */
  lemma BurstDetected(w: bv16, head: seq<bool>, a: seq<bool>, b: seq<bool>, tail: seq<bool>)
    requires |a| == |b| <= 16
    ensures CrcBits(w, head + a + tail) == CrcBits(w, head + b + tail) <==> a == b
  {
    CrcBitsConcat(w, head + a, tail);
    CrcBitsConcat(w, head + b, tail);
    CrcBitsConcat(w, head, a);
    CrcBitsConcat(w, head, b);
    if CrcBits(w, head + a + tail) == CrcBits(w, head + b + tail) {
      RegisterInjective(CrcBits(w, head + a), CrcBits(w, head + b), tail);
      BurstInjective(CrcBits(w, head), a, b);
    }
  }

  /** The same for two adjacent bytes of a message. */
  lemma ByteBurstDetected(w: bv16, head: seq<byte>, a: seq<byte>, b: seq<byte>, tail: seq<byte>)
    requires |a| == |b| <= 2
    ensures Crc(w, head + a + tail) == Crc(w, head + b + tail) <==> a == b
  {
    BitsOfConcat(head + a, tail);
    BitsOfConcat(head, a);
    BitsOfConcat(head + b, tail);
    BitsOfConcat(head, b);
    BurstDetected(w, BitsOf(head), BitsOf(a), BitsOf(b), BitsOf(tail));
    if BitsOf(a) == BitsOf(b) {
      BitsOfInjective(a, b);
    }
  }

  lemma {:induction false} BitsOfInjective(a: seq<byte>, b: seq<byte>)
    requires |a| == |b| && BitsOf(a) == BitsOf(b)
    ensures a == b
    decreases |a|
  {
    if a != [] {
      var p, q := BitsOf(a), BitsOf(b);
      assert p[..8] == Bits(a[0], 8) && q[..8] == Bits(b[0], 8);
      assert p[8..] == BitsOf(a[1..]) && q[8..] == BitsOf(b[1..]);
      assert Pow2(8) == 256;
      ValueOfBits(a[0], 8);
      ValueOfBits(b[0], 8);
      BitsOfInjective(a[1..], b[1..]);
      assert a == [a[0]] + a[1..] && b == [b[0]] + b[1..];
    }
  }

  // ---------------------------------------------------------------- residue

  function ShiftDown(w: bv16, n: nat): bv16 {
    if n == 0 then w else ShiftDown(w >> 1, n - 1)
  }

  /** A register fed its own low bits never takes the feedback branch. */
  lemma {:induction false} OwnBits(w: bv16, n: nat)
    ensures CrcBits(w, RegisterBits(w, n)) == ShiftDown(w, n)
    decreases n
  {
    if n > 0 {
      var bits := RegisterBits(w, n);
      assert bits[1..] == RegisterBits(w >> 1, n - 1);
      assert BitStep(w, bits[0]) == w >> 1;
      OwnBits(w >> 1, n - 1);
    }
  }

  lemma ShiftDown8(w: bv16)
    ensures ShiftDown(w, 8) == w >> 8
  {
    var a := (((w >> 1) >> 1) >> 1) >> 1;
    assert ShiftDown(w, 8) == ShiftDown(w >> 1, 7) == ShiftDown((w >> 1) >> 1, 6)
        == ShiftDown(((w >> 1) >> 1) >> 1, 5) == ShiftDown(a, 4);
    assert ShiftDown(a, 4) == ShiftDown(a >> 1, 3) == ShiftDown((a >> 1) >> 1, 2)
        == ShiftDown(((a >> 1) >> 1) >> 1, 1) == (((a >> 1) >> 1) >> 1) >> 1;
  }

  /** Feeding a register its own low byte moves the high byte down and nothing else. */
  lemma OwnByte(w: bv16)
    ensures Crc(w, [LowByte(w)]) == w >> 8
  {
    BitsOfValue(RegisterBits(w, 8));
    assert BitsOf([LowByte(w)]) == Bits(LowByte(w), 8) + [] == RegisterBits(w, 8);
    OwnBits(w, 8);
    ShiftDown8(w);
  }

  /** A buffer ends in its own CRC exactly when the CRC of the whole buffer is zero. */
  lemma Residue(body: seq<byte>, lo: byte, hi: byte)
    ensures (lo == LowByte(Crc(0, body)) && hi == HighByte(Crc(0, body)))
       <==> Crc(0, body + [lo, hi]) == 0
  {
    var w := Crc(0, body);
    var own := [LowByte(w), HighByte(w)];
    CrcConcat(0, body, own);
    assert own == [LowByte(w)] + [HighByte(w)];
    CrcConcat(w, [LowByte(w)], [HighByte(w)]);
    OwnByte(w);
    OwnByte(w >> 8);
    assert (w >> 8) >> 8 == 0;
    ByteBurstDetected(0, body, [lo, hi], own, []);
    assert body + [lo, hi] + [] == body + [lo, hi];
    assert body + own + [] == body + own;
    assert [lo, hi][0] == lo && [lo, hi][1] == hi;
  }

  // ---------------------------------------------------------------- the loop

  /** The source takes the register, the buffer and a range, and raises when the range leaves
      the buffer; here the caller supplies a range inside it. */
  method CalculateCrc16(wSum: bv16, data: seq<byte>, start: nat, numb: nat) returns (w: bv16)
    requires start + numb <= |data|
    ensures w == Crc(wSum, data[start..start + numb])
  {
    w := wSum;
    for i := start to start + numb
      invariant w == Crc(wSum, data[start..i])
    {
      var d: nat := data[i];
      ghost var w0 := w;
      assert BitsOf([data[i]]) == Bits(d, 8) + [] == Bits(d, 8);
      for k := 0 to 8
        invariant Crc(w0, [data[i]]) == CrcBits(w, Bits(d, 8 - k))
      {
        assert Bits(d, 8 - k)[1..] == Bits(d / 2, 7 - k);
        w := BitStep(w, d % 2 == 1);
        d := d / 2;
      }
      CrcConcat(wSum, data[start..i], [data[i]]);
      assert data[start..i + 1] == data[start..i] + [data[i]];
    }
  }
}
