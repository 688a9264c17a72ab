/** The wire format byte by byte: what each layer puts where, said without the functions that
    put it there. */
module WireFormat {
  import opened Prelude
  import opened Checksum
  import opened Framing
  import opened FramingTheorems
  import opened Envelope
  import opened Session

  // ---------------------------------------------------------------- checksum

  /** Eight bits through the register, the one that enters first on the left. */
  function Eight(w: bv16, b0: bool, b1: bool, b2: bool, b3: bool, b4: bool, b5: bool, b6: bool, b7: bool): bv16 {
    BitStep(BitStep(BitStep(BitStep(BitStep(BitStep(BitStep(BitStep(w, b0), b1), b2), b3), b4), b5), b6), b7)
  }

  /** A byte enters the register bit by bit, the least significant first. */
  lemma ByteEnters(w: bv16, b: byte, bits: seq<bool>)
    requires bits == Bits(b, 8)
    ensures Crc(w, [b]) == Eight(w, bits[0], bits[1], bits[2], bits[3], bits[4], bits[5], bits[6], bits[7])
  {
    hide Eight, CrcBits, Bits;
    assert [b][1..] == [] && BitsOf([b]) == Bits(b, 8) + [] == Bits(b, 8);
    EightBits(w, bits);
  }

  lemma EightBits(w: bv16, s: seq<bool>)
    requires |s| == 8
    ensures CrcBits(w, s) == Eight(w, s[0], s[1], s[2], s[3], s[4], s[5], s[6], s[7])
  {
    hide BitStep;
    OneBit(w, s, 0);
    var w1 := BitStep(w, s[0]);
    OneBit(w1, s, 1);
    var w2 := BitStep(w1, s[1]);
    OneBit(w2, s, 2);
    var w3 := BitStep(w2, s[2]);
    OneBit(w3, s, 3);
    var w4 := BitStep(w3, s[3]);
    OneBit(w4, s, 4);
    var w5 := BitStep(w4, s[4]);
    OneBit(w5, s, 5);
    var w6 := BitStep(w5, s[5]);
    OneBit(w6, s, 6);
    OneBit(BitStep(w6, s[6]), s, 7);
  }

  lemma OneBit(w: bv16, s: seq<bool>, i: nat)
    requires i < |s|
    ensures CrcBits(w, s[i..]) == CrcBits(BitStep(w, s[i]), s[i + 1..])
    ensures s[0..] == s && (i + 1 == |s| ==> CrcBits(BitStep(w, s[i]), s[i + 1..]) == BitStep(w, s[i]))
  {
    assert s[i..][1..] == s[i + 1..];
  }

  lemma Digit(w: bv16, b: byte, after: bv16, rest: seq<byte>)
    requires Crc(w, [b]) == after
    ensures Crc(w, [b] + rest) == Crc(after, rest)
  {
    CrcConcat(w, [b], rest);
  }

  /** The check value of this CRC-16: over the ASCII digits 1 to 9, from register 0, it is
      0xBB3D. */
  lemma CheckValue()
    ensures Crc(0, [0x31, 0x32, 0x33, 0x34, 0x35, 0x36, 0x37, 0x38, 0x39]) == 0xBB3D
  {
    Registers();
    hide Crc;
    var s: seq<byte> := [0x31, 0x32, 0x33, 0x34, 0x35, 0x36, 0x37, 0x38, 0x39];
    Digit(0, 0x31, 0xD4C1, s[1..]);
    Digit(0xD4C1, 0x32, 0x4594, s[2..]);
    Digit(0x4594, 0x33, 0xBA04, s[3..]);
    Digit(0xBA04, 0x34, 0x14BA, s[4..]);
    Digit(0x14BA, 0x35, 0xA455, s[5..]);
    Digit(0xA455, 0x36, 0x29E4, s[6..]);
    Digit(0x29E4, 0x37, 0x9D68, s[7..]);
    Digit(0x9D68, 0x38, 0x3C9D, s[8..]);
    assert s == [0x31] + s[1..] && s[1..] == [0x32] + s[2..] && s[2..] == [0x33] + s[3..];
    assert s[3..] == [0x34] + s[4..] && s[4..] == [0x35] + s[5..] && s[5..] == [0x36] + s[6..];
    assert s[6..] == [0x37] + s[7..] && s[7..] == [0x38] + s[8..] && s[8..] == [0x39];
  }

  /** The register after each digit. */
  lemma Registers()
    ensures Crc(0, [0x31]) == 0xD4C1 && Crc(0xD4C1, [0x32]) == 0x4594 && Crc(0x4594, [0x33]) == 0xBA04
    ensures Crc(0xBA04, [0x34]) == 0x14BA && Crc(0x14BA, [0x35]) == 0xA455 && Crc(0xA455, [0x36]) == 0x29E4
    ensures Crc(0x29E4, [0x37]) == 0x9D68 && Crc(0x9D68, [0x38]) == 0x3C9D && Crc(0x3C9D, [0x39]) == 0xBB3D
  {
    hide Crc, Bits;
    DigitEnters(0, true, false, false, false);
    DigitEnters(0xD4C1, false, true, false, false);
    DigitEnters(0x4594, true, true, false, false);
    DigitEnters(0xBA04, false, false, true, false);
    DigitEnters(0x14BA, true, false, true, false);
    DigitEnters(0xA455, false, true, true, false);
    DigitEnters(0x29E4, true, true, true, false);
    DigitEnters(0x9D68, false, false, false, true);
    DigitEnters(0x3C9D, true, false, false, true);
  }

  /** The ASCII digit with the value b0 + 2 * b1 + 4 * b2 + 8 * b3. */
  function DigitOf(b0: bool, b1: bool, b2: bool, b3: bool): byte {
    0x30 + (if b0 then 1 else 0) + (if b1 then 2 else 0) + (if b2 then 4 else 0) + (if b3 then 8 else 0)
  }

  lemma DigitEnters(w: bv16, b0: bool, b1: bool, b2: bool, b3: bool)
    ensures Crc(w, [DigitOf(b0, b1, b2, b3)]) == Eight(w, b0, b1, b2, b3, true, true, false, false)
  {
    hide Crc, Bits, Value;
    var bits := [b0, b1, b2, b3, true, true, false, false];
    var s3, s4, s5 := [b3, true, true, false, false], [true, true, false, false], [true, false, false];
    var s2 := [b2] + s3;
    var s1 := [b1] + s2;
    assert bits == [b0] + s1 && s3 == [b3] + s4 && s4 == [true] + s5 && s5 == [true] + [false, false];
    assert [false, false] == [false] + [false] && [false] == [false] + [];
    ValueCons(b0, s1);
    ValueCons(b1, s2);
    ValueCons(b2, s3);
    ValueCons(b3, s4);
    ValueCons(true, s5);
    ValueCons(true, [false, false]);
    ValueCons(false, [false]);
    ValueCons(false, []);
    NoValue();
    BitsOfValue(bits);
    ByteEnters(w, DigitOf(b0, b1, b2, b3), bits);
  }

  lemma ValueCons(b: bool, rest: seq<bool>)
    ensures Value([b] + rest) == (if b then 1 else 0) + 2 * Value(rest)
  {
    assert ([b] + rest)[1..] == rest;
  }

  lemma NoValue()
    ensures Value([]) == 0
  {}

  // ---------------------------------------------------------------- envelope

  /** Byte j of word i comes from byte 3 - j of word i. */
  lemma {:induction false} SwapBytes(s: seq<byte>, i: nat, j: nat)
    requires i < |s| / 4 && j < 4
    ensures Swap(s)[4 * i + j] == s[4 * i + 3 - j]
  {
    if i > 0 {
      SwapBytes(s[4..], i - 1, j);
    }
  }

  function Two(b0: nat, b1: nat): nat { b0 + 256 * b1 }

  function Four(b0: nat, b1: nat, b2: nat, b3: nat): nat { b0 + 256 * b1 + 65536 * b2 + 16777216 * b3 }

  lemma FourBytesValue(s: seq<byte>)
    requires |s| == 4
    ensures FromLittleEndian(s) == Four(s[0], s[1], s[2], s[3])
  {
    assert s[1..][1..] == s[2..] && s[2..][1..] == s[3..] && s[3..][1..] == [];
    assert FromLittleEndian(s[3..]) == s[3];
    assert FromLittleEndian(s[2..]) == Two(s[2], s[3]);
    assert FromLittleEndian(s[1..]) == s[1] + 256 * Two(s[2], s[3]);
  }

  /** The envelope before encryption: number (4 bytes, least significant first), source,
      destination, head, payload, MAGIC 0x422A least significant first, zeros up to a multiple of
      sixteen. */
  predicate EnvelopeLayout(pt: seq<byte>, f: Fields) {
    var n := |f.payload|;
    && |pt| % 16 == 0 && 9 + n <= |pt| < 9 + n + 16
    && f.envelopeSeq == Four(pt[0], pt[1], pt[2], pt[3])
    && pt[4] == f.src && pt[5] == f.dest && pt[6] == f.head
    && (forall i :: 0 <= i < n ==> pt[7 + i] == f.payload[i])
    && pt[7 + n] == 0x2A && pt[8 + n] == 0x42
    && (forall i :: 9 + n <= i < |pt| ==> pt[i] == 0)
  }

  lemma PlaintextSize(f: Fields)
    requires InRange(f)
    ensures |Plaintext(f)| == 9 + |f.payload| + Padding(9 + |f.payload|) && |Plaintext(f)| % 16 == 0
  {}

  lemma PlaintextLayout(f: Fields)
    requires InRange(f)
    ensures EnvelopeLayout(Plaintext(f), f)
  {
    hide LittleEndian4, Padding, FromLittleEndian;
    PlaintextSize(f);
    LittleEndianRoundTrip(f.envelopeSeq);
    FourBytesValue(LittleEndian4(f.envelopeSeq));
    assert Plaintext(f)[0..4] == LittleEndian4(f.envelopeSeq);
  }

  /** What encryption returns: the flag with the padding length, and the swapped encryption of the
      swapped plaintext. */
  lemma SealedLayout(c: Cipher, key: seq<byte>, f: Fields)
    requires Lawful(c) && InRange(f) && |key| == 16
    ensures var e := SealedEnvelope(c, key, f);
      && EnvelopeLayout(Plaintext(f), f)
      && e.protocol == 0x80 + (|Plaintext(f)| - 9 - |f.payload|)
      && |e.ciphertext| == |Plaintext(f)|
      && Swap(e.ciphertext) == c.encrypt(key, Swap(Plaintext(f)))
  {
    hide Plaintext, EnvelopeLayout, Swap, Lawful, InRange, Padding;
    PlaintextLayout(f);
    PlaintextSize(f);
    EncryptKeeps(c, key, Plaintext(f));
  }

  lemma EncryptKeeps(c: Cipher, key: seq<byte>, text: seq<byte>)
    requires Lawful(c) && |key| == 16 && |text| > 0 && |text| % 16 == 0
    ensures var out := Swap(c.encrypt(key, Swap(text)));
      |out| == |text| && Swap(out) == c.encrypt(key, Swap(text))
  {
    hide Swap;
    assert Blocks(key, Swap(text));
    SwapInvolution(c.encrypt(key, Swap(text)));
  }

  /** When decryption succeeds, and with what. */
  lemma DecryptsIff(c: Cipher, key: seq<byte>, protocol: byte, ciphertext: seq<byte>)
    requires Lawful(c)
    ensures var r := DecryptSchema0(c, key, protocol, ciphertext);
      if protocol < 0x80 then r == DecryptFailed(NotEncrypted)
      else if |ciphertext| == 0 || |ciphertext| % 4 != 0 then r == DecryptFailed(RaggedCiphertext)
      else if |key| != 16 then r == DecryptFailed(DecryptKey)
      else if |ciphertext| % 16 != 0 then r == DecryptFailed(NotWholeBlocks)
      else
        var pt, pad := Swap(c.decrypt(key, Swap(ciphertext))), protocol % 16;
        var m := |pt| - pad - 2;
        && |pt| == |ciphertext|
        && (m < 7 ==> r == DecryptFailed(TooShort))
        && (m >= 7 && (pt[m] != 0x2A || pt[m + 1] != 0x42) ==> r == DecryptFailed(MagicMismatch))
        && (m >= 7 && pt[m] == 0x2A && pt[m + 1] == 0x42 ==>
              && r.Decrypted? && r.paddingLen == pad
              && r.fields.envelopeSeq == Four(pt[0], pt[1], pt[2], pt[3])
              && r.fields.src == pt[4] && r.fields.dest == pt[5] && r.fields.head == pt[6]
              && r.fields.payload == pt[7..m])
  {
    hide Swap, FromLittleEndian;
    if protocol >= 0x80 && |ciphertext| > 0 && |ciphertext| % 16 == 0 && |key| == 16 {
      assert Blocks(key, Swap(ciphertext));
      var pt := Swap(c.decrypt(key, Swap(ciphertext)));
      var m := |pt| - protocol % 16 - 2;
      FourBytesValue(pt[0..4]);
      if m >= 7 { TwoBytesValue(pt[m..m + 2]); }
    }
  }

  lemma TwoBytesValue(w: seq<byte>)
    requires |w| == 2
    ensures FromLittleEndian(w) == 0x422A <==> w[0] == 0x2A && w[1] == 0x42
  {
    assert w[1..][1..] == [];
    assert FromLittleEndian(w[1..]) == w[1];
  }

  // ---------------------------------------------------------------- frame

  /** The receiver's view of escaped bytes, as a reference: the byte after a 0x7E is dropped. */
  function Unescaped(s: seq<byte>): seq<byte> {
    if |s| < 2 then s
    else if s[0] == 0x7E then [0x7E] + Unescaped(s[2..])
    else [s[0]] + Unescaped(s[1..])
  }

  lemma {:induction false} UnescapedEscape(s: seq<byte>)
    ensures Unescaped(Escape(s)) == s
    ensures forall i :: 0 <= i < |Escape(s)| && Escape(s)[i] == 0x7E ==>
              i + 1 < |Escape(s)| && Escape(s)[i + 1] == 0
  {
    if s != [] {
      UnescapedEscape(s[1..]);
      var head: seq<byte> := if s[0] == 0x7E then [0x7E, 0] else [s[0]];
      var rest := Escape(s[1..]);
      assert Escape(s) == head + rest;
      assert (head + rest)[|head|..] == rest;
      forall i | 0 <= i < |Escape(s)| && Escape(s)[i] == 0x7E
        ensures i + 1 < |Escape(s)| && Escape(s)[i + 1] == 0
      {
        if i >= |head| { assert rest[i - |head|] == 0x7E; }
      }
      assert s == [s[0]] + s[1..];
    }
  }

  /** A frame on the wire: one 0x7E, then bytes in which every further 0x7E is followed by a 0
      that the receiver drops; what is left is protocol, length least significant first, data,
      and the CRC of everything before it least significant first. */
  lemma FrameLayout(protocol: byte, data: seq<byte>)
    requires 5 + |data| < 65536
    ensures var w := Wire(protocol, data);
      && |w| > 0 && w[0] == 0x7E
      && (forall i :: 1 <= i < |w| && w[i] == 0x7E ==> i + 1 < |w| && w[i + 1] == 0)
      && (var u := Unescaped(w[1..]);
          && |u| == 5 + |data| && u[0] == protocol && Two(u[1], u[2]) == 5 + |data|
          && u[3..3 + |data|] == data
          && Crc(0, u) == 0)
  {
    hide Escape, Crc, Unescaped, LengthLow, LengthHigh;
    var u := WithCrc(Body(protocol, data));
    UnescapedEscape(u);
    OwnCrc(Body(protocol, data));
    LengthRoundTrip(5 + |data|);
    var e := Escape(u);
    assert Wire(protocol, data) == [0x7E] + e;
    assert ([0x7E] + e)[1..] == e;
    forall i | 1 <= i < |[0x7E] + e| && ([0x7E] + e)[i] == 0x7E
      ensures i + 1 < |[0x7E] + e| && ([0x7E] + e)[i + 1] == 0
    {
      assert e[i - 1] == 0x7E;
    }
    assert u[3..3 + |data|] == data;
  }

  /** The third byte of a frame fixes its length: outside 5..4096 it is an overflow and the
      receiver is idle, inside it is the number of bytes awaited. */
  lemma LengthTaken(s: Link, b: byte)
    requires s.rcv == WaitLength && |s.buffer| == 2
    ensures var n, o := Two(s.buffer[1], b), Accept(s, b);
      if n < 5 || n > 4096 then o == Out(IDLE, [Bad(Overflow)])
      else o.results == [] && o.link.rcv == WaitData && o.link.msgLength == n && o.link.buffer == s.buffer + [b]
  {}

  /** Outside a frame every byte that starts none is a framing error and changes nothing. */
  lemma StrayByte(b: byte)
    ensures b != 0x7E ==> Step(IDLE, b) == Out(IDLE, [Bad(FramingError)])
    ensures Feed(IDLE, [0x7E, 0]) == Out(IDLE, [Bad(FramingError)])
  {
    assert [0x7E, 0 as byte][1..] == [0] && [0 as byte][1..] == [];
  }

  // ---------------------------------------------------------------- numbers

  lemma NextNumber(n: int)
    requires 1 <= n <= MAX_SEQ
    ensures NextEnvelopeSeq(n) == if n == MAX_SEQ then 1 else n + 1
  {}

  /** Message i of a stream carries the number i steps after the first, from 1 again after the
      largest, with source 1, destination 0, head 0 and its own payload. */
  lemma {:induction false} NumbersConsecutive(n: int, payloads: seq<seq<byte>>, i: nat)
    requires 1 <= n <= MAX_SEQ && i < |payloads|
    ensures |Expected(n, payloads)| == |payloads|
    ensures var d := Expected(n, payloads)[i];
      && d.Decrypted? && d.fields == Fields((n - 1 + i) % MAX_SEQ + 1, 1, 0, 0, payloads[i])
      && d.paddingLen < 16 && (9 + |payloads[i]| + d.paddingLen) % 16 == 0
    decreases |payloads|
  {
    ExpectedSize(n, payloads);
    if i > 0 {
      var next := NextEnvelopeSeq(n);
      NextNumber(n);
      NumbersConsecutive(next, payloads[1..], i - 1);
      Wraps(n, i);
    }
  }

  lemma {:induction false} ExpectedSize(n: int, payloads: seq<seq<byte>>)
    ensures |Expected(n, payloads)| == |payloads|
    decreases |payloads|
  {
    if payloads != [] { ExpectedSize(NextEnvelopeSeq(n), payloads[1..]); }
  }

  lemma Wraps(n: int, i: nat)
    requires 1 <= n <= MAX_SEQ && i > 0
    ensures var next := if n == MAX_SEQ then 1 else n + 1;
      (next - 1 + (i - 1)) % MAX_SEQ == (n - 1 + i) % MAX_SEQ
  {
    if n == MAX_SEQ {
      var q, r := (i - 1) / MAX_SEQ, (i - 1) % MAX_SEQ;
      RemainderIs(n - 1 + i, MAX_SEQ, q + 1, r);
    }
  }
}
