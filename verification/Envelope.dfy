/** The schema-0 envelope: header, payload, MAGIC and zero padding, encrypted between two
    32-bit word swaps. AES-128-CBC (FIPS 197; section 6.2 of NIST SP 800-38A) under the fixed
    initialisation vector is a pair of functions about which only `Lawful` is known. */
module Envelope {
  import opened Checksum
  import opened Prelude

  const MAGIC := 0x422A
  const HEADER := 7
  const ENCRYPTED_FLAG := 0x80

  datatype Cipher = Cipher(encrypt: (seq<byte>, seq<byte>) -> seq<byte>,
                           decrypt: (seq<byte>, seq<byte>) -> seq<byte>)

  /** Whole blocks in, as many blocks out, and decryption undoes encryption. */
  ghost predicate Lawful(c: Cipher) {
    && (forall key, text {:trigger c.encrypt(key, text)} :: Blocks(key, text) ==>
          |c.encrypt(key, text)| == |text| && c.decrypt(key, c.encrypt(key, text)) == text)
    && (forall key, text {:trigger c.decrypt(key, text)} :: Blocks(key, text) ==>
          |c.decrypt(key, text)| == |text|)
  }

  /** What the two AES wrappers demand before they touch the data. */
  predicate Blocks(key: seq<byte>, text: seq<byte>) {
    |key| == 16 && |text| > 0 && |text| % 16 == 0
  }

  // ---------------------------------------------------------------- word swap

  /** Each 32-bit word back to front. */
  function Swap(s: seq<byte>): (r: seq<byte>)
    ensures |r| == |s| / 4 * 4
  {
    if |s| < 4 then [] else [s[3], s[2], s[1], s[0]] + Swap(s[4..])
  }

  lemma {:induction false} SwapInvolution(s: seq<byte>)
    requires |s| % 4 == 0
    ensures Swap(Swap(s)) == s
  {
    if |s| >= 4 {
      SwapInvolution(s[4..]);
      assert Swap(s)[4..] == Swap(s[4..]);
      assert s == [s[0], s[1], s[2], s[3]] + s[4..];
    }
  }

  lemma {:induction false} SwapConcat(a: seq<byte>, b: seq<byte>)
    requires |a| % 4 == 0
    ensures Swap(a + b) == Swap(a) + Swap(b)
  {
    if |a| < 4 {
      assert a + b == b;
    } else {
      SwapConcat(a[4..], b);
      var word := [a[3], a[2], a[1], a[0]];
      assert (a + b)[4..] == a[4..] + b;
      assert Swap(a + b) == word + (Swap(a[4..]) + Swap(b)) == word + Swap(a[4..]) + Swap(b);
    }
  }

  /** `None` stands for the ValueError of an empty or ragged input. */
  method SwapEndianness(src: seq<byte>) returns (r: Option<seq<byte>>)
    ensures r.Some? <==> |src| > 0 && |src| % 4 == 0
    ensures r.Some? ==> r.value == Swap(src)
  {
    if |src| == 0 || |src| % 4 != 0 {
      return None;
    }
    var result := new byte[|src|](_ => 0);
    var index := 0;
    while index < |src|
      invariant 0 <= index <= |src| && index % 4 == 0
      invariant result[..index] == Swap(src[..index])
    {
      result[index + 0] := src[index + 3];
      result[index + 1] := src[index + 2];
      result[index + 2] := src[index + 1];
      result[index + 3] := src[index + 0];
      ghost var word := src[index..index + 4];
      assert word[4..] == [];
      SwapConcat(src[..index], word);
      assert src[..index + 4] == src[..index] + word;
      assert result[..index + 4] == result[..index] + [word[3], word[2], word[1], word[0]];
      index := index + 4;
    }
    assert src[..index] == src;
    r := Some(result[..]);
  }

  // ---------------------------------------------------------------- plaintext

  function Padding(length: nat): (p: nat)
    ensures p < 16 && (length + p) % 16 == 0
  {
    (16 - length % 16) % 16
  }

  /** `None` stands for the ValueError of a negative length or a block size that is not positive. */
  method CalculateBlockPadding(length: int, blockSize: int) returns (r: Option<nat>)
    ensures r.Some? <==> length >= 0 && blockSize > 0
    ensures r.Some? ==> r.value < blockSize && (length + r.value) % blockSize == 0
    ensures r.Some? && blockSize == 16 ==> r.value == Padding(length)
  {
    if length < 0 {
      return None;
    }
    if blockSize <= 0 {
      return None;
    }
    var rest := length % blockSize;
    var padding := (blockSize - rest) % blockSize;
    FillsBlock(length, blockSize, length / blockSize, rest);
    r := Some(padding);
  }

  lemma FillsBlock(n: nat, block: nat, q: nat, rest: nat)
    requires block > 0 && n == block * q + rest && rest < block
    ensures var p := (block - rest) % block; p < block && (n + p) % block == 0
  {
    if rest == 0 {
      RemainderIs(block, block, 1, 0);
      RemainderIs(n, block, q, 0);
    } else {
      RemainderIs(block - rest, block, 0, block - rest);
      assert block * (q + 1) == block * q + block;
      RemainderIs(n + (block - rest), block, q + 1, 0);
    }
  }

  function LittleEndian4(n: nat): (r: seq<byte>)
    requires n < 0x1_0000_0000
    ensures |r| == 4
  {
    [n % 256, n / 256 % 256, n / 65536 % 256, n / 16777216]
  }

  function FromLittleEndian(s: seq<byte>): nat {
    if s == [] then 0 else s[0] + 256 * FromLittleEndian(s[1..])
  }

  lemma LittleEndianRoundTrip(n: nat)
    requires n < 0x1_0000_0000
    ensures FromLittleEndian(LittleEndian4(n)) == n
  {
    var s := LittleEndian4(n);
    assert FromLittleEndian(s[3..]) == s[3] + 256 * FromLittleEndian(s[3..][1..]) == n / 16777216;
    assert s[2..][1..] == s[3..] && s[1..][1..] == s[2..];
    assert FromLittleEndian(s[2..]) == n / 65536;
    assert FromLittleEndian(s[1..]) == n / 256;
  }

  datatype Fields = Fields(envelopeSeq: int, src: int, dest: int, head: int, payload: seq<byte>)

  predicate InRange(f: Fields) {
    && 0 <= f.src <= 255 && 0 <= f.dest <= 255 && 0 <= f.head <= 255
    && 0 <= f.envelopeSeq <= 0xFFFF_FFFF
  }

  function Zeros(n: nat): (r: seq<byte>)
    ensures |r| == n
  {
    seq(n, _ => 0)
  }

  function PaddingOf(payload: seq<byte>): nat { Padding(HEADER + |payload| + 2) }

  function Plaintext(f: Fields): (r: seq<byte>)
    requires InRange(f)
    ensures |r| == HEADER + |f.payload| + 2 + PaddingOf(f.payload)
  {
    LittleEndian4(f.envelopeSeq) + [f.src, f.dest, f.head] + f.payload
    + [MAGIC % 256, MAGIC / 256] + Zeros(PaddingOf(f.payload))
  }

  // ---------------------------------------------------------------- encryption

  datatype EncryptError = FieldRange | SeqRange | EncryptKey

  datatype Encrypted = Encrypted(protocol: byte, ciphertext: seq<byte>) | EncryptFailed(error: EncryptError)

  /** The ciphertext on the wire for a plaintext of whole blocks. */
  function Seal(c: Cipher, key: seq<byte>, plain: seq<byte>): seq<byte>
    requires Blocks(key, plain)
  {
    var ct := c.encrypt(key, Swap(plain));
    if |ct| % 4 == 0 then Swap(ct) else ct
  }

  method EncryptSchema0(c: Cipher, key: seq<byte>, f: Fields) returns (r: Encrypted)
    requires Lawful(c)
    ensures r.Encrypted? <==> InRange(f) && |key| == 16
    ensures r.Encrypted? ==> r == SealedEnvelope(c, key, f)
    ensures r.EncryptFailed? ==>
              r.error == if !(0 <= f.src <= 255 && 0 <= f.dest <= 255 && 0 <= f.head <= 255) then FieldRange
                         else if !(0 <= f.envelopeSeq <= 0xFFFF_FFFF) then SeqRange
                         else EncryptKey
  {
    if !(0 <= f.src <= 255 && 0 <= f.dest <= 255 && 0 <= f.head <= 255) {
      return EncryptFailed(FieldRange);
    }
    if f.envelopeSeq < 0 || f.envelopeSeq > 0xFFFF_FFFF {
      return EncryptFailed(SeqRange);
    }
    var plain := FillPlaintext(f);
    var protocol := ENCRYPTED_FLAG + Padding(4 + 1 + 1 + 1 + |f.payload| + 2);
    var ciphertext := SealBuffer(c, key, plain);
    if ciphertext == None {
      return EncryptFailed(EncryptKey);
    }
    r := Encrypted(protocol, ciphertext.value);
  }

  lemma SealedSize(c: Cipher, key: seq<byte>, plain: seq<byte>)
    requires Lawful(c) && Blocks(key, plain)
    ensures Blocks(key, Swap(plain)) && |c.encrypt(key, Swap(plain))| == |plain|
  {
    hide Swap;
    assert Blocks(key, Swap(plain));
  }

  method SealBuffer(c: Cipher, key: seq<byte>, plain: seq<byte>) returns (r: Option<seq<byte>>)
    requires Lawful(c) && |plain| > 0 && |plain| % 16 == 0
    ensures r.Some? <==> |key| == 16
    ensures r.Some? ==> r.value == Seal(c, key, plain)
  {
    var swapped := SwapEndianness(plain);
    if |key| != 16 {
      return None;
    }
    SealedSize(c, key, plain);
    var ct := c.encrypt(key, swapped.value);
    r := SwapEndianness(ct);
  }

  method FillPlaintext(f: Fields) returns (r: seq<byte>)
    requires InRange(f)
    ensures r == Plaintext(f)
  {
    var padLen := Padding(4 + 1 + 1 + 1 + |f.payload| + 2);
    r := FillBuffer(LittleEndian4(f.envelopeSeq), f.src, f.dest, f.head, f.payload, padLen);
  }

  /** The buffer the program fills slice by slice; bytes it does not assign stay zero. */
  method FillBuffer(le: seq<byte>, src: byte, dest: byte, head: byte, payload: seq<byte>, padLen: nat)
    returns (r: seq<byte>)
    requires |le| == 4
    ensures r == le + [src, dest, head] + payload + [MAGIC % 256, MAGIC / 256] + Zeros(padLen)
  {
    var n := |payload|;
    var buf := new byte[4 + 1 + 1 + 1 + n + 2 + padLen](_ => 0);
    forall i | 0 <= i < 4 { buf[i] := le[i]; }
    buf[4] := src;
    buf[5] := dest;
    buf[6] := head;
    forall i | 0 <= i < n { buf[7 + i] := payload[i]; }
    buf[7 + n] := MAGIC % 256;
    buf[8 + n] := MAGIC / 256;
    r := buf[..];
    ghost var whole := le + [src, dest, head] + payload + [MAGIC % 256, MAGIC / 256] + Zeros(padLen);
    forall i | 0 <= i < |r| ensures r[i] == whole[i] {
      if 7 <= i < 7 + n { assert r[7 + (i - 7)] == payload[i - 7]; }
    }
  }

  /** The flag bit and the padding nibble do not overlap, so `0x80 | pad` is a sum. */
  function SealedEnvelope(c: Cipher, key: seq<byte>, f: Fields): Encrypted
    requires InRange(f) && |key| == 16
  {
    Encrypted(ENCRYPTED_FLAG + PaddingOf(f.payload), Seal(c, key, Plaintext(f)))
  }

  // ---------------------------------------------------------------- decryption

  datatype DecryptError = NotEncrypted | RaggedCiphertext | DecryptKey | NotWholeBlocks
                        | TooShort | MagicMismatch

  datatype Decrypted = Decrypted(fields: Fields, paddingLen: nat) | DecryptFailed(error: DecryptError)

  function DecryptSchema0(c: Cipher, key: seq<byte>, protocol: byte, ciphertext: seq<byte>): Decrypted {
    if protocol / ENCRYPTED_FLAG % 2 != 1 then DecryptFailed(NotEncrypted)
    else if |ciphertext| == 0 || |ciphertext| % 4 != 0 then DecryptFailed(RaggedCiphertext)
    else if |key| != 16 then DecryptFailed(DecryptKey)
    else if |ciphertext| % 16 != 0 then DecryptFailed(NotWholeBlocks)
    else
      var pt := c.decrypt(key, Swap(ciphertext));
      if |pt| % 4 != 0 then DecryptFailed(RaggedCiphertext)
      else Parse(Swap(pt), protocol % 16)
  }

  /** MAGIC sits just before the padding whose length the protocol byte carries. */
  function Parse(pt: seq<byte>, padLen: nat): Decrypted {
    var magicOff := |pt| - (padLen + 2);
    if |pt| < 9 || magicOff < HEADER then DecryptFailed(TooShort)
    else if FromLittleEndian(pt[magicOff..magicOff + 2]) != MAGIC then DecryptFailed(MagicMismatch)
    else Decrypted(Fields(FromLittleEndian(pt[0..4]), pt[4], pt[5], pt[6], pt[HEADER..magicOff]), padLen)
  }

  lemma ParsePlaintext(f: Fields)
    requires InRange(f)
    ensures Parse(Plaintext(f), PaddingOf(f.payload)) == Decrypted(f, PaddingOf(f.payload))
  {
    var pt := Plaintext(f);
    var n := |f.payload|;
    assert pt[0..4] == LittleEndian4(f.envelopeSeq);
    LittleEndianRoundTrip(f.envelopeSeq);
    var m := pt[7 + n..7 + n + 2];
    assert m == [MAGIC % 256, MAGIC / 256];
    assert m[1..] == [MAGIC / 256] && m[1..][1..] == [];
    assert FromLittleEndian(m[1..]) == MAGIC / 256;
    assert FromLittleEndian(m) == MAGIC % 256 + 256 * (MAGIC / 256);
    assert pt[HEADER..7 + n] == f.payload;
  }

  /** Decryption gives back every field and the payload, for every key and every field value
      that encryption accepts: the padding, MAGIC and both word swaps cancel. */
  lemma EnvelopeRoundTrip(c: Cipher, key: seq<byte>, f: Fields)
    requires Lawful(c) && |key| == 16 && InRange(f)
    ensures var e := SealedEnvelope(c, key, f);
      && |e.ciphertext| == HEADER + |f.payload| + 2 + PaddingOf(f.payload)
      && DecryptSchema0(c, key, e.protocol, e.ciphertext) == Decrypted(f, PaddingOf(f.payload))
  {
    OpenSealed(c, key, Plaintext(f), PaddingOf(f.payload));
    ParsePlaintext(f);
  }

  lemma OpenSealed(c: Cipher, key: seq<byte>, plain: seq<byte>, padLen: nat)
    requires Lawful(c) && Blocks(key, plain) && padLen < 16
    ensures |Seal(c, key, plain)| == |plain|
    ensures DecryptSchema0(c, key, ENCRYPTED_FLAG + padLen, Seal(c, key, plain)) == Parse(plain, padLen)
  {
    SealOpens(c, key, plain);
    assert (ENCRYPTED_FLAG + padLen) / ENCRYPTED_FLAG % 2 == 1;
    assert (ENCRYPTED_FLAG + padLen) % 16 == padLen;
  }

  /** The two swaps on each side of the cipher cancel. */
  lemma SealOpens(c: Cipher, key: seq<byte>, plain: seq<byte>)
    requires Lawful(c) && Blocks(key, plain)
    ensures |Seal(c, key, plain)| == |plain|
    ensures c.decrypt(key, Swap(Seal(c, key, plain))) == Swap(plain)
    ensures Swap(Swap(plain)) == plain
  {
    hide Swap;
    var text := Swap(plain);
    assert Blocks(key, text);
    SwapInvolution(c.encrypt(key, text));
    SwapInvolution(plain);
  }

  /** Whatever decrypts is laid out as an envelope: nothing else passes the MAGIC test. */
  lemma ParsedIsPlaintext(pt: seq<byte>, padLen: nat)
    requires Parse(pt, padLen).Decrypted?
    requires |pt| % 16 == 0 && padLen < 16 && pt[|pt| - padLen..] == Zeros(padLen)
    ensures var f := Parse(pt, padLen).fields;
      InRange(f) && padLen == PaddingOf(f.payload) && pt == Plaintext(f)
  {
    hide FromLittleEndian, LittleEndian4;
    var f := Parse(pt, padLen).fields;
    var m := |pt| - (padLen + 2);
    FourBytes(pt[0..4]);
    assert |f.payload| == m - HEADER;
    MagicBytes(pt[m..m + 2]);
    assert padLen == PaddingOf(f.payload) by { LeastPadding(HEADER + |f.payload| + 2, padLen); }
    assert pt[4..7] == [pt[4], pt[5], pt[6]] && pt[m..m + 2] == [MAGIC % 256, MAGIC / 256];
    Reassemble(pt, 4, 7, m, m + 2);
  }

  lemma LeastPadding(n: nat, padLen: nat)
    requires padLen < 16 && (n + padLen) % 16 == 0
    ensures padLen == Padding(n)
  {}

  lemma Reassemble(s: seq<byte>, i: nat, j: nat, k: nat, m: nat)
    requires i <= j <= k <= m <= |s|
    ensures s == s[0..i] + s[i..j] + s[j..k] + s[k..m] + s[m..]
  {}

  lemma MagicBytes(w: seq<byte>)
    requires |w| == 2 && FromLittleEndian(w) == MAGIC
    ensures w[0] == MAGIC % 256 && w[1] == MAGIC / 256
  {
    assert FromLittleEndian(w[1..]) == w[1] + 256 * FromLittleEndian(w[1..][1..]) == w[1];
    var w0: int, w1: int := w[0], w[1];
    assert w0 + 256 * w1 == MAGIC;
  }

  lemma FourBytes(s: seq<byte>)
    requires |s| == 4
    ensures FromLittleEndian(s) < 0x1_0000_0000
    ensures LittleEndian4(FromLittleEndian(s)) == s
  {
    var a := FromLittleEndian(s[3..]);
    assert a == s[3] + 256 * FromLittleEndian(s[3..][1..]) == s[3];
    assert s[2..][1..] == s[3..] && s[1..][1..] == s[2..];
    var b := s[2] + 256 * a;
    assert FromLittleEndian(s[2..]) == b;
    var c := s[1] + 256 * b;
    assert FromLittleEndian(s[1..]) == c;
    var n := s[0] + 256 * c;
    assert n / 256 == c && c / 256 == b && b / 256 == a;
    assert n / 65536 == b && n / 16777216 == a;
  }
}
