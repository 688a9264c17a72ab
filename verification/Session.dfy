/** The codec half of a session: encoding numbers each envelope, seals it and frames it;
    receiving deframes chunks into a queue of frames and opens them one at a time. */
module Session {
  import opened Checksum
  import opened Prelude
  import opened Framing
  import opened FramingTheorems
  import opened Envelope

  function WrapSeq(value: int, wrapTo: int): int {
    if value > MAX_SEQ then wrapTo else if value <= 0 then wrapTo else value
  }

  function NextEnvelopeSeq(current: int): int { WrapSeq(current + 1, 1) }

  predicate SeqOk(n: int) { 1 <= n <= MAX_SEQ }

  function FieldsOf(envelopeSeq: int, payload: seq<byte>): Fields { Fields(envelopeSeq, 1, 0, 0, payload) }

  /** The bytes on the socket for one message. */
  function MessageWire(c: Cipher, key: seq<byte>, envelopeSeq: int, payload: seq<byte>): seq<byte>
    requires SeqOk(envelopeSeq) && |key| == 16
  {
    var e := SealedEnvelope(c, key, FieldsOf(envelopeSeq, payload));
    Wire(e.protocol, e.ciphertext)
  }

  function GoodFrames(results: seq<DeframeResult>): seq<seq<byte>> {
    if results == [] then []
    else (if results[0].Good? then [results[0].frame] else []) + GoodFrames(results[1..])
  }

  /** Protocol byte, two length bytes, ciphertext. */
  function OpenFrame(c: Cipher, key: seq<byte>, frame: seq<byte>): Decrypted {
    if |frame| < 3 then DecryptFailed(TooShort) else DecryptSchema0(c, key, frame[0], frame[3..])
  }

  class Session {
    const cipher: Cipher
    const key: seq<byte>
    const deframe: DeframeState
    var txEnvelopeSeq: int
    var pendingFrames: seq<seq<byte>>

    ghost predicate Valid()
      reads this, deframe
    {
      Lawful(cipher) && SeqOk(txEnvelopeSeq) && deframe.Valid()
    }

    constructor (cipher: Cipher, key: seq<byte>)
      requires Lawful(cipher)
      ensures Valid() && fresh(deframe) && deframe.Abs() == IDLE
      ensures this.cipher == cipher && this.key == key && txEnvelopeSeq == 1 && pendingFrames == []
    {
      this.cipher, this.key := cipher, key;
      deframe := new DeframeState();
      txEnvelopeSeq, pendingFrames := 1, [];
    }

    /** `None` stands for the exception of a key that is not sixteen bytes; the number is used up. */
    method EncodeJson(payload: seq<byte>) returns (framed: Option<seq<byte>>)
      requires Valid()
      modifies this`txEnvelopeSeq
      ensures Valid()
      ensures txEnvelopeSeq == if old(txEnvelopeSeq) == MAX_SEQ then 1 else old(txEnvelopeSeq) + 1
      ensures framed.Some? <==> |key| == 16
      ensures framed.Some? ==> framed.value == MessageWire(cipher, key, old(txEnvelopeSeq), payload)
    {
      var envelopeSeq := txEnvelopeSeq;
      txEnvelopeSeq := NextEnvelopeSeq(envelopeSeq);
      var e := EncryptSchema0(cipher, key, FieldsOf(envelopeSeq, payload));
      if e.EncryptFailed? {
        return None;
      }
      framed := FrameBuild(e.protocol, e.ciphertext);
    }

    /** Good frames join the queue in order; everything else is dropped. */
    method QueueGood(results: seq<DeframeResult>)
      modifies this`pendingFrames
      ensures pendingFrames == old(pendingFrames) + GoodFrames(results)
    {
      for i := 0 to |results|
        invariant pendingFrames == old(pendingFrames) + GoodFrames(results[..i])
      {
        GoodConcat(results[..i], [results[i]]);
        assert results[..i + 1] == results[..i] + [results[i]] && [results[i]][1..] == [];
        if results[i].Good? {
          pendingFrames := pendingFrames + [results[i].frame];
        }
      }
      assert results[..|results|] == results;
    }

    /** `arriving` are the chunks the socket yields before the deadline; `used` of them are read. */
    method RecvOneFrame(arriving: seq<seq<byte>>) returns (frame: Option<seq<byte>>, used: nat)
      requires Valid()
      modifies this`pendingFrames, deframe
      ensures Valid() && used <= |arriving|
      ensures deframe.Abs() == FeedAll(old(deframe.Abs()), arriving[..used]).link
      ensures (if frame.Some? then [frame.value] else []) + pendingFrames
           == old(pendingFrames) + GoodFrames(FeedAll(old(deframe.Abs()), arriving[..used]).results)
      ensures frame == None ==> used == |arriving| && pendingFrames == []
      ensures old(pendingFrames) != [] ==> used == 0
    {
      used := 0;
      ghost var s := deframe.Abs();
      assert FeedAll(s, arriving[..0]) == Out(s, []);
      if pendingFrames != [] {
        frame := Some(pendingFrames[0]);
        pendingFrames := pendingFrames[1..];
        return;
      }
      while used < |arriving|
        invariant Valid() && used <= |arriving| && pendingFrames == []
        invariant deframe.Abs() == FeedAll(s, arriving[..used]).link
        invariant GoodFrames(FeedAll(s, arriving[..used]).results) == []
      {
        ghost var before := FeedAll(s, arriving[..used]);
        var results := deframe.Receive(arriving[used]);
        FeedAllOne(s, arriving[..used], arriving[used]);
        assert arriving[..used + 1] == arriving[..used] + [arriving[used]];
        GoodConcat(before.results, results);
        used := used + 1;
        QueueGood(results);
        if pendingFrames != [] {
          frame := Some(pendingFrames[0]);
          pendingFrames := pendingFrames[1..];
          return;
        }
      }
      frame := None;
    }

    /** The decode half of the receive path, up to the JSON text. */
    method RecvEnvelope(arriving: seq<seq<byte>>) returns (r: Option<Decrypted>, used: nat)
      requires Valid()
      modifies this`pendingFrames, deframe
      ensures Valid() && used <= |arriving|
      ensures deframe.Abs() == FeedAll(old(deframe.Abs()), arriving[..used]).link
      ensures r == None ==>
        && used == |arriving| && old(pendingFrames) == pendingFrames == []
        && GoodFrames(FeedAll(old(deframe.Abs()), arriving).results) == []
      ensures r.Some? ==> exists frame ::
        && r.value == OpenFrame(cipher, key, frame)
        && [frame] + pendingFrames
           == old(pendingFrames) + GoodFrames(FeedAll(old(deframe.Abs()), arriving[..used]).results)
    {
      var frame;
      frame, used := RecvOneFrame(arriving);
      if frame == None {
        assert arriving[..used] == arriving;
        return None, used;
      }
      r := Some(OpenFrame(cipher, key, frame.value));
    }
  }

  lemma {:induction false} GoodConcat(a: seq<DeframeResult>, b: seq<DeframeResult>)
    ensures GoodFrames(a + b) == GoodFrames(a) + GoodFrames(b)
  {
    if a == [] {
      assert a + b == b;
    } else {
      assert (a + b)[0] == a[0] && (a + b)[1..] == a[1..] + b;
      GoodConcat(a[1..], b);
    }
  }

  lemma {:induction false} FeedAllOne(s: Link, chunks: seq<seq<byte>>, chunk: seq<byte>)
    ensures FeedAll(s, chunks + [chunk]).link == Feed(FeedAll(s, chunks).link, chunk).link
    ensures FeedAll(s, chunks + [chunk]).results
         == FeedAll(s, chunks).results + Feed(FeedAll(s, chunks).link, chunk).results
    decreases |chunks|
  {
    hide Feed;
    if chunks == [] {
      assert chunks + [chunk] == [chunk] && [chunk][1..] == [];
    } else {
      assert (chunks + [chunk])[0] == chunks[0] && (chunks + [chunk])[1..] == chunks[1..] + [chunk];
      FeedAllOne(Feed(s, chunks[0]).link, chunks[1..], chunk);
    }
  }

  // ---------------------------------------------------------------- end to end

  /** The payloads that survive the trip. 4071 is what fits a 4096-byte message; a length of
      114 modulo 256 makes the low length byte 0x85 under protocol byte 0x85. */
  predicate Transmissible(payload: seq<byte>) {
    |payload| <= 4071 && |payload| % 256 != 114
  }

  lemma TransmissibleIffDeliverable(c: Cipher, key: seq<byte>, envelopeSeq: int, payload: seq<byte>)
    requires Lawful(c) && |key| == 16 && SeqOk(envelopeSeq)
    ensures var e := SealedEnvelope(c, key, FieldsOf(envelopeSeq, payload));
      Deliverable(e.protocol, e.ciphertext) <==> Transmissible(payload)
  {
    EnvelopeRoundTrip(c, key, FieldsOf(envelopeSeq, payload));
    LengthsMatch(|payload|);
  }

  lemma LengthsMatch(n: nat)
    ensures var pad := Padding(9 + n);
      (0x80 + pad != LengthLow(5 + 9 + n + pad) && 5 + 9 + n + pad <= 4096)
        <==> (n <= 4071 && n % 256 != 114)
  {
    var pad := Padding(9 + n);
    var k := (9 + n + pad) / 16;
    var j := k % 16;
    assert 9 + n + pad == 16 * k && 16 * k == 256 * (k / 16) + 16 * j;
    LowPart(k / 16, 5 + 16 * j);
    assert LengthLow(5 + 16 * k) == 5 + 16 * j;
    var low := 16 * j - 9 - pad;
    if low >= 0 { LowPart(k / 16, low); } else { LowPart(k / 16 - 1, low + 256); }
    assert n % 256 == if low >= 0 then low else low + 256;
  }

  lemma LowPart(q: int, r: nat)
    requires r < 256
    ensures (256 * q + r) % 256 == r
  {}

  function SendAll(c: Cipher, key: seq<byte>, envelopeSeq: int, payloads: seq<seq<byte>>): seq<byte>
    requires SeqOk(envelopeSeq) && |key| == 16
    decreases |payloads|
  {
    if payloads == [] then []
    else
      MessageWire(c, key, envelopeSeq, payloads[0])
      + SendAll(c, key, NextEnvelopeSeq(envelopeSeq), payloads[1..])
  }

  /** The envelopes a peer should see: consecutive numbers, each payload once, in order. */
  function Expected(envelopeSeq: int, payloads: seq<seq<byte>>): seq<Decrypted>
    decreases |payloads|
  {
    if payloads == [] then []
    else
      [Decrypted(FieldsOf(envelopeSeq, payloads[0]), PaddingOf(payloads[0]))]
      + Expected(NextEnvelopeSeq(envelopeSeq), payloads[1..])
  }

  function Opened(c: Cipher, key: seq<byte>, frames: seq<seq<byte>>): seq<Decrypted> {
    if frames == [] then [] else [OpenFrame(c, key, frames[0])] + Opened(c, key, frames[1..])
  }

  /** One message from any receiver state: one good frame, and it opens to what was sent. */
  lemma OneMessage(c: Cipher, key: seq<byte>, s: Link, envelopeSeq: int, payload: seq<byte>)
    requires Lawful(c) && |key| == 16 && SeqOk(envelopeSeq) && Transmissible(payload)
    ensures var o := Feed(s, MessageWire(c, key, envelopeSeq, payload));
      o.link == IDLE && |o.results| == 1 && o.results[0].Good?
      && OpenFrame(c, key, o.results[0].frame)
         == Decrypted(FieldsOf(envelopeSeq, payload), PaddingOf(payload))
  {
    var e := SealedEnvelope(c, key, FieldsOf(envelopeSeq, payload));
    TransmissibleIffDeliverable(c, key, envelopeSeq, payload);
    SelfSynchronising(s, e.protocol, e.ciphertext);
    EnvelopeRoundTrip(c, key, FieldsOf(envelopeSeq, payload));
    var frame := Body(e.protocol, e.ciphertext);
    assert frame[3..] == e.ciphertext;
  }

  /** A good frame in front of other results is opened first. */
  lemma OpenedFirst(c: Cipher, key: seq<byte>, first: seq<DeframeResult>, more: seq<DeframeResult>)
    requires |first| == 1 && first[0].Good?
    ensures Opened(c, key, GoodFrames(first + more))
         == [OpenFrame(c, key, first[0].frame)] + Opened(c, key, GoodFrames(more))
  {}

  lemma {:induction false} StreamEndToEnd(c: Cipher, key: seq<byte>, s: Link, envelopeSeq: int,
                                          payloads: seq<seq<byte>>)
    requires Lawful(c) && |key| == 16 && SeqOk(envelopeSeq)
    requires forall i :: 0 <= i < |payloads| ==> Transmissible(payloads[i])
    ensures var o := Feed(s, SendAll(c, key, envelopeSeq, payloads));
      Opened(c, key, GoodFrames(o.results)) == Expected(envelopeSeq, payloads) && |o.results| == |payloads|
    decreases |payloads|
  {
    hide MessageWire, OpenFrame, Transmissible, Lawful;
    if payloads != [] {
      var next := NextEnvelopeSeq(envelopeSeq);
      var wire := MessageWire(c, key, envelopeSeq, payloads[0]);
      var rest := SendAll(c, key, next, payloads[1..]);
      FeedConcat(s, wire, rest);
      OneMessage(c, key, s, envelopeSeq, payloads[0]);
      StreamEndToEnd(c, key, IDLE, next, payloads[1..]);
      OpenedFirst(c, key, Feed(s, wire).results, Feed(IDLE, rest).results);
    }
  }

  /** Every message, in order, with its number, whatever state the receiver starts in and
      however the bytes are cut into chunks. */
  lemma EndToEnd(c: Cipher, key: seq<byte>, s: Link, envelopeSeq: int,
                 payloads: seq<seq<byte>>, chunks: seq<seq<byte>>)
    requires Lawful(c) && |key| == 16 && SeqOk(envelopeSeq)
    requires forall i :: 0 <= i < |payloads| ==> Transmissible(payloads[i])
    requires Flatten(chunks) == SendAll(c, key, envelopeSeq, payloads)
    ensures Opened(c, key, GoodFrames(FeedAll(s, chunks).results)) == Expected(envelopeSeq, payloads)
    ensures |FeedAll(s, chunks).results| == |payloads|
  {
    ChunkIndependence(s, chunks);
    StreamEndToEnd(c, key, s, envelopeSeq, payloads);
  }

  /** And no others: a message outside `Transmissible` does not reach an idle receiver as sent. */
  lemma OnlyTransmissible(c: Cipher, key: seq<byte>, envelopeSeq: int, payload: seq<byte>)
    requires Lawful(c) && |key| == 16 && SeqOk(envelopeSeq)
    ensures var e := SealedEnvelope(c, key, FieldsOf(envelopeSeq, payload));
      (Feed(IDLE, MessageWire(c, key, envelopeSeq, payload)).results == [Good(Body(e.protocol, e.ciphertext))])
        <==> Transmissible(payload)
  {
    var e := SealedEnvelope(c, key, FieldsOf(envelopeSeq, payload));
    TransmissibleIffDeliverable(c, key, envelopeSeq, payload);
    DeliveredIffDeliverable(e.protocol, e.ciphertext);
  }

  /** A 114-byte message is delivered from no state at all. */
  lemma Swallowed114(c: Cipher, key: seq<byte>, s: Link, envelopeSeq: int, payload: seq<byte>)
    requires Lawful(c) && |key| == 16 && SeqOk(envelopeSeq) && |payload| % 256 == 114
    ensures var e := SealedEnvelope(c, key, FieldsOf(envelopeSeq, payload));
      Good(Body(e.protocol, e.ciphertext)) !in Feed(s, MessageWire(c, key, envelopeSeq, payload)).results
  {
    hide Feed, Wire, DecryptSchema0, Seal, Plaintext;
    var e := SealedEnvelope(c, key, FieldsOf(envelopeSeq, payload));
    EnvelopeRoundTrip(c, key, FieldsOf(envelopeSeq, payload));
    Collides(|payload|);
    SwallowedFrame(s, e.protocol, e.ciphertext);
  }

  lemma SwallowedFrame(s: Link, protocol: byte, data: seq<byte>)
    requires protocol == LengthLow(5 + |data|) && protocol != 0 && protocol != STARTCHAR
    ensures Good(Body(protocol, data)) !in Feed(s, Wire(protocol, data)).results
  {
    hide Feed, Crc, Escape;
    var u := WithCrc(Body(protocol, data));
    assert u[..|u| - 2] == Body(protocol, data);
    LowLengthDropped(s, u);
  }

  lemma Collides(n: nat)
    requires n % 256 == 114
    ensures 0x80 + Padding(9 + n) == LengthLow(5 + 9 + n + Padding(9 + n)) == 0x85
  {
    assert Padding(9 + n) == 5;
  }
}
