/** What the receiver delivers, from any state and for any stream. */
module FramingTheorems {
  import opened Checksum
  import opened Framing

  // ---------------------------------------------------------------- chunks

  function FeedAll(s: Link, chunks: seq<seq<byte>>): Out
    decreases |chunks|
  {
    if chunks == [] then Out(s, [])
    else
      var o := Feed(s, chunks[0]);
      var r := FeedAll(o.link, chunks[1..]);
      Out(r.link, o.results + r.results)
  }

  function Flatten(chunks: seq<seq<byte>>): seq<byte> {
    if chunks == [] then [] else chunks[0] + Flatten(chunks[1..])
  }

  /** Any split of a byte string gives the results and the final state of the whole. */
  lemma {:induction false} ChunkIndependence(s: Link, chunks: seq<seq<byte>>)
    ensures FeedAll(s, chunks) == Feed(s, Flatten(chunks))
    decreases |chunks|
  {
    if chunks != [] {
      ChunkIndependence(Feed(s, chunks[0]).link, chunks[1..]);
      FeedConcat(s, chunks[0], Flatten(chunks[1..]));
    }
  }

  // ---------------------------------------------------------------- escaping is undone

  function AcceptAll(s: Link, u: seq<byte>): Out
    decreases |u|
  {
    if u == [] then Out(s, [])
    else
      var o := Accept(s, u[0]);
      var r := AcceptAll(o.link, u[1..]);
      Out(r.link, o.results + r.results)
  }

  lemma {:induction false} AcceptConcat(s: Link, a: seq<byte>, b: seq<byte>)
    ensures AcceptAll(s, a + b).link == AcceptAll(AcceptAll(s, a).link, b).link
    ensures AcceptAll(s, a + b).results ==
            AcceptAll(s, a).results + AcceptAll(AcceptAll(s, a).link, b).results
    decreases |a|
  {
    if a == [] {
      assert a + b == b;
    } else {
      assert (a + b)[0] == a[0] && (a + b)[1..] == a[1..] + b;
      AcceptConcat(Accept(s, a[0]).link, a[1..], b);
    }
  }

  /** Outside an escape, feeding escaped bytes is accepting the bytes themselves. */
  lemma {:induction false} EscapeUndone(s: Link, u: seq<byte>)
    requires !s.escaping
    ensures Feed(s, Escape(u)) == AcceptAll(s, u)
    decreases |u|
  {
    if u != [] {
      var code := if u[0] == STARTCHAR then [STARTCHAR, 0] else [u[0]];
      FeedConcat(s, code, Escape(u[1..]));
      FeedCode(s, u[0]);
      EscapeUndone(Accept(s, u[0]).link, u[1..]);
    }
  }

  lemma FeedCode(s: Link, b: byte)
    requires !s.escaping
    ensures Feed(s, if b == STARTCHAR then [STARTCHAR, 0] else [b]) == Accept(s, b)
  {
    if b == STARTCHAR {
      var s1 := s.(escaping := true);
      assert Step(s, STARTCHAR) == Out(s1, []);
      assert [STARTCHAR, 0][1..] == [0] && [0 as byte][1..] == [];
      assert s1.(escaping := false) == s;
      assert Feed(s1, [0]).link == Accept(s, STARTCHAR).link;
      assert Feed(s1, [0]).results == Accept(s, STARTCHAR).results;
    } else {
      assert [b][1..] == [];
      assert Feed(s, [b]).results == Accept(s, b).results + [];
    }
  }

  // ---------------------------------------------------------------- one whole frame

  /** A buffer laid out as a frame: a protocol byte that can start one, and its own length. */
  predicate FrameShaped(u: seq<byte>) {
    && MIN_MESSAGE <= |u| <= MAX_MESSAGE
    && u[0] != 0 && u[0] != STARTCHAR && u[0] != u[1]
    && MessageLength(u[1], u[2]) == |u|
  }

  function Verdict(u: seq<byte>): DeframeResult
    requires |u| >= 2
  {
    if Crc(0, u) == 0 then Good(u[..|u| - 2]) else Bad(BadCrc)
  }

  lemma {:induction false} Collect(s: Link, u: seq<byte>)
    requires s.rcv == WaitData && |s.buffer| + |u| < s.msgLength
    ensures AcceptAll(s, u) == Out(s.(buffer := s.buffer + u), [])
    decreases |u|
  {
    if u == [] {
      assert s.buffer + u == s.buffer;
    } else {
      var s1 := s.(buffer := s.buffer + [u[0]]);
      assert Accept(s, u[0]) == Out(s1, []);
      Collect(s1, u[1..]);
      assert u == [u[0]] + u[1..];
      AcceptPush(s, u[0], u[1..]);
      assert s.buffer + [u[0]] + u[1..] == s.buffer + u;
    }
  }

  lemma CrcDecides(u: seq<byte>)
    requires |u| >= 2
    ensures CrcMatches(u) <==> Crc(0, u) == 0
  {
    var n := |u| - 2;
    Residue(u[..n], u[n], u[n + 1]);
    assert u == u[..n] + [u[n], u[n + 1]];
  }

  /** After the start character and the protocol byte of a frame-shaped buffer, the rest of
      the buffer brings the receiver to its verdict. */
  lemma AcceptFrame(u: seq<byte>)
    requires FrameShaped(u)
    ensures AcceptAll(Link(false, true, WaitLength, 0, [u[0]]), u[1..]) == Out(IDLE, [Verdict(u)])
  {
    var s0 := Link(false, true, WaitLength, 0, [u[0]]);
    var s1 := Link(false, false, WaitLength, 0, [u[0], u[1]]);
    var s2 := Link(false, false, WaitData, |u|, [u[0], u[1], u[2]]);
    assert Accept(s0, u[1]) == Out(s1, []) by { assert s0.buffer + [u[1]] == s1.buffer; }
    assert Accept(s1, u[2]) == Out(s2, []) by { assert s1.buffer + [u[2]] == s2.buffer; }
    var n := |u| - 1;
    assert u[1..] == [u[1]] + ([u[2]] + (u[3..n] + [u[n]]));
    Collect(s2, u[3..n]);
    var s3 := s2.(buffer := s2.buffer + u[3..n]);
    assert s3.buffer == u[..n] && u[..n] + [u[n]] == u;
    CrcDecides(u);
    assert Accept(s3, u[n]) == Out(IDLE, [Verdict(u)]);
    AcceptOne(s3, u[n]);
    AcceptConcat(s2, u[3..n], [u[n]]);
    AcceptPush(s1, u[2], u[3..n] + [u[n]]);
    AcceptPush(s0, u[1], [u[2]] + (u[3..n] + [u[n]]));
  }

  lemma AcceptOne(s: Link, b: byte)
    ensures AcceptAll(s, [b]) == Accept(s, b)
  {}

  lemma AcceptPush(s: Link, b: byte, u: seq<byte>)
    requires Accept(s, b).results == []
    ensures AcceptAll(s, [b] + u) == AcceptAll(Accept(s, b).link, u)
  {}

  /** From any state whatever, a start character and a plain protocol byte begin a frame. */
  lemma StartFrame(s: Link, u: seq<byte>)
    requires u != [] && u[0] != 0 && u[0] != STARTCHAR
    ensures Feed(s, WireOf(u)) == AcceptAll(Link(false, true, WaitLength, 0, [u[0]]), u[1..])
  {
    var s0 := Link(false, true, WaitLength, 0, [u[0]]);
    var w := WireOf(u);
    assert w == [STARTCHAR] + ([u[0]] + Escape(u[1..]));
    assert w[0] == STARTCHAR && w[1..] == [u[0]] + Escape(u[1..]) && w[1..][0] == u[0];
    assert w[1..][1..] == Escape(u[1..]);
    assert Step(s.(escaping := true), u[0]) == Out(s0, []);
    EscapeUndone(s0, u[1..]);
    var r := Feed(s0, Escape(u[1..]));
    assert Feed(s.(escaping := true), w[1..]) == Out(r.link, [] + r.results);
    assert [] + r.results == r.results;
  }

  /** The receiver decides every frame-shaped buffer by its CRC and nothing else, in one
      result, and is idle afterwards. */
  lemma FrameDecided(s: Link, u: seq<byte>)
    requires FrameShaped(u)
    ensures Feed(s, WireOf(u)) == Out(IDLE, [Verdict(u)])
  {
    StartFrame(s, u);
    AcceptFrame(u);
  }

  // ---------------------------------------------------------------- self-synchronisation

  predicate Deliverable(protocol: byte, data: seq<byte>) {
    && protocol != 0 && protocol != STARTCHAR
    && protocol != LengthLow(5 + |data|)
    && 5 + |data| <= MAX_MESSAGE
  }

  lemma OwnCrc(body: seq<byte>)
    ensures Crc(0, WithCrc(body)) == 0
    ensures WithCrc(body)[..|body|] == body
  {
    Residue(body, LowByte(Crc(0, body)), HighByte(Crc(0, body)));
  }

  /** One frame from any state: exactly the good frame, and the receiver idle. */
  lemma SelfSynchronising(s: Link, protocol: byte, data: seq<byte>)
    requires Deliverable(protocol, data)
    ensures Feed(s, Wire(protocol, data)) == Out(IDLE, [Good(Body(protocol, data))])
  {
    hide Feed, Crc, Escape, LengthLow, LengthHigh;
    var u := WithCrc(Body(protocol, data));
    LengthRoundTrip(5 + |data|);
    OwnCrc(Body(protocol, data));
    FrameDecided(s, u);
  }

  /** A frame needs as many bytes as it has: fewer never complete it. */
  lemma {:induction false} NoShortFrame(s: Link, u: seq<byte>)
    ensures forall f :: Good(f) in AcceptAll(s, u).results ==> |f| + 2 <= |s.buffer| + |u|
    decreases |u|
  {
    if u != [] {
      NoShortFrame(Accept(s, u[0]).link, u[1..]);
    }
  }

  /** A good frame is handed up only by the byte that completes it, and that byte together
      with the buffer is the frame followed by its own CRC. */
  lemma GoodFrameIsBuffer(s: Link, b: byte, f: seq<byte>)
    requires Reachable(s) && Good(f) in Step(s, b).results
    ensures s.rcv == WaitData && |f| + 2 == s.msgLength
    ensures |f| >= 3 && f[1] == s.buffer[1] && f[2] == s.buffer[2]
    ensures s.buffer + [if s.escaping then STARTCHAR else b] == WithCrc(f)
  {
    var raw := if s.escaping then STARTCHAR else b;
    assert Good(f) in Accept(s.(escaping := false), raw).results;
    assert s.rcv == WaitData;
    AcceptedGood(s.buffer + [raw], f);
  }

  lemma AcceptedGood(buf: seq<byte>, f: seq<byte>)
    requires CrcMatches(buf) && f == buf[..|buf| - 2]
    ensures buf == WithCrc(f)
  {}

  lemma {:induction false} GoodFramesFit(s: Link, chunk: seq<byte>)
    requires Reachable(s)
    ensures Reachable(Feed(s, chunk).link)
    ensures forall f :: Good(f) in Feed(s, chunk).results ==>
              MIN_MESSAGE <= |f| + 2 <= MAX_MESSAGE && MessageLength(f[1], f[2]) == |f| + 2
    decreases |chunk|
  {
    if chunk != [] {
      var o := Step(s, chunk[0]);
      StepReachable(s, chunk[0]);
      GoodFramesFit(o.link, chunk[1..]);
      forall f | Good(f) in o.results
        ensures MIN_MESSAGE <= |f| + 2 <= MAX_MESSAGE && MessageLength(f[1], f[2]) == |f| + 2
      {
        GoodFrameIsBuffer(s, chunk[0], f);
      }
    }
  }

  lemma FirstResult(s: Link, a: seq<byte>, b: seq<byte>)
    requires Feed(s, a).results != []
    ensures Feed(s, a + b).results != []
    ensures Feed(s, a + b).results[0] == Feed(s, a).results[0]
  {
    FeedConcat(s, a, b);
  }

  /** Exactly which frames get through: outside `Deliverable` an idle receiver loses the frame.
      The third condition is the program's own: after a resync it drops a byte that repeats
      the protocol byte, and takes a genuine low length byte for such a repeat. */
  lemma DeliveredIffDeliverable(protocol: byte, data: seq<byte>)
    ensures (forall s :: Feed(s, Wire(protocol, data)) == Out(IDLE, [Good(Body(protocol, data))]))
       <==> Deliverable(protocol, data)
    ensures Feed(IDLE, Wire(protocol, data)).results == [Good(Body(protocol, data))]
       <==> Deliverable(protocol, data)
  {
    var good := Good(Body(protocol, data));
    var u := WithCrc(Body(protocol, data));
    if Deliverable(protocol, data) {
      forall s ensures Feed(s, Wire(protocol, data)) == Out(IDLE, [good]) {
        SelfSynchronising(s, protocol, data);
      }
      SelfSynchronising(IDLE, protocol, data);
    } else {
      if protocol == 0 || protocol == STARTCHAR {
        StartLost(protocol, u[1..]);
        assert u == [protocol] + u[1..];
      } else if protocol == LengthLow(5 + |data|) {
        LowLengthDropped(IDLE, u);
      } else {
        GoodFramesFit(IDLE, Wire(protocol, data));
      }
      assert Feed(IDLE, Wire(protocol, data)).results != [good];
      assert Feed(IDLE, Wire(protocol, data)) != Out(IDLE, [good]);
    }
  }

  /** A protocol byte of 0 or 0x7E reads as an escape: the first result is a framing error. */
  lemma StartLost(protocol: byte, rest: seq<byte>)
    requires protocol == 0 || protocol == STARTCHAR
    ensures Feed(IDLE, WireOf([protocol] + rest)).results != []
    ensures Feed(IDLE, WireOf([protocol] + rest)).results[0] == Bad(FramingError)
  {
    var s1 := IDLE.(escaping := true);
    var head := if protocol == 0 then [STARTCHAR, 0] else [STARTCHAR, STARTCHAR, 0];
    EscapeConcat([protocol], rest);
    assert Escape([protocol]) == (if protocol == 0 then [0] else [STARTCHAR, 0]) + Escape([][..]);
    assert WireOf([protocol] + rest) == head + Escape(rest);
    assert head[1..] == (if protocol == 0 then [0] else [STARTCHAR, 0]);
    assert head[|head| - 1..] == [0];
    assert Step(IDLE, STARTCHAR) == Out(s1, []) && Step(s1, STARTCHAR) == Out(s1, []);
    assert Step(s1, 0) == Out(IDLE, [Bad(FramingError)]);
    assert Feed(s1, [0]).results[0] == Bad(FramingError);
    if protocol == STARTCHAR {
      assert [STARTCHAR, 0][1..] == [0];
      assert Feed(s1, [STARTCHAR, 0]).results[0] == Bad(FramingError);
    }
    assert head[0] == STARTCHAR;
    assert Feed(IDLE, head).results == [] + Feed(s1, head[1..]).results;
    assert Feed(IDLE, head).results[0] == Bad(FramingError);
    FirstResult(IDLE, head, Escape(rest));
  }

  /** With its low length byte swallowed, the frame is a byte short of ever completing. */
  lemma LowLengthDropped(s: Link, u: seq<byte>)
    requires |u| >= 3 && u[0] != 0 && u[0] != STARTCHAR && u[1] == u[0]
    ensures Good(u[..|u| - 2]) !in Feed(s, WireOf(u)).results
  {
    var s0 := Link(false, true, WaitLength, 0, [u[0]]);
    StartFrame(s, u);
    assert u[1..] == [u[1]] + u[2..];
    AcceptPush(s0, u[1], u[2..]);
    NoShortFrame(s0, u[2..]);
  }

  // ---------------------------------------------------------------- streams

  datatype Sent = Sent(noise: seq<byte>, protocol: byte, data: seq<byte>)

  function Stream(sent: seq<Sent>): seq<byte> {
    if sent == [] then []
    else sent[0].noise + Wire(sent[0].protocol, sent[0].data) + Stream(sent[1..])
  }

  /** The results of a stream of frames with noise before each of them: whatever the noise
      yields, then the frame. */
  function StreamResults(s: Link, sent: seq<Sent>): seq<DeframeResult>
    decreases |sent|
  {
    if sent == [] then []
    else
      Feed(s, sent[0].noise).results
      + [Good(Body(sent[0].protocol, sent[0].data))]
      + StreamResults(IDLE, sent[1..])
  }

  /** From any state, through any noise, in any chunks: every frame arrives, in order. */
  lemma {:induction false} StreamDelivered(s: Link, sent: seq<Sent>, chunks: seq<seq<byte>>)
    requires forall i :: 0 <= i < |sent| ==> Deliverable(sent[i].protocol, sent[i].data)
    requires Flatten(chunks) == Stream(sent)
    ensures FeedAll(s, chunks).results == StreamResults(s, sent)
    ensures sent != [] ==> FeedAll(s, chunks).link == IDLE
    decreases |sent|
  {
    ChunkIndependence(s, chunks);
    if sent != [] {
      var noise, wire := sent[0].noise, Wire(sent[0].protocol, sent[0].data);
      var rest := Stream(sent[1..]);
      FeedConcat(s, noise + wire, rest);
      FeedConcat(s, noise, wire);
      SelfSynchronising(Feed(s, noise).link, sent[0].protocol, sent[0].data);
      assert Flatten([rest]) == rest + Flatten([][..]) == rest;
      ChunkIndependence(IDLE, [rest]);
      StreamDelivered(IDLE, sent[1..], [rest]);
      if sent[1..] == [] {
        assert Feed(IDLE, rest) == Out(IDLE, []);
      }
    }
  }

  // ---------------------------------------------------------------- corruption

  /** Two buffers that differ only inside a window of at most sixteen bits. */
  predicate BurstApart(u: seq<byte>, v: seq<byte>, from: nat, width: nat) {
    && |u| == |v| && width <= 16 && from + width <= 8 * |u|
    && BitsOf(u)[..from] == BitsOf(v)[..from]
    && BitsOf(u)[from + width..] == BitsOf(v)[from + width..]
  }

  /** A corrupted frame that still has the shape of one is reported, never delivered. */
  lemma CorruptionReported(s: Link, u: seq<byte>, v: seq<byte>, from: nat, width: nat)
    requires Crc(0, u) == 0 && u != v && BurstApart(u, v, from, width)
    requires FrameShaped(v)
    ensures Feed(s, WireOf(v)) == Out(IDLE, [Bad(BadCrc)])
  {
    var a, b, n := BitsOf(u), BitsOf(v), from + width;
    assert a == a[..from] + a[from..n] + a[n..];
    assert b == b[..from] + b[from..n] + b[n..];
    BurstDetected(0, a[..from], a[from..n], b[from..n], a[n..]);
    if Crc(0, v) == 0 {
      BitsOfInjective(u, v);
    }
    FrameDecided(s, v);
  }
}
