/** Link-layer framing: `0x7E`, then the escaped bytes of
    protocol, length (2, little-endian), data, CRC (2, little-endian).

    `DeframeState` is the program's receiver. `Feed` gives its meaning on values. */
module Framing {
  import opened Checksum
  import opened Prelude

  const STARTCHAR: byte := 0x7E
  const MAX_MESSAGE := 4096
  const MIN_MESSAGE := 5

  // ---------------------------------------------------------------- building a frame

  function LengthLow(n: nat): byte { n % 256 }

  function LengthHigh(n: nat): byte { n / 256 % 256 }

  /** `lo | (hi << 8)`: the two bytes do not overlap, so the union is a sum. */
  function MessageLength(lo: byte, hi: byte): nat { lo + 256 * hi }

  lemma LengthRoundTrip(n: nat)
    ensures MessageLength(LengthLow(n), LengthHigh(n)) == n % 65536
  {
    TwoBytes(n, n / 256, n % 256, n / 256 / 256, n / 256 % 256);
  }

  lemma TwoBytes(n: nat, a: nat, low: nat, b: nat, high: nat)
    requires n == 256 * a + low && a == 256 * b + high && low < 256 && high < 256
    ensures n % 65536 == low + 256 * high
  {
    assert n == 65536 * b + (256 * high + low);
  }

  function Body(protocol: byte, data: seq<byte>): (r: seq<byte>)
    ensures |r| == 3 + |data|
  {
    [protocol, LengthLow(5 + |data|), LengthHigh(5 + |data|)] + data
  }

  function WithCrc(body: seq<byte>): seq<byte> {
    body + [LowByte(Crc(0, body)), HighByte(Crc(0, body))]
  }

  function Escape(s: seq<byte>): seq<byte> {
    if s == [] then []
    else (if s[0] == STARTCHAR then [STARTCHAR, 0] else [s[0]]) + Escape(s[1..])
  }

  /** What goes on the wire for a buffer of unescaped bytes. */
  function WireOf(unescaped: seq<byte>): seq<byte> { [STARTCHAR] + Escape(unescaped) }

  function Wire(protocol: byte, data: seq<byte>): seq<byte> {
    WireOf(WithCrc(Body(protocol, data)))
  }

  /** `None` stands for the ValueError of a protocol byte outside 0..255. */
  method FrameBuild(protocol: int, data: seq<byte>) returns (r: Option<seq<byte>>)
    ensures r.Some? <==> 0 <= protocol <= 255
    ensures r.Some? ==> r.value == Wire(protocol as byte, data)
  {
    hide Crc, LengthLow, LengthHigh, Escape;
    if !(0 <= protocol <= 255) {
      return None;
    }
    var messageLength := 1 + 2 + |data| + 2;
    var unescaped: seq<byte> := [protocol as byte];
    unescaped := unescaped + [LengthLow(messageLength)];
    unescaped := unescaped + [LengthHigh(messageLength)];
    unescaped := unescaped + data;
    assert unescaped == Body(protocol as byte, data);
    var crc := CalculateCrc16(0, unescaped, 0, |unescaped|);
    assert unescaped[0..0 + |unescaped|] == unescaped;
    ghost var body := unescaped;
    unescaped := unescaped + [LowByte(crc)];
    unescaped := unescaped + [HighByte(crc)];
    assert unescaped == WithCrc(body);
    var escaped := EscapeAll(unescaped);
    r := Some(escaped);
  }

  /** The last loop of the builder: the start character is doubled up with a zero. */
  method EscapeAll(unescaped: seq<byte>) returns (escaped: seq<byte>)
    ensures escaped == WireOf(unescaped)
  {
    escaped := [STARTCHAR];
    for i := 0 to |unescaped|
      invariant escaped == [STARTCHAR] + Escape(unescaped[..i])
    {
      EscapeConcat(unescaped[..i], [unescaped[i]]);
      EscapeOne(unescaped[i]);
      assert unescaped[..i + 1] == unescaped[..i] + [unescaped[i]];
      if unescaped[i] == STARTCHAR {
        escaped := escaped + [STARTCHAR];
        escaped := escaped + [0];
      } else {
        escaped := escaped + [unescaped[i]];
      }
    }
    assert unescaped[..|unescaped|] == unescaped;
  }

  lemma EscapeOne(b: byte)
    ensures Escape([b]) == if b == STARTCHAR then [STARTCHAR, 0] else [b]
  {}

  lemma {:induction false} EscapeConcat(a: seq<byte>, b: seq<byte>)
    ensures Escape(a + b) == Escape(a) + Escape(b)
    decreases |a|
  {
    if a == [] {
      assert a + b == b;
    } else {
      assert (a + b)[0] == a[0] && (a + b)[1..] == a[1..] + b;
      EscapeConcat(a[1..], b);
    }
  }

  // ---------------------------------------------------------------- the receiver, on values

  datatype RcvState = WaitStart | WaitLength | WaitData

  datatype RxError = BadCrc | FramingError | Overflow

  datatype DeframeResult = Good(frame: seq<byte>) | Bad(error: RxError)

  datatype Link = Link(escaping: bool, justResynced: bool, rcv: RcvState,
                       msgLength: nat, buffer: seq<byte>)

  datatype Out = Out(link: Link, results: seq<DeframeResult>)

  const IDLE := Link(false, false, WaitStart, 0, [])

  /** The received CRC is the last two bytes; the test runs over everything before them. */
  predicate CrcMatches(buf: seq<byte>) {
    && |buf| >= 2
    && buf[|buf| - 2] == LowByte(Crc(0, buf[..|buf| - 2]))
    && buf[|buf| - 1] == HighByte(Crc(0, buf[..|buf| - 2]))
  }

  /** One unescaped byte of the framed portion. */
  function Accept(s: Link, b: byte): Out {
    match s.rcv
    case WaitStart => Out(s, [Bad(FramingError)])
    case WaitLength =>
      if s.justResynced && |s.buffer| == 1 && b == s.buffer[0] then Out(s, [])
      else
        var buf := s.buffer + [b];
        var s1 := s.(buffer := buf, justResynced := s.justResynced && |buf| < 2);
        if |buf| != 3 then Out(s1, [])
        else
          var n := MessageLength(buf[1], buf[2]);
          if n < MIN_MESSAGE || n > MAX_MESSAGE then Out(IDLE, [Bad(Overflow)])
          else Out(s1.(msgLength := n, rcv := WaitData), [])
    case WaitData =>
      var buf := s.buffer + [b];
      if |buf| != s.msgLength then Out(s.(buffer := buf), [])
      else if CrcMatches(buf) then Out(IDLE, [Good(buf[..|buf| - 2])])
      else Out(IDLE, [Bad(BadCrc)])
  }

  /** One byte off the wire. */
  function Step(s: Link, b: byte): Out {
    if b == STARTCHAR then Out(s.(escaping := true), [])
    else if s.escaping && b != 0 then Out(Link(false, true, WaitLength, 0, [b]), [])
    else if s.escaping then Accept(s.(escaping := false), STARTCHAR)
    else Accept(s, b)
  }

  function Feed(s: Link, chunk: seq<byte>): Out
    decreases |chunk|
  {
    if chunk == [] then Out(s, [])
    else
      var o := Step(s, chunk[0]);
      var r := Feed(o.link, chunk[1..]);
      Out(r.link, o.results + r.results)
  }

  /** What holds of a receiver between bytes, whatever it has been fed. */
  predicate Reachable(s: Link) {
    match s.rcv
    case WaitStart => s.buffer == [] && s.msgLength == 0 && !s.justResynced
    case WaitLength => 1 <= |s.buffer| <= 2 && s.msgLength == 0 && (s.justResynced ==> |s.buffer| == 1)
    case WaitData =>
      && 3 <= |s.buffer| < s.msgLength <= MAX_MESSAGE && MIN_MESSAGE <= s.msgLength
      && !s.justResynced && s.msgLength == MessageLength(s.buffer[1], s.buffer[2])
  }

  // ---------------------------------------------------------------- the receiver, in place

  class DeframeState {
    var escaping: bool
    var justResynced: bool
    var rcvState: RcvState
    var msgLength: nat
    var inputBuffer: seq<byte>

    ghost function Abs(): Link
      reads this
    {
      Link(escaping, justResynced, rcvState, msgLength, inputBuffer)
    }

    ghost predicate Valid()
      reads this
    {
      Reachable(Abs())
    }

    constructor ()
      ensures Valid() && Abs() == IDLE
    {
      escaping, justResynced, rcvState, msgLength, inputBuffer := false, false, WaitStart, 0, [];
    }

    method ResetToWaitStart()
      modifies this
      ensures Abs() == IDLE
    {
      rcvState := WaitStart;
      msgLength := 0;
      inputBuffer := [];
      escaping := false;
      justResynced := false;
    }

    /** The states of the receiver, for a byte that is part of a frame. */
    method OnUnescaped(b: byte) returns (results: seq<DeframeResult>)
      requires Valid() && !escaping
      modifies this
      ensures Out(Abs(), results) == Accept(old(Abs()), b)
    {
      results := [];
      if rcvState == WaitStart {
        results := [Bad(FramingError)];
        return;
      }
      if rcvState == WaitLength {
        if justResynced && |inputBuffer| == 1 && b == inputBuffer[0] {
          return;
        }
        inputBuffer := inputBuffer + [b];
        if |inputBuffer| >= 2 {
          justResynced := false;
        }
        if |inputBuffer| == 3 {
          msgLength := MessageLength(inputBuffer[1], inputBuffer[2]);
          if msgLength < MIN_MESSAGE || msgLength > MAX_MESSAGE {
            results := [Bad(Overflow)];
            ResetToWaitStart();
          } else {
            rcvState := WaitData;
          }
        }
        return;
      }
      inputBuffer := inputBuffer + [b];
      if |inputBuffer| == msgLength {
        var buf := inputBuffer;
        var crc := CalculateCrc16(0, buf, 0, |buf| - 2);
        assert buf[0..0 + (|buf| - 2)] == buf[..|buf| - 2];
        if buf[|buf| - 2] == LowByte(crc) && buf[|buf| - 1] == HighByte(crc) {
          results := [Good(buf[..|buf| - 2])];
        } else {
          results := [Bad(BadCrc)];
        }
        ResetToWaitStart();
      }
    }

    /** The body of the program's loop over the bytes of a chunk. */
    method OnByte(raw: byte) returns (results: seq<DeframeResult>)
      requires Valid()
      modifies this
      ensures Valid()
      ensures Out(Abs(), results) == Step(old(Abs()), raw)
    {
      StepReachable(Abs(), raw);
      results := [];
      var b := raw;
      if b == STARTCHAR {
        escaping := true;
        return;
      }
      if escaping && b != 0 {
        inputBuffer := [b];
        msgLength := 0;
        rcvState := WaitLength;
        escaping := false;
        justResynced := true;
        return;
      }
      if escaping {
        b := STARTCHAR;
        escaping := false;
      }
      results := OnUnescaped(b);
    }

    method Receive(chunk: seq<byte>) returns (results: seq<DeframeResult>)
      requires Valid()
      modifies this
      ensures Valid() && |inputBuffer| <= MAX_MESSAGE
      ensures Out(Abs(), results) == Feed(old(Abs()), chunk)
    {
      results := [];
      for i := 0 to |chunk|
        invariant Valid()
        invariant Out(Abs(), results) == Feed(old(Abs()), chunk[..i])
      {
        FeedOne(old(Abs()), chunk[..i], chunk[i]);
        assert chunk[..i + 1] == chunk[..i] + [chunk[i]];
        var more := OnByte(chunk[i]);
        results := results + more;
      }
      assert chunk[..|chunk|] == chunk;
    }
  }

  lemma StepReachable(s: Link, b: byte)
    requires Reachable(s)
    ensures Reachable(Step(s, b).link)
  {}

  lemma FeedOne(s: Link, chunk: seq<byte>, b: byte)
    ensures Feed(s, chunk + [b]).link == Step(Feed(s, chunk).link, b).link
    ensures Feed(s, chunk + [b]).results == Feed(s, chunk).results + Step(Feed(s, chunk).link, b).results
  {
    FeedConcat(s, chunk, [b]);
    assert [b][1..] == [];
  }

  /** Chunk boundaries are invisible: two chunks in a row do what their concatenation does. */
  lemma {:induction false} FeedConcat(s: Link, a: seq<byte>, b: seq<byte>)
    ensures Feed(s, a + b).link == Feed(Feed(s, a).link, b).link
    ensures Feed(s, a + b).results == Feed(s, a).results + Feed(Feed(s, a).link, b).results
    decreases |a|
  {
    hide Step;
    if a == [] {
      assert a + b == b;
    } else {
      assert (a + b)[0] == a[0] && (a + b)[1..] == a[1..] + b;
      FeedConcat(Step(s, a[0]).link, a[1..], b);
    }
  }
}
