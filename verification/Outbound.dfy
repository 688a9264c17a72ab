/** The outbound queue: two priorities, a token bucket, and a worker whose frames can be
    cancelled until their send begins. The worker's coroutine is cut at its awaits: each
    segment between two of them is one atomic step on the event loop. */
module Outbound {
  import opened Prelude

  // ---------------------------------------------------------------- the token bucket

  /** `interval` is the minimum interval per frame; the source clamps it to 0 and the burst to 1. */
  datatype Limits = Limits(interval: real, burst: int)

  datatype Bucket = Bucket(tokens: real, lastRefill: real)

  function Max(a: real, b: real): real { if a >= b then a else b }

  function Refilled(l: Limits, b: Bucket, now: real): Bucket
    requires l.interval > 0.0
  {
    if now - b.lastRefill > 0.0
    then Bucket(Min(l.burst as real, b.tokens + (now - b.lastRefill) / l.interval), now)
    else b
  }

  function WaitTime(l: Limits, b: Bucket): real { (1.0 - b.tokens) * l.interval }

  /** A grant asked for at `now`; `wake` is when a sleep, if one is needed, ends. */
  function Throttled(l: Limits, b: Bucket, now: real, wake: real): (Bucket, real) {
    if l.interval <= 0.0 then (b, now)
    else
      var r := Refilled(l, b, now);
      if r.tokens >= 1.0 then (r.(tokens := r.tokens - 1.0), now)
      else (Bucket(Max(0.0, r.tokens - 1.0), wake), wake)
  }

  /** Sleeps may overrun but not undershoot. */
  predicate SleepsEnough(l: Limits, b: Bucket, now: real, wake: real) {
    l.interval > 0.0 && Refilled(l, b, now).tokens < 1.0 ==>
      wake >= now + WaitTime(l, Refilled(l, b, now))
  }

  datatype Request = Request(now: real, wake: real)

  function BucketAfter(l: Limits, b: Bucket, rs: seq<Request>): Bucket {
    if rs == [] then b
    else
      var last := rs[|rs| - 1];
      Throttled(l, BucketAfter(l, b, rs[..|rs| - 1]), last.now, last.wake).0
  }

  function GrantTime(l: Limits, b: Bucket, rs: seq<Request>, i: nat): real
    requires i < |rs|
  {
    Throttled(l, BucketAfter(l, b, rs[..i]), rs[i].now, rs[i].wake).1
  }

  /** One worker asks after its previous grant, and every sleep is long enough. */
  predicate Sequential(l: Limits, b: Bucket, rs: seq<Request>) {
    forall i :: 0 <= i < |rs| ==>
      && rs[i].now >= (if i == 0 then b.lastRefill else GrantTime(l, b, rs, i - 1))
      && SleepsEnough(l, BucketAfter(l, b, rs[..i]), rs[i].now, rs[i].wake)
  }

  /** The time it takes to earn some tokens. */
  function Worth(tokens: real, interval: real): real { tokens * interval }

  lemma OverInterval(x: real, y: real)
    requires y > 0.0
    ensures x / y * y == x
  {}

  /** One grant costs a token; tokens come back no faster than one per interval. */
  lemma GrantCosts(l: Limits, b: Bucket, now: real, wake: real)
    requires l.interval > 0.0 && l.burst >= 1 && 0.0 <= b.tokens <= l.burst as real
    requires now >= b.lastRefill && SleepsEnough(l, b, now, wake)
    ensures var (b', t) := Throttled(l, b, now, wake);
      && t >= now && b'.lastRefill == t
      && 0.0 <= b'.tokens <= l.burst as real - 1.0
      && Worth(b'.tokens + 1.0, l.interval) <= Worth(b.tokens, l.interval) + (t - b.lastRefill)
  {
    var elapsed := now - b.lastRefill;
    OverInterval(elapsed, l.interval);
    var gained := elapsed / l.interval;
    assert gained * l.interval == elapsed;
    assert gained >= 0.0 by { if gained < 0.0 { Negative(gained, l.interval); } }
    var r := Refilled(l, b, now);
    assert r.tokens <= b.tokens + gained;
    Scale(r.tokens, b.tokens + gained, l.interval);
    assert (b.tokens + gained) * l.interval == b.tokens * l.interval + elapsed;
    assert (r.tokens - 1.0 + 1.0) * l.interval == r.tokens * l.interval;
    if r.tokens < 1.0 {
      assert WaitTime(l, r) == l.interval - r.tokens * l.interval;
      Scale(r.tokens, 1.0, l.interval);
    }
  }

  lemma Negative(a: real, b: real)
    requires a < 0.0 && b > 0.0
    ensures a * b < 0.0
  {}

  lemma Scale(a: real, b: real, c: real)
    requires a <= b && c >= 0.0
    ensures a * c <= b * c
  {}

  lemma {:induction false} BucketBounds(l: Limits, b: Bucket, rs: seq<Request>, n: nat)
    requires l.interval > 0.0 && l.burst >= 1 && 0.0 <= b.tokens <= l.burst as real
    requires Sequential(l, b, rs) && n <= |rs|
    ensures var after := BucketAfter(l, b, rs[..n]);
      && 0.0 <= after.tokens <= l.burst as real
      && (n > 0 ==> after.tokens <= l.burst as real - 1.0 && after.lastRefill == GrantTime(l, b, rs, n - 1))
      && (n == 0 ==> after == b)
  {
    if n > 0 {
      BucketBounds(l, b, rs, n - 1);
      assert rs[..n][..n - 1] == rs[..n - 1] && rs[..n][n - 1] == rs[n - 1];
      GrantCosts(l, BucketAfter(l, b, rs[..n - 1]), rs[n - 1].now, rs[n - 1].wake);
    }
  }

  lemma {:induction false} TokensSpent(l: Limits, b: Bucket, rs: seq<Request>, i: nat, j: nat)
    requires l.interval > 0.0 && l.burst >= 1 && 0.0 <= b.tokens <= l.burst as real
    requires Sequential(l, b, rs) && i <= j < |rs|
    ensures Worth(BucketAfter(l, b, rs[..j + 1]).tokens + (j - i) as real, l.interval)
         <= Worth(BucketAfter(l, b, rs[..i + 1]).tokens, l.interval)
            + (GrantTime(l, b, rs, j) - GrantTime(l, b, rs, i))
    decreases j
  {
    hide *;
    if i == j {
      assert (j - i) as real == 0.0;
    } else {
      TokensSpent(l, b, rs, i, j - 1);
      OneMore(l, b, rs, j);
      assert rs[..j - 1 + 1] == rs[..j] && (j - 1 - i) as real + 1.0 == (j - i) as real;
      Chain(BucketAfter(l, b, rs[..j + 1]).tokens, BucketAfter(l, b, rs[..j]).tokens,
            BucketAfter(l, b, rs[..i + 1]).tokens, (j - 1 - i) as real, l.interval,
            GrantTime(l, b, rs, j), GrantTime(l, b, rs, j - 1), GrantTime(l, b, rs, i));
    }
  }

  lemma OneMore(l: Limits, b: Bucket, rs: seq<Request>, j: nat)
    requires l.interval > 0.0 && l.burst >= 1 && 0.0 <= b.tokens <= l.burst as real
    requires Sequential(l, b, rs) && 0 < j < |rs|
    ensures Worth(BucketAfter(l, b, rs[..j + 1]).tokens + 1.0, l.interval)
         <= Worth(BucketAfter(l, b, rs[..j]).tokens, l.interval)
            + (GrantTime(l, b, rs, j) - GrantTime(l, b, rs, j - 1))
  {
    BucketBounds(l, b, rs, j);
    BucketNext(l, b, rs, j);
    Asked(l, b, rs, j);
    var before := BucketAfter(l, b, rs[..j]);
    hide *;
    GrantCosts(l, before, rs[j].now, rs[j].wake);
    assert Throttled(l, before, rs[j].now, rs[j].wake).0 == BucketAfter(l, b, rs[..j + 1]);
    assert before.lastRefill == GrantTime(l, b, rs, j - 1);
  }

  lemma BucketNext(l: Limits, b: Bucket, rs: seq<Request>, j: nat)
    requires j < |rs|
    ensures Throttled(l, BucketAfter(l, b, rs[..j]), rs[j].now, rs[j].wake)
         == (BucketAfter(l, b, rs[..j + 1]), GrantTime(l, b, rs, j))
  {
    hide Throttled;
    assert rs[..j + 1][..j] == rs[..j] && rs[..j + 1][j] == rs[j];
  }

  lemma Asked(l: Limits, b: Bucket, rs: seq<Request>, j: nat)
    requires Sequential(l, b, rs) && 0 < j < |rs|
    ensures rs[j].now >= GrantTime(l, b, rs, j - 1)
    ensures SleepsEnough(l, BucketAfter(l, b, rs[..j]), rs[j].now, rs[j].wake)
  {
    hide GrantTime, SleepsEnough, BucketAfter;
  }

  lemma Chain(x: real, y: real, w: real, d: real, c: real, t2: real, t1: real, t0: real)
    requires Worth(x + 1.0, c) <= Worth(y, c) + (t2 - t1)
    requires Worth(y + d, c) <= Worth(w, c) + (t1 - t0)
    ensures Worth(x + (d + 1.0), c) <= Worth(w, c) + (t2 - t0)
  {
    assert (x + (d + 1.0)) * c == (x + 1.0) * c + d * c;
    assert (y + d) * c == y * c + d * c;
  }

  /** In any window of grants i..j, their number is at most the burst plus the length of the
      window over the interval. */
  lemma RateBound(l: Limits, b: Bucket, rs: seq<Request>, i: nat, j: nat)
    requires l.interval > 0.0 && l.burst >= 1 && 0.0 <= b.tokens <= l.burst as real
    requires Sequential(l, b, rs) && i <= j < |rs|
    ensures (j - i + 1) as real <= l.burst as real + (GrantTime(l, b, rs, j) - GrantTime(l, b, rs, i)) / l.interval
    ensures l.burst == 1 && j == i + 1 ==>
              GrantTime(l, b, rs, j) - GrantTime(l, b, rs, i) >= l.interval
  {
    hide *;
    var x, y := BucketAfter(l, b, rs[..j + 1]).tokens, BucketAfter(l, b, rs[..i + 1]).tokens;
    var window := GrantTime(l, b, rs, j) - GrantTime(l, b, rs, i);
    TokensSpent(l, b, rs, i, j);
    assert x >= 0.0 by { BucketBounds(l, b, rs, j + 1); }
    assert y <= l.burst as real - 1.0 by { BucketBounds(l, b, rs, i + 1); }
    Allowance(x, y, (j - i) as real, window, l.interval);
  }

  lemma Allowance(x: real, y: real, d: real, t: real, c: real)
    requires c > 0.0 && x >= 0.0 && Worth(x + d, c) <= Worth(y, c) + t
    ensures d <= y + t / c
    ensures y <= 0.0 && d == 1.0 ==> t >= c
  {
    OverInterval(t, c);
    Sum(y, t / c, c);
    Affordable(d, x, y + t / c, c);
    if y <= 0.0 && d == 1.0 { Scale(1.0, t / c, c); }
  }

  lemma Affordable(d: real, x: real, earned: real, c: real)
    requires c > 0.0 && x >= 0.0 && Worth(x + d, c) <= Worth(earned, c)
    ensures d <= earned
  {
    if x + d > earned { Strict(earned, x + d, c); }
  }

  lemma Sum(a: real, b: real, c: real)
    ensures Worth(a + b, c) == Worth(a, c) + b * c
  {}

  lemma Strict(a: real, b: real, c: real)
    requires a < b && c > 0.0
    ensures Worth(a, c) < Worth(b, c)
  {}

  // ---------------------------------------------------------------- the worker, on values

  /** A frame in the queue; `id` tells apart frames with equal fields. */
  datatype Frame = Frame(id: int, seqNo: Option<int>, high: bool)

  /** Where the worker's coroutine is: at the top of its loop, awaiting the NORMAL queue,
      sleeping in the throttle, awaiting the send, or finished. */
  datatype Pc = AtTop | AwaitNormal | InThrottle(item: Frame) | InSend(item: Frame) | Finished

  /** The last six fields record what happened to frames: all that were enqueued; those the
      worker took; those whose send began; those reported cancelled; those removed from a queue
      by a cancel or a drain; those the worker took and dropped, skipped or held when stopped. */
  datatype Q = Q(
    high: seq<Frame>, normal: seq<Frame>, stopped: bool, pc: Pc,
    currentSeq: Option<int>, currentCancelled: bool, sending: bool,
    enqueued: seq<Frame>, taken: seq<Frame>, started: seq<Frame>, cancelled: set<Frame>, removed: set<Frame>,
    lost: set<Frame>)

  const EMPTY := Q([], [], false, AtTop, None, false, false, [], [], [], {}, {}, {})

  function Enqueue(q: Q, f: Frame): Q {
    if f.high then q.(high := q.high + [f], enqueued := q.enqueued + [f])
    else q.(normal := q.normal + [f], enqueued := q.enqueued + [f])
  }

  function TakeHigh(q: Q): Q
    requires q.high != []
  {
    Begin(q.(high := q.high[1..]), q.high[0])
  }

  function TakeNormal(q: Q): Q
    requires q.normal != []
  {
    Begin(q.(normal := q.normal[1..]), q.normal[0])
  }

  function Begin(q: Q, f: Frame): Q {
    q.(pc := InThrottle(f), currentSeq := f.seqNo, currentCancelled := false, taken := q.taken + [f])
  }

  /** The `finally` of the loop body. */
  function EndItem(q: Q, pc: Pc): Q {
    q.(pc := pc, sending := false, currentSeq := None, currentCancelled := false)
  }

  /** From the top of the loop to the next await. */
  function Poll(q: Q): Q {
    if q.stopped then q.(pc := Finished) else if q.high != [] then TakeHigh(q) else q.(pc := AwaitNormal)
  }

  /** The wait for the NORMAL queue ends with a frame, or after 0.05 s without one. */
  function NormalReady(q: Q): Q
    requires q.normal != []
  {
    TakeNormal(q)
  }

  function PollTimeout(q: Q): Q {
    if q.high != [] then TakeHigh(q) else q.(pc := AtTop)
  }

  function ThrottleDone(q: Q): Q
    requires q.pc.InThrottle?
  {
    if q.currentCancelled then EndItem(q.(lost := q.lost + {q.pc.item}), AtTop)
    else q.(pc := InSend(q.pc.item), sending := true, started := q.started + [q.pc.item])
  }

  function SendDone(q: Q): Q { EndItem(q, AtTop) }

  function Keep(fs: seq<Frame>, s: int): seq<Frame> {
    if fs == [] then []
    else (if fs[0].seqNo == Some(s) then [] else [fs[0]]) + Keep(fs[1..], s)
  }

  function Hits(fs: seq<Frame>, s: int): set<Frame> { set f | f in fs && f.seqNo == Some(s) }

  /** Cancel by message number: the current frame if it is not being sent yet, else every
      queued frame with that number. */
  function Cancel(q: Q, s: int): (Q, bool) {
    if q.currentSeq == Some(s) then
      if q.sending then (q, false)
      else (q.(currentCancelled := true,
               cancelled := q.cancelled + if q.pc.InThrottle? then {q.pc.item} else {}), true)
    else
      var hit := Hits(q.high, s) + Hits(q.normal, s);
      (q.(high := Keep(q.high, s), normal := Keep(q.normal, s),
          cancelled := q.cancelled + hit, removed := q.removed + hit), hit != {})
  }

  /** Without an exception nothing is drained; the worker is cancelled either way, and a frame
      it was holding is reported neither sent nor failed. */
  function Stop(q: Q, drain: bool): Q {
    var q1 := q.(stopped := true);
    var q2 := if drain
              then q1.(high := [], normal := [],
                       removed := q1.removed + (set f | f in q1.high) + (set f | f in q1.normal))
              else q1;
    EndItem(if q.pc.InThrottle? then q2.(lost := q2.lost + {q.pc.item}) else q2, Finished)
  }

  function Start(q: Q): Q {
    if q.pc == Finished then q.(stopped := false, pc := AtTop) else q
  }

  // ---------------------------------------------------------------- in place

  class OutboundQueue {
    const limits: Limits
    var tokens: real
    var lastRefill: real
    var highQ: seq<Frame>
    var normalQ: seq<Frame>
    var stopEvent: bool
    var pc: Pc
    var currentSeq: Option<int>
    var currentCancelled: bool
    var sending: bool
    ghost var enqueued: seq<Frame>
    ghost var taken: seq<Frame>
    ghost var started: seq<Frame>
    ghost var cancelled: set<Frame>
    ghost var removed: set<Frame>
    ghost var lost: set<Frame>

    ghost function Abs(): Q
      reads this
    {
      Q(highQ, normalQ, stopEvent, pc, currentSeq, currentCancelled, sending,
        enqueued, taken, started, cancelled, removed, lost)
    }

    constructor (minInterval: real, maxBurst: int, now: real)
      ensures Abs() == EMPTY && limits.interval >= 0.0 && limits.burst >= 1
      ensures tokens == limits.burst as real && lastRefill == now
    {
      var burst := if maxBurst > 1 then maxBurst else 1;
      limits := Limits(Max(0.0, minInterval), burst);
      tokens, lastRefill := burst as real, now;
      highQ, normalQ, stopEvent, pc := [], [], false, AtTop;
      currentSeq, currentCancelled, sending := None, false, false;
      enqueued, taken, started, cancelled, removed, lost := [], [], [], {}, {}, {};
    }

    method EnqueueFrame(f: Frame)
      modifies this
      ensures Abs() == Enqueue(old(Abs()), f)
      ensures tokens == old(tokens) && lastRefill == old(lastRefill)
    {
      enqueued := enqueued + [f];
      if f.high {
        highQ := highQ + [f];
      } else {
        normalQ := normalQ + [f];
      }
    }

    /** The throttle, its sleep ending at `wake`. */
    method Throttle(now: real, wake: real) returns (granted: real)
      modifies this`tokens, this`lastRefill
      ensures (Bucket(tokens, lastRefill), granted)
           == Throttled(limits, Bucket(old(tokens), old(lastRefill)), now, wake)
    {
      granted := now;
      if limits.interval <= 0.0 {
        return;
      }
      var elapsed := now - lastRefill;
      if elapsed > 0.0 {
        tokens := Min(limits.burst as real, tokens + elapsed / limits.interval);
        lastRefill := now;
      }
      if tokens >= 1.0 {
        tokens := tokens - 1.0;
        return;
      }
      granted := wake;
      lastRefill := wake;
      tokens := Max(0.0, tokens - 1.0);
    }

    method CancelPendingSeq(s: int) returns (found: bool)
      modifies this
      ensures (Abs(), found) == Cancel(old(Abs()), s)
    {
      if currentSeq == Some(s) {
        if sending {
          return false;
        }
        currentCancelled := true;
        cancelled := cancelled + if pc.InThrottle? then {pc.item} else {};
        return true;
      }
      ghost var hit := Hits(highQ, s) + Hits(normalQ, s);
      var inHigh, inNormal;
      highQ, inHigh := DropFrom(highQ, s);
      normalQ, inNormal := DropFrom(normalQ, s);
      cancelled := cancelled + hit;
      removed := removed + hit;
      found := inHigh || inNormal;
    }

    /** A queue is emptied and refilled with the frames that are kept, in order. */
    static method DropFrom(queue: seq<Frame>, s: int) returns (kept: seq<Frame>, found: bool)
      ensures kept == Keep(queue, s)
      ensures found <==> Hits(queue, s) != {}
    {
      kept, found := [], false;
      var rest := queue;
      ghost var gone := [];
      while rest != []
        invariant kept + Keep(rest, s) == Keep(queue, s) && gone + rest == queue
        invariant found <==> exists f :: f in gone && f.seqNo == Some(s)
        decreases |rest|
      {
        var item := rest[0];
        assert rest == [item] + rest[1..];
        rest := rest[1..];
        gone := gone + [item];
        if item.seqNo == Some(s) {
          found := true;
        } else {
          kept := kept + [item];
        }
      }
      if found {
        ghost var f :| f in gone && f.seqNo == Some(s);
        assert f in Hits(queue, s);
      }
    }

    method WorkerPoll()
      modifies this
      ensures Abs() == Poll(old(Abs()))
    {
      if stopEvent {
        pc := Finished;
        return;
      }
      if highQ != [] {
        BeginHigh();
        return;
      }
      pc := AwaitNormal;
    }

    method BeginHigh()
      requires highQ != []
      modifies this
      ensures Abs() == TakeHigh(old(Abs()))
    {
      var item := highQ[0];
      highQ := highQ[1..];
      BeginItem(item);
    }

    method BeginItem(item: Frame)
      modifies this`pc, this`currentSeq, this`currentCancelled, this`taken
      ensures pc == InThrottle(item) && currentSeq == item.seqNo && !currentCancelled
      ensures taken == old(taken) + [item]
    {
      pc := InThrottle(item);
      currentSeq := item.seqNo;
      currentCancelled := false;
      taken := taken + [item];
    }

    method WorkerNormalReady()
      requires normalQ != []
      modifies this
      ensures Abs() == NormalReady(old(Abs()))
    {
      var item := normalQ[0];
      normalQ := normalQ[1..];
      BeginItem(item);
    }

    method WorkerPollTimeout()
      modifies this
      ensures Abs() == PollTimeout(old(Abs()))
    {
      if highQ != [] {
        BeginHigh();
        return;
      }
      pc := AtTop;
    }

    method WorkerThrottleDone()
      requires pc.InThrottle?
      modifies this
      ensures Abs() == ThrottleDone(old(Abs()))
    {
      if currentCancelled {
        lost := lost + {pc.item};
        FinishItem(AtTop);
        return;
      }
      sending := true;
      started := started + [pc.item];
      pc := InSend(pc.item);
    }

    method FinishItem(next: Pc)
      modifies this`pc, this`sending, this`currentSeq, this`currentCancelled
      ensures pc == next && !sending && currentSeq == None && !currentCancelled
    {
      sending := false;
      currentSeq := None;
      currentCancelled := false;
      pc := next;
    }

    method WorkerSendDone()
      modifies this
      ensures Abs() == SendDone(old(Abs()))
    {
      FinishItem(AtTop);
    }

    method StopQueue(drain: bool)
      modifies this
      ensures Abs() == Stop(old(Abs()), drain)
    {
      DrainWithFailure(drain);
      lost := lost + if pc.InThrottle? then {pc.item} else {};
      FinishItem(Finished);
    }

    method DrainWithFailure(drain: bool)
      modifies this`stopEvent, this`highQ, this`normalQ, this`removed
      ensures stopEvent
      ensures if drain
              then highQ == normalQ == []
                   && removed == old(removed) + (set f | f in old(highQ)) + (set f | f in old(normalQ))
              else highQ == old(highQ) && normalQ == old(normalQ) && removed == old(removed)
    {
      stopEvent := true;
      if !drain {
        return;
      }
      removed := removed + (set f | f in highQ) + (set f | f in normalQ);
      ghost var gone := removed;
      while highQ != []
        invariant stopEvent && removed == gone && normalQ == old(normalQ)
        decreases |highQ|
      {
        highQ := highQ[1..];
      }
      while normalQ != []
        invariant stopEvent && removed == gone && highQ == []
        decreases |normalQ|
      {
        normalQ := normalQ[1..];
      }
    }

    method StartQueue()
      modifies this
      ensures Abs() == Start(old(Abs()))
    {
      if pc == Finished {
        stopEvent := false;
        pc := AtTop;
      }
    }
  }
}
