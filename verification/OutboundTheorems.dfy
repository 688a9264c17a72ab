/** What the outbound queue guarantees over every run of its worker and its callers. */
module OutboundTheorems {
  import opened Prelude
  import opened Outbound

  datatype Event =
    | Enqueues(frame: Frame) | Polls | NormalReadies | PollTimesOut | ThrottleEnds | SendEnds
    | Cancels(seqNo: int) | Stops(drain: bool) | Starts

  /** Frames are told apart by their ids; the worker's steps happen where its coroutine is. */
  predicate Enabled(q: Q, e: Event) {
    match e
    case Enqueues(f) => forall g :: g in q.enqueued ==> g.id != f.id
    case Polls => q.pc == AtTop
    case NormalReadies => q.pc == AwaitNormal && q.normal != []
    case PollTimesOut => q.pc == AwaitNormal
    case ThrottleEnds => q.pc.InThrottle?
    case SendEnds => q.pc.InSend?
    case _ => true
  }

  function Step(q: Q, e: Event): Q
    requires Enabled(q, e)
  {
    match e
    case Enqueues(f) => Enqueue(q, f)
    case Polls => Poll(q)
    case NormalReadies => NormalReady(q)
    case PollTimesOut => PollTimeout(q)
    case ThrottleEnds => ThrottleDone(q)
    case SendEnds => SendDone(q)
    case Cancels(s) => Cancel(q, s).0
    case Stops(drain) => Stop(q, drain)
    case Starts => Start(q)
  }

  predicate Possible(q: Q, run: seq<Event>)
    decreases |run|, 0
  {
    run == [] || (Possible(q, run[..|run| - 1]) && Enabled(After(q, run[..|run| - 1]), run[|run| - 1]))
  }

  function After(q: Q, run: seq<Event>): Q
    requires Possible(q, run)
    decreases |run|, 1
  {
    if run == [] then q else Step(After(q, run[..|run| - 1]), run[|run| - 1])
  }

  // ---------------------------------------------------------------- order

  /** The frames of one priority, in order. */
  function Of(fs: seq<Frame>, high: bool): seq<Frame> {
    if fs == [] then []
    else Of(fs[..|fs| - 1], high) + if fs[|fs| - 1].high == high then [fs[|fs| - 1]] else []
  }

  /** What is left of a list without some frames, in order. */
  function Less(fs: seq<Frame>, gone: set<Frame>): seq<Frame> {
    if fs == [] then []
    else Less(fs[..|fs| - 1], gone) + if fs[|fs| - 1] in gone then [] else [fs[|fs| - 1]]
  }

  function Queue(q: Q, high: bool): seq<Frame> { if high then q.high else q.normal }

  function InHand(q: Q): seq<Frame> { if q.pc.InThrottle? then [q.pc.item] else [] }

  /** Per priority, what was enqueued and not removed is what the worker took, then what is
      still queued, in that order. */
  predicate Fifo(q: Q, high: bool) {
    Less(Of(q.enqueued, high), q.removed) == Of(q.taken, high) + Queue(q, high)
  }

  ghost predicate Inv(q: Q) {
    && (forall i, j :: 0 <= i < j < |q.enqueued| ==> q.enqueued[i].id != q.enqueued[j].id)
    && Fifo(q, true) && Fifo(q, false)
    && q.started + InHand(q) == Less(q.taken, q.lost)
    && (forall f :: f in q.removed ==> f in q.enqueued)
    && (forall f :: f in q.lost ==> f in q.taken)
    && Hands(q)
    && Cancelled(q)
  }

  predicate Hands(q: Q) {
    && (q.pc.InThrottle? ==> q.currentSeq == q.pc.item.seqNo && !q.sending)
    && (q.pc.InSend? ==> q.currentSeq == q.pc.item.seqNo && q.sending && !q.currentCancelled && q.pc.item in q.started)
    && (!q.pc.InThrottle? && !q.pc.InSend? ==> q.currentSeq == None && !q.sending && !q.currentCancelled)
  }

  /** A frame reported cancelled is off the queues, or skipped, or marked to be skipped. */
  predicate Cancelled(q: Q) {
    && (forall f :: f in q.cancelled ==>
          f in q.removed || f in q.lost || (q.pc == InThrottle(f) && q.currentCancelled))
    && (q.currentCancelled ==> q.pc.InThrottle? && q.pc.item in q.cancelled)
  }

  lemma {:induction false} OfMembers(fs: seq<Frame>, high: bool, f: Frame)
    ensures f in Of(fs, high) <==> f in fs && f.high == high
  {
    if fs != [] {
      OfMembers(fs[..|fs| - 1], high, f);
      assert fs == fs[..|fs| - 1] + [fs[|fs| - 1]];
    }
  }

  lemma {:induction false} LessMembers(fs: seq<Frame>, gone: set<Frame>, f: Frame)
    ensures f in Less(fs, gone) <==> f in fs && f !in gone
  {
    if fs != [] {
      LessMembers(fs[..|fs| - 1], gone, f);
      assert fs == fs[..|fs| - 1] + [fs[|fs| - 1]];
    }
  }

  lemma OfOne(fs: seq<Frame>, f: Frame, high: bool)
    ensures Of(fs + [f], high) == Of(fs, high) + if f.high == high then [f] else []
  {}

  lemma LessOne(fs: seq<Frame>, f: Frame, gone: set<Frame>)
    ensures Less(fs + [f], gone) == Less(fs, gone) + if f in gone then [] else [f]
  {}

  lemma {:induction false} LessConcat(a: seq<Frame>, b: seq<Frame>, gone: set<Frame>)
    ensures Less(a + b, gone) == Less(a, gone) + Less(b, gone)
    decreases |b|
  {
    if b == [] {
      assert a + b == a;
    } else {
      var k := |b| - 1;
      assert a + b == a + b[..k] + [b[k]];
      LessConcat(a, b[..k], gone);
      LessOne(a + b[..k], b[k], gone);
    }
  }

  lemma {:induction false} LessLess(fs: seq<Frame>, a: set<Frame>, b: set<Frame>)
    ensures Less(Less(fs, a), b) == Less(fs, a + b)
  {
    if fs != [] {
      var k := |fs| - 1;
      LessLess(fs[..k], a, b);
      if fs[k] in a {
        assert Less(fs, a) == Less(fs[..k], a);
      } else {
        LessOne(Less(fs[..k], a), fs[k], b);
      }
    }
  }

  lemma {:induction false} LessNothing(fs: seq<Frame>, gone: set<Frame>)
    requires forall f :: f in fs ==> f !in gone
    ensures Less(fs, gone) == fs
  {
    if fs != [] {
      LessNothing(fs[..|fs| - 1], gone);
      assert fs == fs[..|fs| - 1] + [fs[|fs| - 1]];
    }
  }

  lemma {:induction false} LessAll(fs: seq<Frame>, gone: set<Frame>)
    requires forall f :: f in fs ==> f in gone
    ensures Less(fs, gone) == []
  {
    if fs != [] {
      LessAll(fs[..|fs| - 1], gone);
    }
  }

  lemma {:induction false} KeepIsLess(fs: seq<Frame>, s: int, gone: set<Frame>)
    requires forall f :: f in fs ==> (f in gone <==> f.seqNo == Some(s))
    ensures Keep(fs, s) == Less(fs, gone)
    decreases |fs|
  {
    if fs != [] {
      KeepIsLess(fs[1..], s, gone);
      assert fs == [fs[0]] + fs[1..];
      LessConcat([fs[0]], fs[1..], gone);
      LessOne([], fs[0], gone);
      assert [] + [fs[0]] == [fs[0]];
    }
  }

  /** A frame is in one place: removed frames are neither queued nor taken, and the frames
      queued or taken were enqueued. */
  lemma Placed(q: Q, f: Frame)
    requires Inv(q)
    ensures f in q.removed ==> f !in q.taken && f !in q.high && f !in q.normal
    ensures f in q.taken || f in q.high || f in q.normal ==> f in q.enqueued
    ensures (f in q.high ==> f.high) && (f in q.normal ==> !f.high)
    ensures f in q.started ==> f in q.taken && f !in q.lost
  {
    OfMembers(q.enqueued, true, f);
    OfMembers(q.enqueued, false, f);
    OfMembers(q.taken, true, f);
    OfMembers(q.taken, false, f);
    LessMembers(Of(q.enqueued, true), q.removed, f);
    LessMembers(Of(q.enqueued, false), q.removed, f);
    LessMembers(q.taken, q.lost, f);
    assert f in Less(Of(q.enqueued, true), q.removed) <==> f in Of(q.taken, true) || f in q.high;
    assert f in Less(Of(q.enqueued, false), q.removed) <==> f in Of(q.taken, false) || f in q.normal;
    assert f in q.started ==> f in Less(q.taken, q.lost);
  }

  /** Frames with distinct ids stay distinct in every sublist. */
  lemma {:induction false} OfDistinct(fs: seq<Frame>, high: bool)
    requires Distinct(fs)
    ensures Distinct(Of(fs, high))
  {
    if fs != [] {
      var k := |fs| - 1;
      OfDistinct(fs[..k], high);
      OfMembers(fs[..k], high, fs[k]);
    }
  }

  lemma {:induction false} LessDistinct(fs: seq<Frame>, gone: set<Frame>)
    requires Distinct(fs)
    ensures Distinct(Less(fs, gone))
  {
    if fs != [] {
      var k := |fs| - 1;
      LessDistinct(fs[..k], gone);
      LessMembers(fs[..k], gone, fs[k]);
    }
  }

  /** A queued frame has not been taken, and a frame is taken only once. */
  lemma QueuedNotTaken(q: Q, high: bool)
    requires Inv(q)
    ensures forall f :: f in Queue(q, high) ==> f !in q.taken && f !in q.lost
    ensures Distinct(Of(q.taken, high) + Queue(q, high))
  {
    OfDistinct(q.enqueued, high);
    LessDistinct(Of(q.enqueued, high), q.removed);
    forall f | f in Queue(q, high) ensures f !in q.taken && f !in q.lost {
      Placed(q, f);
      OfMembers(q.taken, high, f);
      DisjointParts(Of(q.taken, high), Queue(q, high), f);
    }
  }

  lemma DisjointParts(a: seq<Frame>, b: seq<Frame>, f: Frame)
    requires Distinct(a + b) && f in b
    ensures f !in a
  {
    var j :| 0 <= j < |b| && b[j] == f;
    forall i | 0 <= i < |a| ensures a[i] != f {
      assert (a + b)[i] != (a + b)[|a| + j];
    }
  }

  // ---------------------------------------------------------------- every step

  lemma EnqueueFifo(q: Q, f: Frame, high: bool)
    requires Fifo(q, high) && f !in q.removed
    ensures Fifo(Enqueue(q, f), high)
  {
    hide Less, Of;
    OfOne(q.enqueued, f, high);
    if high == f.high {
      LessOne(Of(q.enqueued, high), f, q.removed);
      assert Of(q.taken, high) + (Queue(q, high) + [f]) == Of(q.taken, high) + Queue(q, high) + [f];
    } else {
      assert Of(q.enqueued, high) + [] == Of(q.enqueued, high);
    }
  }

  lemma EnqueueKeeps(q: Q, f: Frame)
    requires Inv(q) && forall g :: g in q.enqueued ==> g.id != f.id
    ensures Inv(Enqueue(q, f))
  {
    hide Fifo, Less, Of;
    assert f !in q.removed;
    EnqueueFifo(q, f, true);
    EnqueueFifo(q, f, false);
    var q' := Enqueue(q, f);
    forall i, j | 0 <= i < j < |q'.enqueued| ensures q'.enqueued[i].id != q'.enqueued[j].id {
      assert q.enqueued[i] in q.enqueued;
    }
  }

  lemma TakeKeeps(q: Q, high: bool)
    requires Inv(q) && Queue(q, high) != [] && !q.pc.InThrottle? && !q.pc.InSend?
    ensures Inv(if high then TakeHigh(q) else TakeNormal(q))
  {
    hide Fifo, Less, Of, Distinct;
    var f := Queue(q, high)[0];
    var q' := if high then TakeHigh(q) else TakeNormal(q);
    assert f in Queue(q, high);
    Placed(q, f);
    QueuedNotTaken(q, high);
    TakeFifo(q, high, true);
    TakeFifo(q, high, false);
    LessOne(q.taken, f, q.lost);
    assert q.started + [] == q.started;
    assert q'.started + InHand(q') == Less(q'.taken, q'.lost);
  }

  lemma TakeFifo(q: Q, high: bool, other: bool)
    requires Fifo(q, other) && Queue(q, high) != [] && Queue(q, high)[0].high == high
    ensures Fifo(if high then TakeHigh(q) else TakeNormal(q), other)
  {}

  lemma ThrottleKeeps(q: Q)
    requires Inv(q) && q.pc.InThrottle?
    ensures Inv(ThrottleDone(q))
  {
    var f := q.pc.item;
    if q.currentCancelled {
      LostLast(q);
    } else {
      assert q.started + [f] + [] == q.started + [f];
    }
  }

  /** Dropping the frame in hand takes exactly it from what was taken and not lost. */
  lemma LostLast(q: Q)
    requires Inv(q) && q.pc.InThrottle?
    ensures Less(q.taken, q.lost + {q.pc.item}) == q.started && q.pc.item in q.taken
  {
    var f := q.pc.item;
    LessLess(q.taken, q.lost, {f});
    LessOne(q.started, f, {f});
    assert (q.started + [f])[|q.started|] == f;
    LessMembers(q.taken, q.lost, f);
    OnceTaken(q);
    LessDistinct(q.taken, q.lost);
    forall g | g in q.started ensures g != f {
      var i :| 0 <= i < |q.started| && q.started[i] == g;
      assert (q.started + [f])[i] == g;
    }
    LessNothing(q.started, {f});
    assert q.started + [] == q.started;
  }

  lemma OnceTaken(q: Q)
    requires Inv(q)
    ensures Distinct(q.taken)
  {
    QueuedNotTaken(q, true);
    QueuedNotTaken(q, false);
    DistinctParts(q.taken, Queue(q, true), Queue(q, false));
  }

  lemma DistinctParts(fs: seq<Frame>, h: seq<Frame>, n: seq<Frame>)
    requires Distinct(Of(fs, true) + h) && Distinct(Of(fs, false) + n)
    ensures Distinct(fs)
  {
    PrefixDistinct(Of(fs, true), h);
    PrefixDistinct(Of(fs, false), n);
    forall i, j | 0 <= i < j < |fs| ensures fs[i] != fs[j] {
      if fs[i] == fs[j] {
        TwiceIn(fs, i, j);
      }
    }
  }

  lemma PrefixDistinct(a: seq<Frame>, b: seq<Frame>)
    requires Distinct(a + b)
    ensures Distinct(a)
  {
    assert forall i :: 0 <= i < |a| ==> (a + b)[i] == a[i];
  }

  lemma {:induction false} TwiceIn(fs: seq<Frame>, i: nat, j: nat)
    requires i < j < |fs| && fs[i] == fs[j]
    ensures exists k, l :: 0 <= k < l < |Of(fs, fs[i].high)| && Of(fs, fs[i].high)[k] == Of(fs, fs[i].high)[l]
  {
    var n := |fs| - 1;
    var p := fs[i].high;
    if j < n {
      TwiceIn(fs[..n], i, j);
      var k, l :| 0 <= k < l < |Of(fs[..n], p)| && Of(fs[..n], p)[k] == Of(fs[..n], p)[l];
      assert Of(fs, p)[k] == Of(fs, p)[l];
    } else {
      assert fs[i] in fs[..n];
      OfMembers(fs[..n], p, fs[i]);
      var k :| 0 <= k < |Of(fs[..n], p)| && Of(fs[..n], p)[k] == fs[i];
      assert Of(fs, p)[k] == Of(fs, p)[|Of(fs[..n], p)|];
    }
  }

  lemma CancelKeeps(q: Q, s: int)
    requires Inv(q)
    ensures Inv(Cancel(q, s).0)
  {
    if q.currentSeq != Some(s) {
      var hit := Hits(q.high, s) + Hits(q.normal, s);
      RemoveKeeps(q, hit, true);
      RemoveKeeps(q, hit, false);
      KeepIsLess(q.high, s, hit);
      KeepIsLess(q.normal, s, hit);
      forall f | f in hit ensures f in q.enqueued { Placed(q, f); }
    }
  }

  /** Removing queued frames leaves the order of the others. */
  lemma RemoveKeeps(q: Q, hit: set<Frame>, high: bool)
    requires Inv(q) && forall f :: f in hit ==> f in q.high || f in q.normal
    ensures Less(Of(q.enqueued, high), q.removed + hit) == Of(q.taken, high) + Less(Queue(q, high), hit)
  {
    LessLess(Of(q.enqueued, high), q.removed, hit);
    LessConcat(Of(q.taken, high), Queue(q, high), hit);
    QueuedNotTaken(q, true);
    QueuedNotTaken(q, false);
    forall f | f in Of(q.taken, high) ensures f !in hit { OfMembers(q.taken, high, f); }
    LessNothing(Of(q.taken, high), hit);
  }

  lemma StopKeeps(q: Q, drain: bool)
    requires Inv(q)
    ensures Inv(Stop(q, drain))
  {
    if drain {
      var hit := (set f | f in q.high) + (set f | f in q.normal);
      assert q.removed + (set f | f in q.high) + (set f | f in q.normal) == q.removed + hit;
      RemoveKeeps(q, hit, true);
      RemoveKeeps(q, hit, false);
      LessAll(q.high, hit);
      LessAll(q.normal, hit);
      forall f | f in hit ensures f in q.enqueued { Placed(q, f); }
    }
    if q.pc.InThrottle? {
      LostLast(q);
    }
    assert q.started + [] == q.started;
  }

  lemma StepKeeps(q: Q, e: Event)
    requires Inv(q) && Enabled(q, e)
    ensures Inv(Step(q, e))
  {
    match e
    case Enqueues(f) => EnqueueKeeps(q, f);
    case Polls => if !q.stopped && q.high != [] { TakeKeeps(q, true); }
    case NormalReadies => TakeKeeps(q, false);
    case PollTimesOut => if q.high != [] { TakeKeeps(q, true); }
    case ThrottleEnds => ThrottleKeeps(q);
    case SendEnds =>
    case Cancels(s) => CancelKeeps(q, s);
    case Stops(drain) => StopKeeps(q, drain);
    case Starts =>
  }

  lemma {:induction false} RunKeeps(q: Q, run: seq<Event>)
    requires Inv(q) && Possible(q, run)
    ensures Inv(After(q, run))
    decreases |run|
  {
    if run != [] {
      RunKeeps(q, run[..|run| - 1]);
      StepKeeps(After(q, run[..|run| - 1]), run[|run| - 1]);
    }
  }

  lemma StartInv()
    ensures Inv(EMPTY)
  {}

  // ---------------------------------------------------------------- the results

  /** Over every run and for each priority: the frames enqueued, less those removed by a cancel
      or a drain, are those taken by the worker followed by those still queued, in order; and
      the sends that began are the frames taken, less those it dropped, in order, each once. */
  lemma OrderKept(run: seq<Event>, high: bool)
    requires Possible(EMPTY, run)
    ensures var q := After(EMPTY, run);
      && Less(Of(q.enqueued, high), q.removed) == Of(q.taken, high) + Queue(q, high)
      && q.started + InHand(q) == Less(q.taken, q.lost)
      && Distinct(q.started)
  {
    StartInv();
    RunKeeps(EMPTY, run);
    var q := After(EMPTY, run);
    OnceTaken(q);
    LessDistinct(q.taken, q.lost);
    assert forall i :: 0 <= i < |q.started| ==> (q.started + InHand(q))[i] == q.started[i];
  }

  /** A frame whose send has begun is never reported cancelled, before or after. */
  lemma StartedNeverCancelled(run: seq<Event>, f: Frame)
    requires Possible(EMPTY, run)
    ensures var q := After(EMPTY, run); !(f in q.started && f in q.cancelled)
  {
    StartInv();
    RunKeeps(EMPTY, run);
    var q := After(EMPTY, run);
    Placed(q, f);
    if q.pc == InThrottle(f) {
      OnceTaken(q);
      LessDistinct(q.taken, q.lost);
      DisjointParts(q.started, [f], f);
    }
  }

  /** No frame with the number is queued behind one with the number in the worker's hands. */
  predicate NoneBehind(q: Q, s: int) {
    q.currentSeq == Some(s) ==> Hits(q.high, s) + Hits(q.normal, s) == {}
  }

  /** No frame with the number will be sent unless one is enqueued again. */
  predicate Gone(q: Q, s: int) {
    && Hits(q.high, s) == {} && Hits(q.normal, s) == {}
    && (q.pc.InThrottle? && q.pc.item.seqNo == Some(s) ==> q.currentCancelled)
    && (q.currentSeq == Some(s) ==> q.pc.InThrottle? || q.pc.InSend?)
  }

  function SendsOf(fs: seq<Frame>, s: int): seq<Frame> {
    if fs == [] then []
    else SendsOf(fs[..|fs| - 1], s) + if fs[|fs| - 1].seqNo == Some(s) then [fs[|fs| - 1]] else []
  }

  predicate WithoutNumber(run: seq<Event>, s: int) {
    forall i :: 0 <= i < |run| && run[i].Enqueues? ==> run[i].frame.seqNo != Some(s)
  }

  lemma HitsEmpty(fs: seq<Frame>, s: int)
    ensures Hits(fs, s) == {} <==> forall f :: f in fs ==> f.seqNo != Some(s)
  {
    if f :| f in fs && f.seqNo == Some(s) {
      assert f in Hits(fs, s);
    }
  }

  lemma {:induction false} KeepMembers(fs: seq<Frame>, s: int)
    ensures forall f :: f in Keep(fs, s) <==> f in fs && f.seqNo != Some(s)
    decreases |fs|
  {
    if fs != [] {
      KeepMembers(fs[1..], s);
      assert fs == [fs[0]] + fs[1..];
    }
  }

  /** A cancel that returns true leaves no frame with the number to be sent exactly if none was
      queued behind the one in hand. */
  lemma CancelGone(q: Q, s: int)
    requires Inv(q) && Cancel(q, s).1
    ensures Gone(Cancel(q, s).0, s) <==> NoneBehind(q, s)
    ensures Cancel(q, s).0.started == q.started
  {
    KeepMembers(q.high, s);
    KeepMembers(q.normal, s);
    HitsEmpty(Cancel(q, s).0.high, s);
    HitsEmpty(Cancel(q, s).0.normal, s);
    assert Hits(q.high, s) + Hits(q.normal, s) == {} <==> Hits(q.high, s) == {} && Hits(q.normal, s) == {};
  }

  lemma GoneStays(q: Q, e: Event, s: int)
    requires Inv(q) && Enabled(q, e) && Gone(q, s)
    requires e.Enqueues? ==> e.frame.seqNo != Some(s)
    ensures Gone(Step(q, e), s)
    ensures SendsOf(Step(q, e).started, s) == SendsOf(q.started, s)
  {
    hide Fifo, Of, Less, Cancelled, SendsOf, Keep, Hits;
    SendsStay(q, e, s);
    var q' := Step(q, e);
    HitsEmpty(q.high, s);
    HitsEmpty(q.normal, s);
    HitsEmpty(q'.high, s);
    HitsEmpty(q'.normal, s);
    if e.Cancels? {
      KeepMembers(q.high, e.seqNo);
      KeepMembers(q.normal, e.seqNo);
    }
  }

  lemma SendsStay(q: Q, e: Event, s: int)
    requires Inv(q) && Enabled(q, e) && Gone(q, s)
    ensures SendsOf(Step(q, e).started, s) == SendsOf(q.started, s)
  {
    hide Inv, Hits, Keep;
    if e.ThrottleEnds? && !q.currentCancelled {
      var f := q.pc.item;
      assert (q.started + [f])[..|q.started|] == q.started;
    }
  }

  lemma {:induction false} GoneForGood(q: Q, s: int, run: seq<Event>)
    requires Inv(q) && Gone(q, s) && Possible(q, run) && WithoutNumber(run, s)
    ensures Gone(After(q, run), s) && SendsOf(After(q, run).started, s) == SendsOf(q.started, s)
    decreases |run|
  {
    if run != [] {
      var before := run[..|run| - 1];
      assert forall i :: 0 <= i < |before| ==> before[i] == run[i];
      GoneForGood(q, s, before);
      RunKeeps(q, before);
      GoneStays(After(q, before), run[|run| - 1], s);
    }
  }

  // ---------------------------------------------------------------- what is queued is sent

  lemma {:induction false} RunOn(q: Q, a: seq<Event>, b: seq<Event>)
    requires Possible(q, a) && Possible(After(q, a), b)
    ensures Possible(q, a + b) && After(q, a + b) == After(After(q, a), b)
    decreases |b|
  {
    hide Step, Enabled;
    if b == [] {
      assert a + b == a;
    } else {
      var n := |b| - 1;
      RunOn(q, a, b[..n]);
      assert (a + b)[..|a + b| - 1] == a + b[..n];
    }
  }

  lemma OneEvent(q: Q, e: Event)
    requires Enabled(q, e)
    ensures Possible(q, [e]) && After(q, [e]) == Step(q, e)
  {
    assert [e][..0] == [];
  }

  lemma OneMoreEvent(q: Q, run: seq<Event>, e: Event)
    requires Possible(q, run) && Enabled(After(q, run), e)
    ensures Possible(q, run + [e]) && After(q, run + [e]) == Step(After(q, run), e)
  {
    OneEvent(After(q, run), e);
    RunOn(q, run, [e]);
  }

  predicate NoEnqueues(run: seq<Event>) { forall i :: 0 <= i < |run| ==> !run[i].Enqueues? }

  /** The worker is at the top of its loop and not stopped. */
  predicate Running(q: Q) { q.pc == AtTop && !q.stopped && !q.currentCancelled }

  /** The frame that is first in line is sent, and the worker is back at the top. */
  lemma FirstIsSent(q: Q) returns (run: seq<Event>, f: Frame)
    requires Running(q) && (q.high != [] || q.normal != [])
    ensures Possible(q, run) && NoEnqueues(run)
    ensures var r := After(q, run);
      && Running(r) && r.started == q.started + [f]
      && (if q.high != [] then f == q.high[0] && r.high == q.high[1..] && r.normal == q.normal
          else f == q.normal[0] && r.high == [] && r.normal == q.normal[1..])
  {
    OneEvent(q, Polls);
    if q.high != [] {
      f := q.high[0];
      run := [Polls];
    } else {
      f := q.normal[0];
      OneMoreEvent(q, [Polls], NormalReadies);
      run := [Polls] + [NormalReadies];
    }
    OneMoreEvent(q, run, ThrottleEnds);
    run := run + [ThrottleEnds];
    OneMoreEvent(q, run, SendEnds);
    run := run + [SendEnds];
  }

  /** Whatever is queued is sent in some continuation that enqueues nothing. */
  lemma {:induction false} QueuedIsSent(q: Q, f: Frame) returns (run: seq<Event>, sent: seq<Frame>)
    requires Running(q) && (f in q.high || f in q.normal)
    ensures Possible(q, run) && NoEnqueues(run)
    ensures After(q, run).started == q.started + sent && f in sent
    decreases |q.high| + |q.normal|
  {
    var first, g := FirstIsSent(q);
    run, sent := first, [g];
    if f != g {
      var r := After(q, first);
      assert q.high != [] ==> q.high == [g] + r.high;
      assert q.high == [] ==> q.normal == [g] + r.normal;
      var rest, more := QueuedIsSent(r, f);
      RunOn(q, first, rest);
      run, sent := first + rest, [g] + more;
      assert q.started + [g] + more == q.started + ([g] + more);
    }
  }

  lemma {:induction false} SendsConcat(a: seq<Frame>, b: seq<Frame>, s: int)
    ensures SendsOf(a + b, s) == SendsOf(a, s) + SendsOf(b, s)
    ensures (exists f :: f in b && f.seqNo == Some(s)) ==> SendsOf(b, s) != []
    decreases |b|
  {
    if b == [] {
      assert a + b == a;
    } else {
      var n := |b| - 1;
      SendsConcat(a, b[..n], s);
      assert (a + b)[..|a + b| - 1] == a + b[..n];
      assert b == b[..n] + [b[n]];
    }
  }

  /** With one queued behind the frame in hand, a cancel that returns true is not final: some
      continuation that enqueues nothing sends a frame with the number. */
  lemma OneBehindIsSent(q: Q, s: int) returns (run: seq<Event>)
    requires Inv(q) && Cancel(q, s).1 && !NoneBehind(q, s)
    ensures var r := Cancel(q, s).0;
      && Possible(r, run) && NoEnqueues(run)
      && SendsOf(After(r, run).started, s) != SendsOf(q.started, s)
  {
    var r := Cancel(q, s).0;
    var f :| f in Hits(q.high, s) + Hits(q.normal, s);
    OneEvent(r, ThrottleEnds);
    run := [ThrottleEnds];
    if r.stopped {
      OneMoreEvent(r, run, Polls);
      run := run + [Polls];
      OneMoreEvent(r, run, Starts);
      run := run + [Starts];
    }
    var rest, sent := QueuedIsSent(After(r, run), f);
    RunOn(r, run, rest);
    run := run + rest;
    SendsConcat(q.started, sent, s);
  }

  /** No continuation of the cancel without a new frame of the number sends one. */
  ghost predicate Final(q: Q, s: int) {
    forall run :: Possible(Cancel(q, s).0, run) && WithoutNumber(run, s) ==>
      SendsOf(After(Cancel(q, s).0, run).started, s) == SendsOf(q.started, s)
  }

  /** Cancel is final, in every state of every run, exactly if no frame with the number is
      queued behind one in the worker's hands. */
  lemma CancelIsFinal(q: Q, s: int)
    requires Inv(q) && Cancel(q, s).1
    ensures Final(q, s) <==> NoneBehind(q, s)
  {
    var r := Cancel(q, s).0;
    if NoneBehind(q, s) {
      CancelKeeps(q, s);
      CancelGone(q, s);
      forall run | Possible(r, run) && WithoutNumber(run, s)
        ensures SendsOf(After(r, run).started, s) == SendsOf(q.started, s)
      {
        GoneForGood(r, s, run);
      }
    } else {
      var run := OneBehindIsSent(q, s);
      assert WithoutNumber(run, s);
    }
  }

  /** A run reaches such a state: two frames of one number, the first taken by the worker. */
  lemma DuplicateSurvivesCancel(a: Frame, b: Frame, s: int)
    requires a.seqNo == b.seqNo == Some(s) && a.high && a.id != b.id
    ensures var run := [Enqueues(a), Enqueues(b), Polls];
      && Possible(EMPTY, run)
      && (var q := After(EMPTY, run); Inv(q) && Cancel(q, s).1 && !NoneBehind(q, s) && !Final(q, s))
  {
    var run := [Enqueues(a)];
    OneEvent(EMPTY, Enqueues(a));
    OneMoreEvent(EMPTY, run, Enqueues(b));
    assert run + [Enqueues(b)] == [Enqueues(a), Enqueues(b)];
    run := run + [Enqueues(b)];
    OneMoreEvent(EMPTY, run, Polls);
    assert run + [Polls] == [Enqueues(a), Enqueues(b), Polls];
    run := run + [Polls];
    var q := After(EMPTY, run);
    StartInv();
    RunKeeps(EMPTY, run);
    assert b in Hits(q.high, s) + Hits(q.normal, s);
    CancelIsFinal(q, s);
  }

  // ---------------------------------------------------------------- no grant later than it has to be

  /** Without an interval every grant is immediate and free. */
  lemma NoThrottle(l: Limits, b: Bucket, now: real, wake: real)
    requires l.interval <= 0.0
    ensures Throttled(l, b, now, wake) == (b, now)
  {}

  /** The bucket fills by one token per interval up to the burst, and never runs backwards. */
  lemma RefillIs(l: Limits, b: Bucket, now: real)
    requires l.interval > 0.0 && b.tokens <= l.burst as real
    ensures var r, gained := Refilled(l, b, now), (now - b.lastRefill) / l.interval;
      if now <= b.lastRefill then r == b
      else
        && r.lastRefill == now
        && (b.tokens + gained <= l.burst as real ==> r.tokens == b.tokens + gained)
        && (b.tokens + gained >= l.burst as real ==> r.tokens == l.burst as real)
  {}

  /** A whole token makes the grant immediate; otherwise it comes when the sleep ends, and the
      bucket is then empty. */
  lemma GrantIs(l: Limits, b: Bucket, now: real, wake: real)
    requires l.interval > 0.0
    ensures var (after, t) := Throttled(l, b, now, wake);
      var tokens := Refilled(l, b, now).tokens;
      if tokens >= 1.0 then t == now && after.tokens == tokens - 1.0
      else t == wake && after == Bucket(0.0, wake)
  {}

  /** A sleep is as long as it takes to earn what is missing of a token. */
  lemma SleepIs(l: Limits, b: Bucket, now: real, wake: real)
    requires l.interval > 0.0 && Refilled(l, b, now).tokens < 1.0
    ensures SleepsEnough(l, b, now, wake) <==> wake >= now + (1.0 - Refilled(l, b, now).tokens) * l.interval
  {}

  /** A full bucket grants as many requests at once as the burst says. */
  lemma {:induction false} FullBurst(l: Limits, b: Bucket, rs: seq<Request>, now: real)
    requires l.interval > 0.0 && l.burst >= 1 && b.tokens == l.burst as real && now >= b.lastRefill
    requires |rs| <= l.burst && forall i :: 0 <= i < |rs| ==> rs[i].now == now
    ensures forall i :: 0 <= i < |rs| ==> GrantTime(l, b, rs, i) == now
    ensures var after := BucketAfter(l, b, rs);
      rs != [] ==> after == Bucket((l.burst - |rs|) as real, now)
  {
    if rs != [] {
      var n := |rs| - 1;
      var before := rs[..n];
      FullBurst(l, b, before, now);
      forall i | 0 <= i < n ensures GrantTime(l, b, rs, i) == now {
        assert GrantTime(l, b, before, i) == now && before[..i] == rs[..i] && before[i] == rs[i];
      }
      BurstStep(l, b, BucketAfter(l, b, before), n, now, rs[n].wake);
    }
  }

  lemma BurstStep(l: Limits, full: Bucket, b: Bucket, n: nat, now: real, wake: real)
    requires l.interval > 0.0 && n < l.burst
    requires full.tokens == l.burst as real && now >= full.lastRefill
    requires b == if n == 0 then full else Bucket((l.burst - n) as real, now)
    ensures Throttled(l, b, now, wake) == (Bucket((l.burst - (n + 1)) as real, now), now)
  {
    if n == 0 && now > b.lastRefill {
      RefillIs(l, b, now);
      Positive(now - b.lastRefill, l.interval);
    }
  }

  lemma Positive(x: real, y: real)
    requires x > 0.0 && y > 0.0
    ensures x / y > 0.0
  {}

  /** A pause of `burst` intervals fills any bucket. */
  lemma PauseFills(l: Limits, b: Bucket, now: real)
    requires l.interval > 0.0 && 0.0 <= b.tokens <= l.burst as real && l.burst >= 1
    requires now >= b.lastRefill + l.burst as real * l.interval
    ensures Refilled(l, b, now) == Bucket(l.burst as real, now)
  {
    Affords(now - b.lastRefill, l.burst as real, l.interval);
    Positive(l.burst as real * l.interval, l.interval);
  }

  lemma Affords(x: real, n: real, c: real)
    requires c > 0.0 && n >= 1.0 && x >= n * c
    ensures x / c >= n && x > 0.0
  {}

  // ---------------------------------------------------------------- which frame comes next

  /** The worker takes the head of HIGH whenever HIGH is not empty, waits for NORMAL only when it
      is, and looks at HIGH again when the wait runs out. */
  lemma HighFirst(q: Q)
    ensures !q.stopped && q.high != [] ==>
              var r := Poll(q); r.pc == InThrottle(q.high[0]) && r.high == q.high[1..] && r.normal == q.normal
    ensures !q.stopped && q.high == [] ==> Poll(q) == q.(pc := AwaitNormal)
    ensures q.stopped ==> Poll(q) == q.(pc := Finished)
    ensures q.high != [] ==>
              var r := PollTimeout(q); r.pc == InThrottle(q.high[0]) && r.high == q.high[1..] && r.normal == q.normal
    ensures q.high == [] ==> PollTimeout(q) == q.(pc := AtTop)
    ensures q.normal != [] ==>
              var r := NormalReady(q); r.pc == InThrottle(q.normal[0]) && r.normal == q.normal[1..] && r.high == q.high
  {}

  /** A stop ends the worker; with an exception it empties both queues, without one it leaves
      them. A start revives a finished worker only. */
  lemma StopAndStart(q: Q, drain: bool)
    ensures var r := Stop(q, drain);
      && r.stopped && r.pc == Finished && !r.sending && r.currentSeq == None
      && r.started == q.started
      && (if drain then r.high == [] && r.normal == [] else r.high == q.high && r.normal == q.normal)
    ensures var r := Start(q);
      if q.pc == Finished then r == q.(stopped := false, pc := AtTop) else r == q
  {}
}
