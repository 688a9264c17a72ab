/** While a HIGH command is queued, no NORMAL command is handed over, at any attempt of either. */
module KernelPriority {
  import opened Prelude
  import opened Pending
  import opened Kernel
  import opened KernelInvariant
  import opened KernelRuns
  import opened KernelRaw
  import opened KernelOrder
  import opened KernelOrderRuns

  /** The command is queued as HIGH and its number occurs nowhere else. */
  predicate Alone(k: K, x: Item) {
    && x in k.high && k.activeSeq != Some(x.seqNo)
    && CountSeq(k.high, x.seqNo) == 1 && CountSeq(k.normal, x.seqNo) == 0 && CountSeq(k.waiting, x.seqNo) == 0
  }

  /** From `k` to `r` only HIGH commands were handed over. */
  predicate HighOnly(k: K, r: K) {
    forall i :: |k.handed| <= i < |r.handed| ==>
      r.handed[i].seqNo in r.accepted && r.accepted[r.handed[i].seqNo].high
  }

  /** The command stays queued and only HIGH commands are handed over; or it is gone for good;
      or it was handed over itself. */
  ghost predicate Yields(k: K, r: K, x: Item) {
    && Grown(k, r) && k.handed <= r.handed
    && ((Alone(r, x) && HighOnly(k, r)) || Silent(r, x.seqNo)
        || HandedCount(r.handed, x.seqNo) > HandedCount(k.handed, x.seqNo))
  }

  lemma {:induction false} CountGrows(h: seq<HandOff>, h': seq<HandOff>, s: int)
    requires h <= h'
    ensures HandedCount(h, s) <= HandedCount(h', s)
    decreases |h'|
  {
    if h' == h {
    } else {
      CountGrows(h, h'[..|h'| - 1], s);
    }
  }

  lemma YieldsSelf(k: K, x: Item)
    requires Alone(k, x)
    ensures Yields(k, k, x)
  {}

  lemma YieldsOn(k: K, k1: K, r: K, x: Item)
    requires Yields(k, k1, x) && Grown(k1, r) && k1.handed <= r.handed
    requires Alone(k1, x) ==> Yields(k1, r, x)
    requires Silent(k1, x.seqNo) ==> Silent(r, x.seqNo)
    ensures Yields(k, r, x)
  {
    hide Alone, Silent;
    CountGrows(k1.handed, r.handed, x.seqNo);
    CountGrows(k.handed, k1.handed, x.seqNo);
  }

  /** A step that leaves the queues alone. */
  lemma QuietYields(k: K, k1: K, r: K, x: Item)
    requires Quiet(k, k1) && Yields(k1, r, x)
    ensures Yields(k, r, x)
  {
    hide Alone, Silent, HandedCount;
  }

  lemma AloneStays(k: K, r: K, x: Item)
    requires Alone(k, x) && r.high == k.high && r.normal == k.normal && r.activeSeq != Some(x.seqNo)
    requires r.waiting == k.waiting || exists t :: r.waiting == Without(k.waiting, t)
    ensures Alone(r, x)
  {
    if t :| r.waiting == Without(k.waiting, t) {
      CountWithout(k.waiting, t, x.seqNo);
    }
  }

  lemma AloneFailed(k: K, s: int, why: Reason, x: Item)
    requires Alone(k, x)
    ensures Alone(FailQueued(k, s, why), x) && Alone(CancelRetry(k, s), x)
  {
    CountWithout(k.waiting, s, x.seqNo);
  }

  /** Taking a command off the head of HIGH. */
  lemma RestAlone(k: K, x: Item)
    requires Alone(k, x)
    ensures k.high != [] && Next(k).seqNo != x.seqNo ==> Alone(Rest(k), x)
    ensures k.high != [] && Next(k).seqNo == x.seqNo ==> Silent(Rest(k), x.seqNo)
  {}

  lemma RestHigh(k: K)
    requires Ranked(k) && k.high != []
    ensures Next(k).high
  {}

  lemma {:induction false} TrySendNextYields(c: Config, k: K, x: Item, now: real)
    requires Slot(k) && Ranked(k) && Alone(k, x)
    ensures Yields(k, TrySendNext(c, k, now), x)
    decreases Work(c, k), 0
  {
    hide Ranked, Placed, Planned, Within, Yields, Silent, Claims, Launch;
    if k.inFlight || !k.session {
      YieldsSelf(k, x);
    } else {
      var y, k1 := Next(k), Rest(k);
      RestAlone(k, x);
      RestRanked(k);
      RestHigh(k);
      if y.seqNo == x.seqNo {
        SelfYields(c, k, x, now);
      } else if PastDeadline(y, now) {
        var k2 := FailQueued(k1, y.seqNo, TimedOut);
        AloneFailed(k1, y.seqNo, TimedOut, x);
        QuietFollows(k1, k2);
        TrySendNextYields(c, k2, x, now);
        RestYields(k, k2, TrySendNext(c, k2, now), x);
      } else {
        LaunchYields(c, k1, y, x, now);
        RestYields(k, k1, Launch(c, k1, y, now), x);
      }
    }
  }

  lemma RestYields(k: K, k1: K, r: K, x: Item)
    requires Yields(k1, r, x) && k1.accepted == k.accepted && k1.handed == k.handed
    ensures Yields(k, r, x)
  {
    hide Alone, Silent, HandedCount;
  }

  /** The command itself is at the head of HIGH: it is handed over, or too late and gone. */
  lemma SelfYields(c: Config, k: K, x: Item, now: real)
    requires Slot(k) && Ranked(k) && Alone(k, x) && !k.inFlight && k.session
    requires Next(k).seqNo == x.seqNo
    ensures Yields(k, TrySendNext(c, k, now), x)
  {
    hide Ranked, Placed, Planned, Within, Launch, Claims;
    var y, k1 := Next(k), Rest(k);
    var r := TrySendNext(c, k, now);
    TrySendNextFollows(c, k, now);
    RestAlone(k, x);
    if PastDeadline(y, now) {
      FailKept(k1, y.seqNo, TimedOut, x.seqNo);
      TrySendNextKept(c, FailQueued(k1, y.seqNo, TimedOut), x.seqNo, now);
    } else {
      HeadFirst(c, k, now);
      OneMore(k.handed, r.handed, HandOff(y.seqNo, y.attempt, now, y.deadline));
    }
  }

  lemma OneMore(h: seq<HandOff>, h': seq<HandOff>, x: HandOff)
    requires h + [x] <= h'
    ensures HandedCount(h', x.seqNo) > HandedCount(h, x.seqNo)
  {
    CountGrows(h + [x], h', x.seqNo);
    assert (h + [x])[..|h + [x]| - 1] == h;
  }

  lemma {:induction false} LaunchYields(c: Config, k: K, y: Item, x: Item, now: real)
    requires Slot(k) && !k.inFlight && Ranked(k) && Placed(k, y) && Alone(k, x)
    requires y.high && y.seqNo != x.seqNo
    ensures Yields(k, Launch(c, k, y, now), x)
    decreases QueueWork(c, k) + Weight(c, y) - 1, 6
  {
    hide Ranked, Planned, Within, Yields, Silent, Claims, SendFailure;
    var k1 := Fill(k, y, now);
    FillPlan(k, y, now);
    AloneStays(k, k1, x);
    FillYields(k, y, x, now);
    match c.sendJson(y.seqNo, y.attempt)
    case Queued =>
      AloneStays(k1, Launch(c, k, y, now), x);
      YieldsSelf(k1, x);
      SameYields(k, k1, Launch(c, k, y, now), x);
    case Raises(io) =>
      SendFailureYields(c, k1, y.seqNo, io, x, now);
      SendFailureFollows(c, k1, y.seqNo, io, now);
      FollowsKeeps(k1, SendFailure(c, k1, y.seqNo, io, now));
      SendFailureKept(c, k1, y.seqNo, io, x.seqNo, now);
      YieldsOn(k, k1, SendFailure(c, k1, y.seqNo, io, now), x);
  }

  lemma FillYields(k: K, y: Item, x: Item, now: real)
    requires Placed(k, y) && y.high && Alone(k, x) && y.seqNo != x.seqNo
    ensures Yields(k, Fill(k, y, now), x)
  {}

  lemma SameYields(k: K, k1: K, r: K, x: Item)
    requires Yields(k, k1, x) && Alone(k1, x)
    requires r == k1.(due := r.due)
    ensures Yields(k, r, x)
  {}

  lemma {:induction false} CompleteYields(c: Config, k: K, x: Item, now: real)
    requires Slot(k) && Ranked(k) && Alone(k, x)
    ensures Yields(k, CompleteActive(c, k, now), x)
    decreases QueueWork(c, k), 1
  {
    hide Ranked, Planned, Within, Yields, Silent, TrySendNext;
    if k.released {
      YieldsSelf(k, x);
    } else {
      QuietFollows(k, Vacate(k));
      AloneStays(k, Vacate(k), x);
      TrySendNextYields(c, Vacate(k), x, now);
      QuietYields(k, Vacate(k), TrySendNext(c, Vacate(k), now), x);
    }
  }

  lemma PushAlone(k: K, y: Item, x: Item)
    requires Alone(k, x) && y.seqNo != x.seqNo
    ensures Alone(Push(k, y), x) && Alone(k.(high := [y] + k.high), x) && Alone(k.(waiting := k.waiting + [y]), x)
  {
    CountOne(k.high, y, x.seqNo);
    CountOne(k.normal, y, x.seqNo);
    CountOne(k.waiting, y, x.seqNo);
  }

  lemma {:induction false} EnqueueYields(c: Config, k: K, y: Item, x: Item, now: real)
    requires Slot(k) && Ranked(k) && Placed(k, y) && Alone(k, x) && y.seqNo != x.seqNo
    ensures Yields(k, Enqueue(c, k, y, now), x)
    decreases Work(c, k) + Weight(c, y), 1
  {
    hide Ranked, Placed, Planned, Within, Yields, Silent, Alone, TrySendNext;
    WeightsAppend(c, k.high, y);
    WeightsAppend(c, k.normal, y);
    PushRanked(k, y);
    PushAlone(k, y, x);
    TrySendNextYields(c, Push(k, y), x, now);
    RestYields(k, Push(k, y), TrySendNext(c, Push(k, y), now), x);
  }

  lemma {:induction false} RequeueYields(c: Config, k: K, y: Item, x: Item, now: real)
    requires Slot(k) && Ranked(k) && Placed(k, y) && y.attempt > 0 && Alone(k, x) && y.seqNo != x.seqNo
    ensures Yields(k, ScheduleRequeue(c, k, y, now), x)
    decreases Work(c, k) + Weight(c, y), 2
  {
    hide Ranked, Placed, Planned, Within, Yields, Silent, Alone, TrySendNext, Enqueue;
    if PastDeadline(y, now) {
      AloneFailed(k, y.seqNo, TimedOut, x);
      YieldsSelf(FailQueued(k, y.seqNo, TimedOut), x);
      RestYields(k, FailQueued(k, y.seqNo, TimedOut), FailQueued(k, y.seqNo, TimedOut), x);
    } else {
      var k1 := CancelRetry(k, y.seqNo);
      QuietFollows(k, k1);
      PlacedStays(k, k1, y, y);
      AloneFailed(k, y.seqNo, TimedOut, x);
      if IsDisarm(y) {
        HeadYields(c, k1, y, x, now);
        RestYields(k, k1, ScheduleRequeue(c, k, y, now), x);
      } else if Backoff(c, y.attempt) <= 0.0 {
        EnqueueYields(c, k1, y, x, now);
        RestYields(k, k1, Enqueue(c, k1, y, now), x);
      } else {
        PushAlone(k1, y, x);
        var r := k1.(waiting := k1.waiting + [y]);
        YieldsSelf(r, x);
        RestYields(k, r, r, x);
      }
    }
  }

  lemma {:induction false} HeadYields(c: Config, k: K, y: Item, x: Item, now: real)
    requires Slot(k) && Ranked(k) && Placed(k, y) && y.attempt > 0 && IsDisarm(y)
    requires Alone(k, x) && y.seqNo != x.seqNo
    ensures Yields(k, TrySendNext(c, k.(high := [y.(high := true)] + k.high), now), x)
    decreases Work(c, k) + Weight(c, y), 1
  {
    hide Ranked, Placed, Planned, Within, Yields, Silent, Alone, TrySendNext;
    var z := y.(high := true);
    var k1 := k.(high := [z] + k.high);
    WeightsPush(c, k.high, z);
    PlacedStays(k, k, y, z);
    HeadPlan(k, z);
    PushAlone(k, z, x);
    TrySendNextYields(c, k1, x, now);
    RestYields(k, k1, TrySendNext(c, k1, now), x);
  }

  lemma {:induction false} ResendYields(c: Config, k: K, x: Item, now: real)
    requires Slot(k) && k.inFlight && k.active.value.attempt < c.maxRetries && Ranked(k) && Alone(k, x)
    ensures Yields(k, Resend(c, k, now), x)
    decreases Work(c, k), 3, 1
  {
    hide Ranked, Yields, Alone, CompleteActive, ScheduleRequeue;
    var y := k.active.value.(attempt := k.active.value.attempt + 1);
    if IsDisarm(y) {
      ResendFirst(c, k, y, x, now);
    } else {
      ResendLater(c, k, y, x, now);
    }
  }

  lemma {:induction false} ResendFirst(c: Config, k: K, y: Item, x: Item, now: real)
    requires Slot(k) && k.inFlight && k.active.value.attempt < c.maxRetries && Ranked(k) && Alone(k, x)
    requires y == k.active.value.(attempt := k.active.value.attempt + 1) && IsDisarm(y)
    ensures var k1 := k.(correlations := k.correlations - {y.seqNo});
      var k3 := CancelRetry(k1, y.seqNo).(high := [y.(high := true)] + k1.high);
      Yields(k, CompleteActive(c, k3, now), x)
    decreases Work(c, k), 3, 0
  {
    hide Ranked, Placed, Planned, Within, Yields, Alone, CompleteActive;
    var k1 := k.(correlations := k.correlations - {y.seqNo});
    var z, k2 := y.(high := true), CancelRetry(k1, y.seqNo);
    WeightsPush(c, k1.high, z);
    QuietFollows(k, k2);
    ActivePlaced(k, k2, z);
    HeadPlan(k2, z);
    AloneKept(k, k1, x);
    NotActive(k, x);
    AloneFailed(k1, y.seqNo, TimedOut, x);
    PushAlone(k2, z, x);
    var k3 := k2.(high := [z] + k1.high);
    CompleteYields(c, k3, x, now);
    RestYields(k, k3, CompleteActive(c, k3, now), x);
  }

  lemma NotActive(k: K, x: Item)
    requires Slot(k) && Alone(k, x) && k.inFlight
    ensures k.active.value.seqNo != x.seqNo
  {}

  lemma {:induction false} ResendLater(c: Config, k: K, y: Item, x: Item, now: real)
    requires Slot(k) && k.inFlight && k.active.value.attempt < c.maxRetries && Ranked(k) && Alone(k, x)
    requires y == k.active.value.(attempt := k.active.value.attempt + 1)
    ensures var k2 := CompleteActive(c, k.(correlations := k.correlations - {y.seqNo}), now);
      Yields(k, ScheduleRequeue(c, k2, y, now), x)
    decreases Work(c, k), 3, 0
  {
    hide Ranked, Placed, Planned, Within, Follows, Yields, Silent, Claims, CompleteActive, ScheduleRequeue;
    var k1 := k.(correlations := k.correlations - {y.seqNo});
    QuietFollows(k, k1);
    AloneStays(k, k1, x);
    CompleteYields(c, k1, x, now);
    CompleteFollows(c, k1, now);
    var k2 := CompleteActive(c, k1, now);
    QuietYields(k, k1, k2, x);
    FollowsKeeps(k1, k2);
    ActivePlaced(k, k2, y);
    RetryWork(c, k, now);
    if Alone(k2, x) { RequeueYields(c, k2, y, x, now); }
    RequeueFollows(c, k2, y, now);
    FollowsKeeps(k2, ScheduleRequeue(c, k2, y, now));
    RequeueKept(c, k2, y, x.seqNo, now);
    YieldsOn(k, k2, ScheduleRequeue(c, k2, y, now), x);
  }

  lemma {:induction false} TransportFailureYields(c: Config, k: K, why: Reason, sent: bool, x: Item, now: real)
    requires Slot(k) && k.inFlight && Ranked(k) && Alone(k, x)
    ensures Yields(k, TransportFailure(c, k, why, sent, now), x)
    decreases Work(c, k), 4
  {
    hide Ranked, Planned, Within, Yields, Silent, Alone, Resend, CompleteActive;
    var a := k.active.value;
    if RetryAllowed(c, k.raw, a, sent, now) {
      ResendYields(c, k, x, now);
    } else {
      var k1 := FailSeq(k, a.seqNo, why);
      QuietFollows(k, k1);
      AloneKept(k, k1, x);
      CompleteYields(c, k1, x, now);
      QuietYields(k, k1, CompleteActive(c, k1, now), x);
    }
  }

  lemma AloneKept(k: K, r: K, x: Item)
    requires Alone(k, x) && r.high == k.high && r.normal == k.normal && r.waiting == k.waiting
    requires r.activeSeq == k.activeSeq
    ensures Alone(r, x)
  {}

  lemma {:induction false} SendFailureYields(c: Config, k: K, s: int, io: bool, x: Item, now: real)
    requires Slot(k) && Ranked(k) && Alone(k, x)
    ensures Yields(k, SendFailure(c, k, s, io, now), x)
    decreases Work(c, k), 5
  {
    hide Ranked, Planned, Within, Yields, Silent, Alone, TransportFailure, CompleteActive;
    var k1 := Disconnect(FailSeq(k, s, SendError), io);
    QuietFollows(k, k1);
    AloneKept(k, k1, x);
    if k.activeSeq != Some(s) {
      YieldsSelf(k1, x);
      QuietYields(k, k1, k1, x);
    } else if io {
      CompleteYields(c, k1, x, now);
      QuietYields(k, k1, CompleteActive(c, k1, now), x);
    } else {
      TransportFailureYields(c, k, SendError, false, x, now);
    }
  }

  // ---------------------------------------------------------------- events

  lemma {:induction false} CountOthers(q: seq<Item>, t: int, x: Item)
    requires x.seqNo != t
    ensures CountSeq(Without(q, t), x.seqNo) == CountSeq(q, x.seqNo)
    ensures x in q ==> x in Without(q, t)
  {
    if q != [] {
      CountOthers(q[1..], t, x);
      var rest := Without(q[1..], t);
      if q[0].seqNo == t {
        assert Without(q, t) == rest;
      } else {
        CountOne(rest, q[0], x.seqNo);
        assert Without(q, t) == [q[0]] + rest;
      }
    }
  }

  lemma SilentYields(k: K, r: K, x: Item)
    requires Silent(r, x.seqNo) && r.accepted == k.accepted && r.handed == k.handed
    ensures Yields(k, r, x)
  {}

  lemma UnqueuedYields(k: K, t: int, x: Item)
    requires Alone(k, x)
    ensures var r := RemoveQueued(CancelRetry(k, t), t);
      Yields(k, r, x) && (if t == x.seqNo then Silent(r, t) else Alone(r, x))
  {
    hide Yields, Claims, Silent, Alone;
    var r := RemoveQueued(CancelRetry(k, t), t);
    if t == x.seqNo {
      NotInSlot(k, x);
      UnqueuedSilent(k, t);
      SilentYields(k, r, x);
    } else {
      OthersAlone(k, t, x);
      YieldsSelf(r, x);
      RestYields(k, r, r, x);
    }
  }

  lemma NotInSlot(k: K, x: Item)
    requires Alone(k, x)
    ensures k.activeSeq != Some(x.seqNo)
  {}

  lemma OthersAlone(k: K, t: int, x: Item)
    requires Alone(k, x) && t != x.seqNo
    ensures Alone(RemoveQueued(CancelRetry(k, t), t), x)
  {
    CountOthers(k.high, t, x);
    CountOthers(k.normal, t, x);
    CountOthers(k.waiting, t, x);
  }

  lemma ReplyYields(k: K, t: int, x: Item)
    requires Alone(k, x)
    ensures Yields(k, ReplyArrived(k, t), x)
  {
    var k1, r := RemoveQueued(CancelRetry(k, t), t), ReplyArrived(k, t);
    hide Yields, Alone, Silent, Claims;
    UnqueuedYields(k, t, x);
    SameClaims(k1, r, x.seqNo);
    if t == x.seqNo {
      SilentYields(k, r, x);
    } else {
      AloneKept(k1, r, x);
      YieldsSelf(r, x);
      RestYields(k, r, r, x);
    }
  }

  lemma CancelYields(c: Config, k: K, t: int, removed: bool, x: Item, now: real)
    requires Slot(k) && Ranked(k) && Alone(k, x)
    ensures Yields(k, CancelCommand(c, k, t, removed, now), x)
  {
    var r := CancelCommand(c, k, t, removed, now);
    hide Ranked, Placed, Planned, Within, Alone, Silent, Claims, CompleteActive, RemoveQueued, CancelRetry;
    CancelFollows(c, k, t, removed, now);
    if t == x.seqNo {
      CancelSilences(c, k, t, removed, now);
    } else {
      CancelOther(c, k, t, removed, x, now);
    }
  }

  lemma CancelOther(c: Config, k: K, t: int, removed: bool, x: Item, now: real)
    requires Slot(k) && Ranked(k) && Alone(k, x) && t != x.seqNo
    ensures Yields(k, CancelCommand(c, k, t, removed, now), x)
  {
    hide Ranked, Placed, Planned, Within, Alone, Silent, Claims, CompleteActive, Yields;
    var k1 := RemoveQueued(CancelRetry(k, t), t);
    var k2 := if removed then k1.(due := k1.due - multiset{t}) else k1;
    var k3 := FailSeq(k2, t, CancelledByCaller);
    UnqueuedFollows(k, t);
    FollowsKeeps(k, k1);
    QuietFollows(k1, k3);
    UnqueuedYields(k, t, x);
    AloneKept(k1, k3, x);
    YieldsSelf(k3, x);
    RestYields(k, k3, k3, x);
    CompleteYields(c, k3, x, now);
    RestYields(k, k3, CompleteActive(c, k3, now), x);
  }

  lemma AbortYields(k: K, why: Reason, x: Item)
    requires Slot(k)
    ensures Yields(k, Abort(k, why), x) && Yields(k, Close(k), x)
  {
    var items := k.waiting + k.high + k.normal;
    var k1 := k.(waiting := [], high := [], normal := []);
    FailItemsFrame(if k.inFlight && k.activeSeq.Some? && !k.released
                   then Vacate(FailSeq(k1, k.activeSeq.value, why)) else k1, items, why);
    FailItemsFrame(if k.inFlight && k.activeSeq.Some? && !k.released
                   then Vacate(FailSeq(k1, k.activeSeq.value, KernelClosed)) else k1, items, KernelClosed);
  }

  lemma ReleaseYields(c: Config, k: K, y: Item, x: Item, now: real)
    requires Slot(k) && Ranked(k) && Alone(k, x) && y in k.waiting
    ensures Yields(k, ReleaseRetry(c, k, y, now), x)
  {
    var k1 := CancelRetry(k, y.seqNo);
    CountIn(k.waiting, y);
    assert Placed(k1, y);
    hide Ranked, Placed, Planned, Within, Yields, Enqueue;
    QuietFollows(k, k1);
    AloneFailed(k, y.seqNo, TimedOut, x);
    if PastDeadline(y, now) {
      AloneKept(k1, FailSeq(k1, y.seqNo, TimedOut), x);
      AloneFailed(k1, y.seqNo, TimedOut, x);
      YieldsSelf(FailQueued(k1, y.seqNo, TimedOut), x);
      RestYields(k, FailQueued(k1, y.seqNo, TimedOut), FailQueued(k1, y.seqNo, TimedOut), x);
    } else {
      EnqueueYields(c, k1, y, x, now);
      RestYields(k, k1, Enqueue(c, k1, y, now), x);
    }
  }

  lemma HighPlaced(k: K, x: Item)
    requires Ranked(k) && Alone(k, x)
    ensures x.seqNo in k.accepted
  {}

  lemma SubmitYields(c: Config, k: K, y: Item, withFuture: bool, x: Item, now: real)
    requires Slot(k) && Ranked(k) && Alone(k, x) && y.seqNo !in k.accepted
    ensures Yields(k, Submit(c, k, y, withFuture, now), x)
  {
    hide Ranked, Placed, Planned, Within, Alone, Yields, Enqueue;
    HighPlaced(k, x);
    if !k.session {
      YieldsSelf(k, x);
    } else {
      var k1, z := Admit(c, k, y, withFuture, now), Prepare(c, y, now);
      AdmitRanked(c, k, y, withFuture, now);
      AloneKept(k, k1, x);
      EnqueueYields(c, k1, z, x, now);
      GrownYields(k, k1, Enqueue(c, k1, z, now), x);
    }
  }

  lemma GrownYields(k: K, k1: K, r: K, x: Item)
    requires Yields(k1, r, x) && Grown(k, k1) && k1.handed == k.handed
    ensures Yields(k, r, x)
  {
    hide Alone, Silent, HandedCount;
  }

  lemma QueuesYield(k: K, r: K, x: Item)
    requires Alone(k, x) && r.high == k.high && r.normal == k.normal && r.waiting == k.waiting
    requires r.activeSeq == k.activeSeq && r.accepted == k.accepted && r.handed == k.handed
    ensures Yields(k, r, x) && Alone(r, x)
  {}

  lemma DispatchYields(c: Config, k: K, t: int, x: Item, now: real)
    requires Slot(k) && Ranked(k) && Alone(k, x)
    ensures Yields(k, ReplyDispatched(c, k, t, now), x)
  {
    hide Ranked, Planned, Within, Alone, Yields, CompleteActive;
    var k1 := k.(timer := None);
    QueuesYield(k, k, x);
    QueuesYield(k, k1, x);
    QuietFollows(k, k1);
    CompleteYields(c, k1, x, now);
    RestYields(k, k1, CompleteActive(c, k1, now), x);
  }

  lemma TimeoutYields(c: Config, k: K, t: int, x: Item, now: real)
    requires Slot(k) && Ranked(k) && Alone(k, x)
    ensures Yields(k, ReplyTimeout(c, k, t, now), x)
  {
    hide Ranked, Planned, Within, Alone, Yields, TransportFailure;
    var k1 := k.(timer := None);
    QueuesYield(k, k1, x);
    QuietFollows(k, k1);
    if k.inFlight && k.activeSeq == Some(t) {
      TransportFailureYields(c, k1, TimedOut, k.sentAt.Some?, x, now);
      RestYields(k, k1, TransportFailure(c, k1, TimedOut, k.sentAt.Some?, now), x);
    }
  }

  lemma SendFailsYields(c: Config, k: K, t: int, io: bool, x: Item, now: real)
    requires Slot(k) && Ranked(k) && Alone(k, x)
    ensures Yields(k, SendFailure(c, k.(due := k.due - multiset{t}), t, io, now), x)
  {
    hide Ranked, Planned, Within, Alone, Yields, SendFailure;
    var k1 := k.(due := k.due - multiset{t});
    QueuesYield(k, k1, x);
    QuietFollows(k, k1);
    SendFailureYields(c, k1, t, io, x, now);
    RestYields(k, k1, SendFailure(c, k1, t, io, now), x);
  }

  lemma StepYields(c: Config, k: K, e: Event, x: Item, now: real)
    requires Slot(k) && Enabled(k, e) && Ranked(k) && Alone(k, x)
    ensures Yields(k, Step(c, k, e, now), x)
  {
    hide Ranked, Alone, Yields, SendFailure, ReplyDispatched, ReplyTimeout, ReleaseRetry, CancelCommand,
         Abort, Close, TrySendNext, ReplyArrived, Submit;
    match e
    case Submits(y, withFuture) => SubmitYields(c, k, y, withFuture, x, now);
    case Sent(t) => QueuesYield(k, Step(c, k, e, now), x);
    case SendFails(t, io) => SendFailsYields(c, k, t, io, x, now);
    case Replies(t) => ReplyYields(k, t, x);
    case Dispatched(t) => DispatchYields(c, k, t, x, now);
    case TimerFires(t) => TimeoutYields(c, k, t, x, now);
    case RetryReleases(y) => ReleaseYields(c, k, y, x, now);
    case Cancels(t, removed) => CancelYields(c, k, t, removed, x, now);
    case LinkLost => QueuesYield(k, Step(c, k, e, now), x);
    case Disconnected => AbortYields(k, ConnectionLost, x);
    case Closes => AbortYields(k, KernelClosed, x);
    case Connects => QueuesYield(k, Step(c, k, e, now), x);
    case Idles => TrySendNextYields(c, k, x, now);
    case MarksRaw(t) => QueuesYield(k, Step(c, k, e, now), x);
    case FinishesRaw(t) => QueuesYield(k, Step(c, k, e, now), x);
  }

  // ---------------------------------------------------------------- runs

  /** A step does not bring a silent accepted number back. */
  lemma StepSilent(c: Config, k: K, e: Event, s: int, now: real)
    requires Slot(k) && Enabled(k, e) && s in k.accepted && Silent(k, s)
    ensures Silent(Step(c, k, e, now), s)
  {
    hide Silent, Step;
    if e.Submits? {
      SubmitSilent(c, k, e.item, e.withFuture, s, now);
    } else {
      StepKept(c, k, e, s, now);
    }
  }

  lemma SubmitSilent(c: Config, k: K, y: Item, withFuture: bool, s: int, now: real)
    requires Slot(k) && Enabled(k, Submits(y, withFuture)) && s in k.accepted && Silent(k, s)
    ensures Silent(Step(c, k, Submits(y, withFuture), now), s)
  {
    hide Silent, Submit;
    SubmitKept(c, k, y, withFuture, s, now);
  }

  lemma StepHands(c: Config, k: K, e: Event, now: real)
    requires Slot(k) && Enabled(k, e) && Ranked(k)
    ensures k.handed <= Step(c, k, e, now).handed
  {
    hide Ranked, Planned, Within, Submit;
    if e.Submits? {
      SubmitHands(c, k, e.item, e.withFuture, now);
    } else {
      StepFollows(c, k, e, now);
    }
  }

  lemma SubmitHands(c: Config, k: K, x: Item, withFuture: bool, now: real)
    requires Slot(k) && Ranked(k) && x.seqNo !in k.accepted
    ensures k.handed <= Submit(c, k, x, withFuture, now).handed
  {
    hide Ranked, Planned, Within, Enqueue, Placed;
    if k.session {
      AdmitRanked(c, k, x, withFuture, now);
      EnqueueFollows(c, Admit(c, k, x, withFuture, now), Prepare(c, x, now), now);
    }
  }

  lemma {:induction false} RunYields(c: Config, before: seq<Timed>, rest: seq<Timed>, x: Item)
    requires Possible(c, before) && Possible(c, before + rest) && Alone(After(c, before), x)
    requires x.seqNo in After(c, before).accepted
    ensures Yields(After(c, before), After(c, before + rest), x)
    decreases |rest|
  {
    hide Step, Enabled, Alone, Silent, Ranked, Planned;
    if rest == [] {
      assert before + rest == before;
      YieldsSelf(After(c, before), x);
    } else {
      var run, last := before + rest[..|rest| - 1], rest[|rest| - 1];
      LastStep(c, before, rest);
      RunOrdered(c, run);
      RunYields(c, before, rest[..|rest| - 1], x);
      MoreYields(c, After(c, before), After(c, run), last.event, x, last.at);
    }
  }

  lemma MoreYields(c: Config, k0: K, k: K, e: Event, x: Item, now: real)
    requires Slot(k) && Enabled(k, e) && Ordered(k) && x.seqNo in k0.accepted && Yields(k0, k, x)
    ensures Yields(k0, Step(c, k, e, now), x)
  {
    assert Grown(k0, k) && x.seqNo in k.accepted;
    hide Step, Enabled, Alone, Silent, Ranked, Yields, Planned;
    var r := Step(c, k, e, now);
    StepGrown(c, k, e, now);
    StepHands(c, k, e, now);
    if Alone(k, x) { StepYields(c, k, e, x, now); }
    if Silent(k, x.seqNo) { StepSilent(c, k, e, x.seqNo, now); }
    YieldsOn(k0, k, r, x);
  }

  lemma QueuedAlone(c: Config, k: K, x: Item)
    requires Inv(c, k, []) && x in k.high
    ensures Alone(k, x) && x.seqNo in k.accepted && HandedCount(k.handed, x.seqNo) == x.attempt
    ensures !Silent(k, x.seqNo)
  {
    var v := ViewOf(k, []);
    assert x in v.idle && IdleOk(c, v, x);
    PlacesFromView(c, k, x.seqNo);
    CountIn(k.high, x);
  }

  /** While a HIGH command stays queued, every command handed over is HIGH: between any two
      moments of any run at which it is queued, no NORMAL command is handed to the transport. */
  lemma NormalWaits(c: Config, before: seq<Timed>, rest: seq<Timed>, x: Item, i: nat)
    requires Possible(c, before) && Possible(c, before + rest)
    requires x in After(c, before).high && x in After(c, before + rest).high
    requires |After(c, before).handed| <= i < |After(c, before + rest).handed|
    ensures var k := After(c, before + rest);
      k.handed[i].seqNo in k.accepted && k.accepted[k.handed[i].seqNo].high
  {
    hide Step, Enabled, Inv, Alone, Silent;
    RunKeeps(c, before);
    RunKeeps(c, before + rest);
    QueuedAlone(c, After(c, before), x);
    QueuedAlone(c, After(c, before + rest), x);
    RunYields(c, before, rest, x);
  }
}
