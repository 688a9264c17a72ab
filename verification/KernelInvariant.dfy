/** What every run of the scheduler keeps: no command is lost or duplicated, and no command
    is handed to the transport more often, later, or with less right than it may be. */
module KernelInvariant {
  import opened Prelude
  import opened Pending
  import opened Kernel

  /** Sent again under no circumstances. */
  predicate NeverRetried(x: Item) {
    IsKeepalive(x) || (x.route.Some? && x.route.value in RETRIES_DISABLED)
  }

  /** The same command at another attempt or priority. */
  predicate SameCommand(x: Item, y: Item) { x.(attempt := y.attempt, high := y.high) == y }

  function HandedCount(h: seq<HandOff>, s: int): nat {
    if h == [] then 0
    else HandedCount(h[..|h| - 1], s) + (if h[|h| - 1].seqNo == s then 1 else 0)
  }

  /** What the invariant reads of a state. `idle` are the commands outside the slot: queued,
      waiting out a backoff, or on their way between such places (`transit`). */
  datatype View = View(
    idle: multiset<Item>, active: Option<Item>, sent: bool, timer: Option<int>,
    unresolved: set<int>, correlations: set<int>, accepted: map<int, Item>,
    handed: seq<HandOff>, confirmed: multiset<int>, due: multiset<int>)

  function ViewOf(k: K, transit: seq<Item>): View {
    View(multiset(k.high) + multiset(k.normal) + multiset(k.waiting) + multiset(transit),
         k.active, k.sentAt.Some?, k.timer, k.book.waiting, k.correlations, k.accepted,
         k.handed, multiset(k.confirmed), k.due)
  }

  predicate CommandOk(c: Config, v: View, x: Item) {
    && x.seqNo in v.accepted && SameCommand(x, v.accepted[x.seqNo])
    && x.attempt <= Retries(c)
    && (NeverRetried(x) ==> x.attempt == 0)
  }

  predicate IdleOk(c: Config, v: View, x: Item) {
    && CommandOk(c, v, x)
    && v.idle[x] == 1
    && HandedCount(v.handed, x.seqNo) == x.attempt
    && v.due[x.seqNo] == 0
    && v.timer != Some(x.seqNo)
    && (!RetryAfterSendAllowed(x) ==> v.confirmed[x.seqNo] == 0)
    && (v.active.Some? ==> v.active.value.seqNo != x.seqNo)
  }

  predicate ActiveOk(c: Config, v: View, x: Item) {
    && CommandOk(c, v, x)
    && HandedCount(v.handed, x.seqNo) == x.attempt + 1
    && (v.sent ==> v.due[x.seqNo] == 0)
    && (v.timer == Some(x.seqNo) ==> v.sent)
    && (!RetryAfterSendAllowed(x) && !v.sent ==> v.confirmed[x.seqNo] == 0)
  }

  predicate HistoryOk(c: Config, v: View, s: int) {
    && v.due[s] <= 1
    && (s !in v.accepted ==>
          HandedCount(v.handed, s) == 0 && v.confirmed[s] == 0 && v.due[s] == 0 && v.timer != Some(s))
    && (s in v.accepted ==>
          && HandedCount(v.handed, s) <= Retries(c) + 1
          && (NeverRetried(v.accepted[s]) ==> HandedCount(v.handed, s) <= 1)
          && (!RetryAfterSendAllowed(v.accepted[s]) ==> v.confirmed[s] + v.due[s] <= 1))
  }

  predicate InTime(v: View, h: HandOff) {
    && h.seqNo in v.accepted && h.deadline == v.accepted[h.seqNo].deadline
    && (h.deadline > 0.0 ==> h.at < h.deadline)
  }

  ghost predicate Holds(v: View, s: int) {
    (v.active.Some? && v.active.value.seqNo == s) || exists x :: x in v.idle && x.seqNo == s
  }

  ghost predicate IdleInv(c: Config, v: View) { forall x :: x in v.idle ==> IdleOk(c, v, x) }

  ghost predicate OnePlace(v: View) {
    forall x, y :: x in v.idle && y in v.idle && x.seqNo == y.seqNo ==> x == y
  }

  ghost predicate HistoryInv(c: Config, v: View) { forall s :: HistoryOk(c, v, s) }

  ghost predicate TimeInv(v: View) { forall h :: h in v.handed ==> InTime(v, h) }

  ghost predicate NothingLost(v: View) {
    forall s :: s in v.accepted && s in v.unresolved ==> Holds(v, s)
  }

  ghost predicate OwnCorrelation(v: View) {
    forall s :: s in v.correlations ==> v.active.Some? && v.active.value.seqNo == s
  }

  ghost predicate InvView(c: Config, v: View) {
    && IdleInv(c, v) && OnePlace(v) && HistoryInv(c, v) && TimeInv(v) && NothingLost(v)
    && OwnCorrelation(v) && (v.active.Some? ==> ActiveOk(c, v, v.active.value))
  }

  ghost predicate Inv(c: Config, k: K, transit: seq<Item>) {
    Slot(k) && InvView(c, ViewOf(k, transit))
  }

  // ---------------------------------------------------------------- moves on views

  /** Fewer unresolved futures and fewer correlations never break anything. */
  lemma Settled(c: Config, v: View, v': View)
    requires InvView(c, v)
    requires v' == v.(unresolved := v'.unresolved, correlations := v'.correlations)
    requires v'.unresolved <= v.unresolved && v'.correlations <= v.correlations
    ensures InvView(c, v')
  {
    forall x | x in v'.idle ensures IdleOk(c, v', x) { assert IdleOk(c, v, x); }
    forall s ensures HistoryOk(c, v', s) { assert HistoryOk(c, v, s); }
    forall h | h in v'.handed ensures InTime(v', h) { assert InTime(v, h); }
    forall s | s in v'.accepted && s in v'.unresolved ensures Holds(v', s) {
      assert Holds(v, s);
    }
  }

  /** Idle commands whose future is completed may leave. */
  lemma Left(c: Config, v: View, v': View, s: int)
    requires InvView(c, v) && s !in v.unresolved
    requires v' == v.(idle := v'.idle)
    requires forall x :: v'.idle[x] == if x.seqNo == s then 0 else v.idle[x]
    ensures InvView(c, v')
  {
    forall x | x in v'.idle ensures IdleOk(c, v', x) && x in v.idle {
      assert v'.idle[x] == v.idle[x];
      assert IdleOk(c, v, x);
    }
    forall t ensures HistoryOk(c, v', t) { assert HistoryOk(c, v, t); }
    forall h | h in v'.handed ensures InTime(v', h) { assert InTime(v, h); }
    forall t | t in v'.accepted && t in v'.unresolved ensures Holds(v', t) {
      assert Holds(v, t);
      if x :| x in v.idle && x.seqNo == t {
        assert v'.idle[x] == v.idle[x];
      }
    }
  }

  lemma LeftOne(c: Config, v: View, x: Item)
    requires InvView(c, v) && x in v.idle && x.seqNo !in v.unresolved
    ensures InvView(c, v.(idle := v.idle - multiset{x}))
  {
    var v' := v.(idle := v.idle - multiset{x});
    assert IdleOk(c, v, x);
    forall y ensures v'.idle[y] == if y.seqNo == x.seqNo then 0 else v.idle[y] {
      if y.seqNo == x.seqNo && y != x { assert y !in v.idle; }
    }
    Left(c, v, v', x.seqNo);
  }

  function Entered(v: View, x: Item, now: real, due: bool): View {
    v.(idle := v.idle - multiset{x}, active := Some(x), sent := false,
       correlations := if x.pending then v.correlations + {x.seqNo} else v.correlations,
       handed := v.handed + [HandOff(x.seqNo, x.attempt, now, x.deadline)],
       due := if due then v.due + multiset{x.seqNo} else v.due)
  }

  /** An idle command takes the free slot and is handed to the transport. */
  lemma Filled(c: Config, v: View, x: Item, now: real, due: bool)
    requires InvView(c, v) && v.active == None && x in v.idle && !PastDeadline(x, now)
    ensures InvView(c, Entered(v, x, now, due))
    ensures v.due[x.seqNo] == 0
  {
    var v' := Entered(v, x, now, due);
    assert IdleOk(c, v, x);
    FilledCounts(v, x, now, due);
    FilledIdle(c, v, x, now, due);
    forall s ensures HistoryOk(c, v', s) { assert HistoryOk(c, v, s); }
    FilledInTime(v, v', x, now);
    FilledHolds(v, x, now, due);
  }

  lemma FilledCounts(v: View, x: Item, now: real, due: bool)
    ensures forall s :: HandedCount(Entered(v, x, now, due).handed, s)
                        == HandedCount(v.handed, s) + (if s == x.seqNo then 1 else 0)
  {}

  lemma FilledIdle(c: Config, v: View, x: Item, now: real, due: bool)
    requires IdleInv(c, v) && OnePlace(v) && x in v.idle
    ensures IdleInv(c, Entered(v, x, now, due)) && OnePlace(Entered(v, x, now, due))
  {
    var v' := Entered(v, x, now, due);
    assert IdleOk(c, v, x);
    FilledCounts(v, x, now, due);
    forall y | y in v'.idle ensures IdleOk(c, v', y) {
      assert y in v.idle && IdleOk(c, v, y);
      assert y.seqNo != x.seqNo;
    }
  }

  lemma FilledHolds(v: View, x: Item, now: real, due: bool)
    requires NothingLost(v) && v.active == None && x in v.idle
    ensures NothingLost(Entered(v, x, now, due))
  {
    var v' := Entered(v, x, now, due);
    forall s | s in v'.accepted && s in v'.unresolved ensures Holds(v', s) {
      assert Holds(v, s);
      var y :| y in v.idle && y.seqNo == s;
      if s != x.seqNo { assert y in v'.idle; }
    }
  }

  lemma FilledInTime(v: View, v': View, x: Item, now: real)
    requires TimeInv(v) && v'.accepted == v.accepted && x.seqNo in v.accepted
    requires SameCommand(x, v.accepted[x.seqNo]) && !PastDeadline(x, now)
    requires v'.handed == v.handed + [HandOff(x.seqNo, x.attempt, now, x.deadline)]
    ensures TimeInv(v')
  {}

  function Emptied(v: View): View { v.(active := None, sent := false, timer := None) }

  /** The slot is freed of a command whose future is completed. */
  lemma Vacated(c: Config, v: View)
    requires InvView(c, v) && v.active.Some?
    requires v.active.value.seqNo !in v.unresolved && v.active.value.seqNo !in v.correlations
    ensures InvView(c, Emptied(v))
  {
    var v' := Emptied(v);
    forall s ensures HistoryOk(c, v', s) { assert HistoryOk(c, v, s); }
    forall h | h in v'.handed ensures InTime(v', h) { assert InTime(v, h); }
    forall x | x in v'.idle ensures IdleOk(c, v', x) { assert IdleOk(c, v, x); }
    forall s | s in v'.accepted && s in v'.unresolved ensures Holds(v', s) { assert Holds(v, s); }
  }

  /** The slot is freed of a command that will be tried again: it is idle meanwhile. */
  lemma Retried(c: Config, v: View, y: Item)
    requires InvView(c, v) && v.active.Some?
    requires y == v.active.value.(attempt := v.active.value.attempt + 1, high := y.high)
    requires v.due[y.seqNo] == 0 && v.active.value.attempt < c.maxRetries && !NeverRetried(y)
    requires v.sent ==> RetryAfterSendAllowed(y)
    requires y.seqNo !in v.correlations
    ensures InvView(c, Emptied(v).(idle := v.idle + multiset{y}))
  {
    var v' := Emptied(v).(idle := v.idle + multiset{y});
    assert ActiveOk(c, v, v.active.value);
    RetriedIdle(c, v, y);
    forall s ensures HistoryOk(c, v', s) { assert HistoryOk(c, v, s); }
    forall h | h in v'.handed ensures InTime(v', h) { assert InTime(v, h); }
    RetriedHolds(v, y);
  }

  lemma RetriedIdle(c: Config, v: View, y: Item)
    requires IdleInv(c, v) && OnePlace(v) && v.active.Some? && ActiveOk(c, v, v.active.value)
    requires y == v.active.value.(attempt := v.active.value.attempt + 1, high := y.high)
    requires v.due[y.seqNo] == 0 && v.active.value.attempt < c.maxRetries && !NeverRetried(y)
    requires v.sent ==> RetryAfterSendAllowed(y)
    ensures var v' := Emptied(v).(idle := v.idle + multiset{y}); IdleInv(c, v') && OnePlace(v')
  {
    var v' := Emptied(v).(idle := v.idle + multiset{y});
    forall z | z in v.idle ensures z.seqNo != y.seqNo { assert IdleOk(c, v, z); }
    forall z | z in v'.idle ensures IdleOk(c, v', z) {
      if z != y { assert IdleOk(c, v, z); }
    }
  }

  lemma RetriedHolds(v: View, y: Item)
    requires NothingLost(v) && v.active.Some? && y.seqNo == v.active.value.seqNo
    ensures NothingLost(Emptied(v).(idle := v.idle + multiset{y}))
  {
    var v' := Emptied(v).(idle := v.idle + multiset{y});
    forall s | s in v'.accepted && s in v'.unresolved ensures Holds(v', s) {
      assert Holds(v, s);
      if y.seqNo == s {
        assert y in v'.idle;
      } else {
        var z :| z in v.idle && z.seqNo == s;
        assert z in v'.idle;
      }
    }
  }

  // ---------------------------------------------------------------- moves on states

  lemma TransitView(k: K, x: Item, transit: seq<Item>)
    ensures ViewOf(k, [x] + transit) == ViewOf(k, transit).(idle := ViewOf(k, transit).idle + multiset{x})
    ensures ViewOf(k, [x] + transit).idle - multiset{x} == ViewOf(k, transit).idle
  {}

  lemma {:induction false} WithoutCounts(q: seq<Item>, s: int, x: Item)
    ensures multiset(Without(q, s))[x] == if x.seqNo == s then 0 else multiset(q)[x]
    decreases |q|
  {
    if q != [] {
      WithoutCounts(q[1..], s, x);
      assert q == [q[0]] + q[1..];
    }
  }

  lemma {:induction false} WithoutNone(q: seq<Item>, s: int)
    requires forall x :: x in q ==> x.seqNo != s
    ensures Without(q, s) == q
    decreases |q|
  {
    if q != [] {
      WithoutNone(q[1..], s);
      assert q == [q[0]] + q[1..];
    }
  }

  /** Cancelling a retry and unqueueing a number removes exactly its commands. */
  lemma Unqueued(c: Config, k: K, s: int)
    requires Inv(c, k, []) && s !in k.book.waiting
    ensures Inv(c, RemoveQueued(CancelRetry(k, s), s), [])
  {
    var k' := RemoveQueued(CancelRetry(k, s), s);
    var v, v' := ViewOf(k, []), ViewOf(k', []);
    forall x ensures v'.idle[x] == if x.seqNo == s then 0 else v.idle[x] {
      WithoutCounts(k.high, s, x);
      WithoutCounts(k.normal, s, x);
      WithoutCounts(k.waiting, s, x);
    }
    Left(c, v, v', s);
  }

  /** A command in transit has no second copy among those waiting out a backoff. */
  lemma TransitAlone(c: Config, k: K, x: Item, transit: seq<Item>)
    requires Inv(c, k, [x] + transit)
    ensures CancelRetry(k, x.seqNo) == k
  {
    var v := ViewOf(k, [x] + transit);
    TransitView(k, x, transit);
    assert IdleOk(c, v, x);
    forall y | y in k.waiting ensures y.seqNo != x.seqNo {
      assert y in v.idle && multiset(k.waiting)[y] >= 1;
    }
    WithoutNone(k.waiting, x.seqNo);
  }

  /** A command in transit is given up with its future failed. */
  lemma Dropped(c: Config, k: K, x: Item, transit: seq<Item>, why: Reason)
    requires Inv(c, k, [x] + transit)
    ensures Inv(c, FailQueued(k, x.seqNo, why), transit)
  {
    TransitAlone(c, k, x, transit);
    var k1 := FailSeq(k, x.seqNo, why);
    TransitView(k1, x, transit);
    Settled(c, ViewOf(k, [x] + transit), ViewOf(k1, [x] + transit));
    LeftOne(c, ViewOf(k1, [x] + transit), x);
  }

  /** A command in transit joins a queue, at either end, or the waiting ones: its view stays. */
  lemma PlacedView(k: K, x: Item, transit: seq<Item>)
    ensures ViewOf(Push(k, x), transit) == ViewOf(k, [x] + transit)
    ensures ViewOf(k.(high := [x] + k.high), transit) == ViewOf(k, [x] + transit)
    ensures ViewOf(k.(waiting := k.waiting + [x]), transit) == ViewOf(k, [x] + transit)
  {
    var h, n, w, t := multiset(k.high), multiset(k.normal), multiset(k.waiting), multiset(transit);
    MoveOne(h, n, w, t, x);
    Around(k.high, x);
    Around(k.normal, x);
    Around(k.waiting, x);
    Around(transit, x);
  }

  lemma Around(q: seq<Item>, x: Item)
    ensures multiset([x] + q) == multiset(q) + multiset{x} == multiset(q + [x])
  {}

  lemma MoveOne(h: multiset<Item>, n: multiset<Item>, w: multiset<Item>, t: multiset<Item>, x: Item)
    ensures h + n + w + (t + multiset{x}) == (h + multiset{x}) + n + w + t
    ensures h + n + w + (t + multiset{x}) == h + (n + multiset{x}) + w + t
    ensures h + n + w + (t + multiset{x}) == h + n + (w + multiset{x}) + t
  {}

  /** The command at the head of a queue, taken off it, is in transit. */
  lemma PoppedView(k: K, transit: seq<Item>)
    ensures k.high != [] ==>
      ViewOf(k.(high := k.high[1..]), [k.high[0]] + transit) == ViewOf(k, transit)
    ensures k.normal != [] ==>
      ViewOf(k.(normal := k.normal[1..]), [k.normal[0]] + transit) == ViewOf(k, transit)
  {
    var h, n, w, t := multiset(k.high), multiset(k.normal), multiset(k.waiting), multiset(transit);
    if k.high != [] {
      var x, rest := k.high[0], k.high[1..];
      assert k.high == [x] + rest;
      Around(rest, x);
      Around(transit, x);
      MoveOne(multiset(rest), n, w, t, x);
    }
    if k.normal != [] {
      var x, rest := k.normal[0], k.normal[1..];
      assert k.normal == [x] + rest;
      Around(rest, x);
      Around(transit, x);
      MoveOne(h, multiset(rest), w, t, x);
    }
  }

  lemma FilledView(k: K, x: Item, transit: seq<Item>, now: real)
    requires k.sentAt == None
    ensures var k1, v := Fill(k, x, now), ViewOf(k, [x] + transit);
      && ViewOf(k1, transit) == Entered(v, x, now, false)
      && ViewOf(k1.(due := k1.due + multiset{x.seqNo}), transit) == Entered(v, x, now, true)
  {}

  // ---------------------------------------------------------------- the self-calling functions

  lemma PoppedKeeps(c: Config, k: K, transit: seq<Item>)
    requires Inv(c, k, transit) && (k.high != [] || k.normal != [])
    ensures Inv(c, Rest(k), [Next(k)] + transit)
  {
    PoppedView(k, transit);
  }

  lemma {:induction false} TrySendNextKeeps(c: Config, k: K, now: real, transit: seq<Item>)
    requires Inv(c, k, transit)
    ensures Inv(c, TrySendNext(c, k, now), transit)
    decreases Work(c, k), 0
  {
    hide InvView;
    if !k.inFlight && (k.high != [] || k.normal != []) && k.session {
      var x, k1 := Next(k), Rest(k);
      PoppedKeeps(c, k, transit);
      if PastDeadline(x, now) {
        Dropped(c, k1, x, transit, TimedOut);
        TrySendNextKeeps(c, FailQueued(k1, x.seqNo, TimedOut), now, transit);
      } else {
        LaunchKeeps(c, k1, x, now, transit);
      }
    }
  }

  lemma {:induction false} LaunchKeeps(c: Config, k: K, x: Item, now: real, transit: seq<Item>)
    requires Inv(c, k, [x] + transit) && !k.inFlight && !PastDeadline(x, now)
    ensures Inv(c, Launch(c, k, x, now), transit)
    decreases QueueWork(c, k) + Weight(c, x) - 1, 6
  {
    hide InvView;
    HandedOver(c, k, x, transit, now);
    var result := c.sendJson(x.seqNo, x.attempt);
    if result.Raises? {
      SendFailureKeeps(c, Fill(k, x, now), x.seqNo, result.io, now, transit);
    }
  }

  lemma HandedOver(c: Config, k: K, x: Item, transit: seq<Item>, now: real)
    requires Inv(c, k, [x] + transit) && !k.inFlight && !PastDeadline(x, now)
    ensures var k1 := Fill(k, x, now);
      && Inv(c, k1, transit) && Inv(c, k1.(due := k1.due + multiset{x.seqNo}), transit)
      && k1.due[x.seqNo] == 0 && k1.sentAt == None
  {
    FilledView(k, x, transit, now);
    var v := ViewOf(k, [x] + transit);
    TransitView(k, x, transit);
    assert x in v.idle;
    Filled(c, v, x, now, true);
    Filled(c, v, x, now, false);
  }

  lemma {:induction false} CompleteKeeps(c: Config, k: K, now: real, transit: seq<Item>)
    requires Slot(k) && k.inFlight && Inv(c, Vacate(k), transit)
    ensures Inv(c, CompleteActive(c, k, now), transit)
    decreases QueueWork(c, k), 1
  {
    hide InvView;
    TrySendNextKeeps(c, Vacate(k), now, transit);
  }

  lemma {:induction false} EnqueueKeeps(c: Config, k: K, x: Item, now: real, transit: seq<Item>)
    requires Inv(c, k, [x] + transit)
    ensures Inv(c, Enqueue(c, k, x, now), transit)
    decreases Work(c, k) + Weight(c, x), 1
  {
    hide InvView;
    WeightsAppend(c, k.high, x);
    WeightsAppend(c, k.normal, x);
    PlacedView(k, x, transit);
    TrySendNextKeeps(c, Push(k, x), now, transit);
  }

  lemma {:induction false} RequeueKeeps(c: Config, k: K, x: Item, now: real, transit: seq<Item>)
    requires Inv(c, k, [x] + transit) && !IsDisarm(x)
    ensures Inv(c, ScheduleRequeue(c, k, x, now), transit)
    decreases Work(c, k) + Weight(c, x), 2
  {
    hide InvView;
    TransitAlone(c, k, x, transit);
    if PastDeadline(x, now) {
      Dropped(c, k, x, transit, TimedOut);
    } else if Backoff(c, x.attempt) <= 0.0 {
      EnqueueKeeps(c, k, x, now, transit);
    } else {
      PlacedView(k, x, transit);
    }
  }

  lemma Uncorrelated(c: Config, k: K, s: int, transit: seq<Item>)
    requires Inv(c, k, transit)
    ensures Inv(c, k.(correlations := k.correlations - {s}), transit)
  {
    hide InvView;
    Settled(c, ViewOf(k, transit), ViewOf(k.(correlations := k.correlations - {s}), transit));
  }

  lemma FreedView(k: K, y: Item, transit: seq<Item>)
    ensures ViewOf(Vacate(k), [y] + transit)
         == Emptied(ViewOf(k, transit)).(idle := ViewOf(k, transit).idle + multiset{y})
  {
    TransitView(Vacate(k), y, transit);
  }

  /** The view of a freed slot whose command is in transit to its next attempt. */
  lemma RetriedView(c: Config, k: K, y: Item, transit: seq<Item>)
    requires Inv(c, k, transit) && k.inFlight
    requires y == k.active.value.(attempt := k.active.value.attempt + 1, high := y.high)
    requires k.due[y.seqNo] == 0 && k.active.value.attempt < c.maxRetries && !NeverRetried(y)
    requires k.sentAt.Some? ==> RetryAfterSendAllowed(y)
    ensures Inv(c, Vacate(k.(correlations := k.correlations - {y.seqNo})), [y] + transit)
  {
    hide InvView, NeverRetried, RetryAfterSendAllowed, Emptied;
    var k1 := k.(correlations := k.correlations - {y.seqNo});
    Uncorrelated(c, k, y.seqNo, transit);
    FreedView(k1, y, transit);
    Retried(c, ViewOf(k1, transit), y);
  }

  lemma {:induction false} TransportFailureKeeps(c: Config, k: K, why: Reason, now: real, transit: seq<Item>)
    requires Inv(c, k, transit) && k.inFlight && k.due[k.active.value.seqNo] == 0
    ensures Inv(c, TransportFailure(c, k, why, k.sentAt.Some?, now), transit)
    decreases Work(c, k), 4
  {
    hide InvView, Resend, CompleteActive;
    var x := k.active.value;
    if RetryAllowed(c, k.raw, x, k.sentAt.Some?, now) {
      ResendKeeps(c, k, now, transit);
    } else {
      GivenUp(c, k, transit, why);
      CompleteKeeps(c, FailSeq(k, x.seqNo, why), now, transit);
    }
  }

  lemma {:induction false} ResendKeeps(c: Config, k: K, now: real, transit: seq<Item>)
    requires Inv(c, k, transit) && k.inFlight && k.due[k.active.value.seqNo] == 0
    requires RetryAllowed(c, k.raw, k.active.value, k.sentAt.Some?, now)
    ensures Inv(c, Resend(c, k, now), transit)
    decreases Work(c, k), 3
  {
    hide InvView, CompleteActive, ScheduleRequeue;
    if IsDisarm(k.active.value) {
      DisarmKeeps(c, k, now, transit);
    } else {
      var y := k.active.value.(attempt := k.active.value.attempt + 1);
      var k2 := RetryFreed(c, k, y, now, transit);
      RequeueKeeps(c, k2, y, now, transit);
    }
  }

  /** Freeing the slot may fill it again before the retried command is put away. */
  lemma {:induction false} RetryFreed(c: Config, k: K, y: Item, now: real, transit: seq<Item>) returns (k2: K)
    requires Inv(c, k, transit) && k.inFlight && k.due[k.active.value.seqNo] == 0
    requires RetryAllowed(c, k.raw, k.active.value, k.sentAt.Some?, now) && !IsDisarm(k.active.value)
    requires y == k.active.value.(attempt := k.active.value.attempt + 1)
    ensures k2 == CompleteActive(c, k.(correlations := k.correlations - {y.seqNo}), now)
    ensures Inv(c, k2, [y] + transit) && Work(c, k2) + Weight(c, y) <= Work(c, k)
    decreases Work(c, k), 2, 0
  {
    hide InvView;
    var k1 := k.(correlations := k.correlations - {y.seqNo});
    RetriedView(c, k, y, transit);
    CompleteKeeps(c, k1, now, [y] + transit);
    RetryWork(c, k, now);
    k2 := CompleteActive(c, k1, now);
  }

  lemma RetryWork(c: Config, k: K, now: real)
    requires Slot(k) && k.inFlight && k.active.value.attempt < c.maxRetries
    ensures var x := k.active.value;
      var k1 := k.(correlations := k.correlations - {x.seqNo});
      Work(c, CompleteActive(c, k1, now)) + Weight(c, x.(attempt := x.attempt + 1)) <= Work(c, k)
  {
    var x := k.active.value;
    var k1 := k.(correlations := k.correlations - {x.seqNo});
    assert QueueWork(c, k1) == QueueWork(c, k);
  }

  /** The command in the slot fails for good and the slot is freed. */
  lemma GivenUp(c: Config, k: K, transit: seq<Item>, why: Reason)
    requires Inv(c, k, transit) && k.inFlight
    ensures Inv(c, Vacate(FailSeq(k, k.active.value.seqNo, why)), transit)
  {
    var k1 := FailSeq(k, k.active.value.seqNo, why);
    Settled(c, ViewOf(k, transit), ViewOf(k1, transit));
    Vacated(c, ViewOf(k1, transit));
    assert ViewOf(Vacate(k1), transit) == Emptied(ViewOf(k1, transit));
  }

  /** A disarm goes back to the head of the HIGH queue before the slot is freed. */
  lemma {:induction false} DisarmKeeps(c: Config, k: K, now: real, transit: seq<Item>)
    requires Inv(c, k, transit) && k.inFlight && k.due[k.active.value.seqNo] == 0
    requires RetryAllowed(c, k.raw, k.active.value, k.sentAt.Some?, now)
    ensures var x := k.active.value;
      var k1 := k.(correlations := k.correlations - {x.seqNo});
      var z := x.(attempt := x.attempt + 1, high := true);
      Inv(c, CompleteActive(c, CancelRetry(k1, x.seqNo).(high := [z] + k1.high), now), transit)
    decreases Work(c, k), 2
  {
    hide InvView;
    var x := k.active.value;
    var k1 := k.(correlations := k.correlations - {x.seqNo});
    var z := x.(attempt := x.attempt + 1, high := true);
    DisarmRequeued(c, k, now, transit);
    WeightsPush(c, k1.high, z);
    CompleteKeeps(c, k1.(high := [z] + k1.high), now, transit);
  }

  lemma DisarmRequeued(c: Config, k: K, now: real, transit: seq<Item>)
    requires Inv(c, k, transit) && k.inFlight && k.due[k.active.value.seqNo] == 0
    requires RetryAllowed(c, k.raw, k.active.value, k.sentAt.Some?, now)
    ensures var x := k.active.value;
      var k1 := k.(correlations := k.correlations - {x.seqNo});
      var z := x.(attempt := x.attempt + 1, high := true);
      && CancelRetry(k1, x.seqNo) == k1
      && Inv(c, Vacate(k1.(high := [z] + k1.high)), transit)
  {
    hide InvView;
    var x := k.active.value;
    var k1 := k.(correlations := k.correlations - {x.seqNo});
    var z := x.(attempt := x.attempt + 1, high := true);
    RetriedView(c, k, z, transit);
    TransitAlone(c, Vacate(k1), z, transit);
    PlacedView(Vacate(k1), z, transit);
    assert Vacate(k1.(high := [z] + k1.high)) == Vacate(k1).(high := [z] + Vacate(k1).high);
  }

  /** A send failure reaches a command in the slot only before its send was confirmed. */
  lemma {:induction false} SendFailureKeeps(c: Config, k: K, s: int, io: bool, now: real, transit: seq<Item>)
    requires Inv(c, k, transit) && k.due[s] == 0
    requires k.activeSeq == Some(s) ==> k.sentAt.None?
    ensures Inv(c, SendFailure(c, k, s, io, now), transit)
    decreases Work(c, k), 5
  {
    hide TransportFailure, CompleteActive;
    var k1 := Disconnect(FailSeq(k, s, SendError), io);
    Settled(c, ViewOf(k, transit), ViewOf(k1, transit));
    if k.activeSeq == Some(s) {
      if io {
        GivenUp(c, k, transit, SendError);
        assert ViewOf(Vacate(k1), transit) == ViewOf(Vacate(FailSeq(k, s, SendError)), transit);
        CompleteKeeps(c, k1, now, transit);
      } else {
        TransportFailureKeeps(c, k, SendError, now, transit);
      }
    }
  }
}
