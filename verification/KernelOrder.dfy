/** The order in which the scheduler hands commands over: first attempts in the order of their
    submission within a priority, HIGH before NORMAL, and never an idle slot. */
module KernelOrder {
  import opened Prelude
  import opened Pending
  import opened Kernel
  import opened KernelRuns

  // ---------------------------------------------------------------- orders

  /** An occurrence of `a` stands before one of `b`. */
  predicate Before(l: seq<int>, a: int, b: int) {
    exists i, j :: 0 <= i < j < |l| && l[i] == a && l[j] == b
  }

  /** The elements of `l` are elements of `m`, and in no other order. */
  ghost predicate Within(l: seq<int>, m: seq<int>) {
    && (forall a :: a in l ==> a in m)
    && (forall a, b :: Before(l, a, b) ==> Before(m, a, b))
  }

  ghost predicate NoRepeat(l: seq<int>) { forall a :: !Before(l, a, a) }

  lemma BeforeConcat(l: seq<int>, m: seq<int>, a: int, b: int)
    ensures Before(l + m, a, b) <==> Before(l, a, b) || Before(m, a, b) || (a in l && b in m)
  {
    var n := l + m;
    if Before(n, a, b) {
      var i, j :| 0 <= i < j < |n| && n[i] == a && n[j] == b;
      if i >= |l| { assert m[i - |l|] == a && m[j - |l|] == b; }
    }
    if Before(l, a, b) {
      var i, j :| 0 <= i < j < |l| && l[i] == a && l[j] == b;
      assert n[i] == a && n[j] == b;
    }
    if Before(m, a, b) {
      var i, j :| 0 <= i < j < |m| && m[i] == a && m[j] == b;
      assert n[|l| + i] == a && n[|l| + j] == b;
    }
    if a in l && b in m {
      var i :| 0 <= i < |l| && l[i] == a;
      var j :| 0 <= j < |m| && m[j] == b;
      assert n[i] == a && n[|l| + j] == b;
    }
  }

  lemma WithinSelf(l: seq<int>)
    ensures Within(l, l)
  {}

  lemma WithinConcat(l: seq<int>, m: seq<int>, l': seq<int>, m': seq<int>)
    requires Within(l, l') && Within(m, m')
    ensures Within(l + m, l' + m')
  {
    forall a, b | Before(l + m, a, b) ensures Before(l' + m', a, b) {
      BeforeConcat(l, m, a, b);
      BeforeConcat(l', m', a, b);
    }
  }

  lemma WithinNone(l: seq<int>)
    ensures Within([], l)
  {}

  // ---------------------------------------------------------------- the plan

  function FirstsOf(h: seq<HandOff>): seq<int> {
    if h == [] then []
    else FirstsOf(h[..|h| - 1]) + if h[|h| - 1].attempt == 0 then [h[|h| - 1].seqNo] else []
  }

  function One(x: Item): seq<int> { if x.attempt == 0 then [x.seqNo] else [] }

  /** The commands of a queue that have not been tried yet. */
  function Fresh(q: seq<Item>): seq<int> { if q == [] then [] else One(q[0]) + Fresh(q[1..]) }

  /** First attempts made, and then those to be made as the queues stand. */
  function Planned(k: K): seq<int> { FirstsOf(k.handed) + Fresh(k.high) + Fresh(k.normal) }

  lemma {:induction false} FreshConcat(p: seq<Item>, q: seq<Item>)
    ensures Fresh(p + q) == Fresh(p) + Fresh(q)
  {
    if p == [] {
      assert p + q == q;
    } else {
      assert (p + q)[1..] == p[1..] + q;
      FreshConcat(p[1..], q);
    }
  }

  lemma FreshOne(q: seq<Item>, x: Item)
    ensures Fresh(q + [x]) == Fresh(q) + One(x) && Fresh([x] + q) == One(x) + Fresh(q)
  {
    FreshConcat(q, [x]);
    FreshConcat([x], q);
    assert [x][1..] == [] && Fresh([x]) == One(x) + [];
  }

  lemma {:induction false} FreshWithout(q: seq<Item>, s: int)
    ensures Within(Fresh(Without(q, s)), Fresh(q))
  {
    if q == [] {
      WithinSelf([]);
    } else {
      FreshWithout(q[1..], s);
      FreshConcat(if q[0].seqNo == s then [] else [q[0]], Without(q[1..], s));
      FreshOne([], q[0]);
      assert [q[0]] + [] == [q[0]] && [] + [q[0]] == [q[0]];
      WithinSelf(One(q[0]));
      WithinNone(One(q[0]));
      WithinConcat(if q[0].seqNo == s then [] else One(q[0]), Fresh(Without(q[1..], s)), One(q[0]), Fresh(q[1..]));
    }
  }

  // ---------------------------------------------------------------- every step of the scheduler

  /** A command keeps the priority it was accepted with, and a disarm is HIGH. */
  predicate Placed(k: K, x: Item) {
    x.seqNo in k.accepted && k.accepted[x.seqNo].high == x.high && (IsDisarm(x) ==> x.high)
  }

  /** HIGH holds HIGH commands only, NORMAL only others; what waits has been tried. */
  predicate Ranked(k: K) {
    && (forall x :: x in k.high ==> x.high && Placed(k, x))
    && (forall x :: x in k.normal ==> !x.high && Placed(k, x))
    && (forall x :: x in k.waiting ==> x.attempt > 0 && Placed(k, x))
    && (k.active.Some? ==> Placed(k, k.active.value))
  }

  /** With a session, the slot is not free while a command is queued. */
  predicate Busy(k: K) { k.session ==> k.inFlight || (k.high == [] && k.normal == []) }

  /** What the scheduler may do by itself: only append hand-offs, in the planned order. */
  ghost predicate Follows(k: K, r: K, plan: seq<int>) {
    Ranked(r) && r.accepted == k.accepted && k.handed <= r.handed && Within(Planned(r), plan)
  }

  /** A step that touches neither the queues nor what the transport saw. */
  predicate Quiet(k: K, r: K) {
    && r.accepted == k.accepted && r.handed == k.handed && r.high == k.high && r.normal == k.normal
    && (r.active == k.active || r.active.None?) && forall x :: x in r.waiting ==> x in k.waiting
  }

  lemma FollowsSelf(k: K)
    requires Ranked(k)
    ensures Follows(k, k, Planned(k))
  {
    WithinSelf(Planned(k));
  }

  lemma QuietFollows(k: K, r: K)
    requires Quiet(k, r) && Ranked(k)
    ensures Ranked(r) && Planned(r) == Planned(k) && Follows(k, r, Planned(k))
  {
    WithinSelf(Planned(k));
  }

  lemma FollowsOn(k: K, k1: K, r: K, plan: seq<int>)
    requires Follows(k1, r, Planned(k1)) && Within(Planned(k1), plan)
    requires k1.accepted == k.accepted && k.handed <= k1.handed
    ensures Follows(k, r, plan)
  {
    hide Planned, Ranked, Before;
  }

  lemma QuietOn(k: K, k1: K, r: K)
    requires Quiet(k, k1) && Follows(k1, r, Planned(k1))
    ensures Follows(k, r, Planned(k))
  {
    hide Ranked, Within;
  }

  lemma FollowsTwo(k: K, k1: K, r: K)
    requires Follows(k, k1, Planned(k)) && Follows(k1, r, Planned(k1))
    ensures Follows(k, r, Planned(k))
  {
    hide Planned, Ranked;
  }

  lemma PlacedStays(k: K, r: K, x: Item, y: Item)
    requires Placed(k, x) && r.accepted == k.accepted && y.seqNo == x.seqNo
    requires IsDisarm(y) == IsDisarm(x) && (y.high == x.high || (IsDisarm(x) && y.high))
    ensures Placed(r, y)
  {}

  /** Taking the next command out of its queue leaves it first in the plan. */
  lemma RestPlan(k: K)
    requires k.high != [] || k.normal != []
    ensures Planned(k) == FirstsOf(k.handed) + One(Next(k)) + Fresh(Rest(k).high) + Fresh(Rest(k).normal)
  {
    var f, x := FirstsOf(k.handed), Next(k);
    if k.high != [] {
      assert k.high == [x] + k.high[1..];
      FreshOne(k.high[1..], x);
    } else {
      assert k.normal == [x] + k.normal[1..];
      FreshOne(k.normal[1..], x);
      assert f + [] == f && f + One(x) + [] == f + One(x);
    }
  }

  lemma RestRanked(k: K)
    requires (k.high != [] || k.normal != []) && Ranked(k)
    ensures Ranked(Rest(k)) && Placed(Rest(k), Next(k))
    ensures Rest(k).handed == k.handed && Rest(k).accepted == k.accepted
  {}

  /** Dropping a command from the plan. */
  lemma DropPlan(f: seq<int>, x: seq<int>, g: seq<int>, h: seq<int>)
    ensures Within(f + g + h, f + x + g + h)
  {
    WithinSelf(f);
    WithinSelf(g);
    WithinSelf(h);
    WithinNone(x);
    WithinConcat(f, [], f, x);
    assert f + [] == f;
    WithinConcat(f, g, f + x, g);
    WithinConcat(f + g, h, f + x + g, h);
  }

  lemma RestWithin(k: K)
    requires k.high != [] || k.normal != []
    ensures Within(Planned(Rest(k)), Planned(k))
  {
    hide Within, Fresh, FirstsOf;
    RestPlan(k);
    DropPlan(FirstsOf(k.handed), One(Next(k)), Fresh(Rest(k).high), Fresh(Rest(k).normal));
  }

  lemma FillPlan(k: K, x: Item, now: real)
    requires Ranked(k) && Placed(k, x)
    ensures var r := Fill(k, x, now);
      && Ranked(r) && r.accepted == k.accepted && k.handed <= r.handed
      && Planned(r) == FirstsOf(k.handed) + One(x) + Fresh(k.high) + Fresh(k.normal)
      && r.handed == k.handed + [HandOff(x.seqNo, x.attempt, now, x.deadline)]
  {
    assert Fill(k, x, now).handed[..|k.handed|] == k.handed;
  }

  lemma PushRanked(k: K, x: Item)
    requires Ranked(k) && Placed(k, x)
    ensures Ranked(Push(k, x))
  {}

  /** A command that has been tried is not in the plan. */
  lemma PushPlan(k: K, x: Item)
    ensures Planned(Push(k, x))
         == if x.high then FirstsOf(k.handed) + (Fresh(k.high) + One(x)) + Fresh(k.normal)
            else FirstsOf(k.handed) + Fresh(k.high) + (Fresh(k.normal) + One(x))
    ensures x.attempt > 0 ==> Planned(Push(k, x)) == Planned(k)
  {
    FreshOne(k.high, x);
    FreshOne(k.normal, x);
    assert Fresh(k.high) + [] == Fresh(k.high);
    assert Fresh(k.normal) + [] == Fresh(k.normal);
  }

  lemma HeadPlan(k: K, x: Item)
    requires Ranked(k) && Placed(k, x) && x.attempt > 0 && x.high
    ensures var r := k.(high := [x] + k.high);
      Ranked(r) && Planned(r) == Planned(k) && r.accepted == k.accepted && r.handed == k.handed
  {
    FreshOne(k.high, x);
    assert [] + Fresh(k.high) == Fresh(k.high);
  }

  lemma {:induction false} TrySendNextFollows(c: Config, k: K, now: real)
    requires Slot(k) && Ranked(k)
    ensures Follows(k, TrySendNext(c, k, now), Planned(k)) && Busy(TrySendNext(c, k, now))
    decreases Work(c, k), 0
  {
    hide Ranked, Placed, Planned, Within, Follows, Launch;
    if k.inFlight || (k.high == [] && k.normal == []) || !k.session {
      FollowsSelf(k);
    } else {
      var x, k1 := Next(k), Rest(k);
      RestRanked(k);
      if PastDeadline(x, now) {
        var k2 := FailQueued(k1, x.seqNo, TimedOut);
        QuietFollows(k1, k2);
        TrySendNextFollows(c, k2, now);
        RestWithin(k);
        FollowsOn(k, k2, TrySendNext(c, k2, now), Planned(k));
      } else {
        RestPlan(k);
        LaunchFollows(c, k1, x, now);
        LaunchOn(c, k, x, now);
      }
    }
  }

  lemma LaunchOn(c: Config, k: K, x: Item, now: real)
    requires k.high != [] || k.normal != []
    requires Slot(Rest(k)) && !k.inFlight
    requires Follows(Rest(k), Launch(c, Rest(k), x, now), Planned(k))
    ensures Follows(k, Launch(c, Rest(k), x, now), Planned(k))
  {
    hide Planned, Within, Ranked, Launch;
  }

  lemma {:induction false} LaunchFollows(c: Config, k: K, x: Item, now: real)
    requires Slot(k) && !k.inFlight && Ranked(k) && Placed(k, x)
    ensures Follows(k, Launch(c, k, x, now), FirstsOf(k.handed) + One(x) + Fresh(k.high) + Fresh(k.normal))
    ensures Busy(Launch(c, k, x, now))
    decreases QueueWork(c, k) + Weight(c, x) - 1, 6
  {
    hide Ranked, Placed, Planned, Within, Follows, Fresh, FirstsOf, SendFailure;
    var k1 := Fill(k, x, now);
    FillPlan(k, x, now);
    WithinSelf(Planned(k1));
    match c.sendJson(x.seqNo, x.attempt)
    case Queued =>
      QuietFollows(k1, k1.(due := k1.due + multiset{x.seqNo}));
      FollowsOn(k, k1, Launch(c, k, x, now), Planned(k1));
    case Raises(io) =>
      SendFailureFollows(c, k1, x.seqNo, io, now);
      FollowsOn(k, k1, SendFailure(c, k1, x.seqNo, io, now), Planned(k1));
  }

  lemma {:induction false} CompleteFollows(c: Config, k: K, now: real)
    requires Slot(k) && Ranked(k)
    ensures Follows(k, CompleteActive(c, k, now), Planned(k))
    ensures !k.released || Busy(k) ==> Busy(CompleteActive(c, k, now))
    decreases QueueWork(c, k), 1
  {
    hide Ranked, Planned, Within, Follows, TrySendNext;
    if k.released {
      FollowsSelf(k);
    } else {
      QuietFollows(k, Vacate(k));
      TrySendNextFollows(c, Vacate(k), now);
      QuietOn(k, Vacate(k), TrySendNext(c, Vacate(k), now));
    }
  }

  lemma {:induction false} EnqueueFollows(c: Config, k: K, x: Item, now: real)
    requires Slot(k) && Ranked(k) && Placed(k, x)
    ensures Follows(k, Enqueue(c, k, x, now), Planned(Push(k, x))) && Busy(Enqueue(c, k, x, now))
    decreases Work(c, k) + Weight(c, x), 1
  {
    hide Ranked, Placed, Planned, Within, Follows, TrySendNext, Fresh, FirstsOf;
    WeightsAppend(c, k.high, x);
    WeightsAppend(c, k.normal, x);
    PushRanked(k, x);
    TrySendNextFollows(c, Push(k, x), now);
    WithinSelf(Planned(Push(k, x)));
    FollowsOn(k, Push(k, x), TrySendNext(c, Push(k, x), now), Planned(Push(k, x)));
  }

  lemma {:induction false} RequeueFollows(c: Config, k: K, x: Item, now: real)
    requires Slot(k) && Ranked(k) && Placed(k, x) && x.attempt > 0
    ensures Follows(k, ScheduleRequeue(c, k, x, now), Planned(k))
    ensures Busy(k) ==> Busy(ScheduleRequeue(c, k, x, now))
    decreases Work(c, k) + Weight(c, x), 2
  {
    hide Ranked, Placed, Planned, Within, Follows, TrySendNext, Enqueue, Fresh, FirstsOf;
    if PastDeadline(x, now) {
      QuietFollows(k, FailQueued(k, x.seqNo, TimedOut));
    } else {
      var k1 := CancelRetry(k, x.seqNo);
      QuietFollows(k, k1);
      PlacedStays(k, k1, x, x);
      if IsDisarm(x) {
        DisarmHead(c, k1, x, now);
        QuietOn(k, k1, ScheduleRequeue(c, k, x, now));
      } else if Backoff(c, x.attempt) <= 0.0 {
        PushPlan(k1, x);
        EnqueueFollows(c, k1, x, now);
        QuietOn(k, k1, Enqueue(c, k1, x, now));
      } else {
        WaitFollows(k1, x);
        QuietOn(k, k1, k1.(waiting := k1.waiting + [x]));
      }
    }
  }

  lemma WaitFollows(k: K, x: Item)
    requires Ranked(k) && Placed(k, x) && x.attempt > 0
    ensures Follows(k, k.(waiting := k.waiting + [x]), Planned(k))
  {
    WithinSelf(Planned(k));
  }

  lemma {:induction false} DisarmHead(c: Config, k: K, x: Item, now: real)
    requires Slot(k) && Ranked(k) && Placed(k, x) && x.attempt > 0 && IsDisarm(x)
    ensures var k1 := k.(high := [x.(high := true)] + k.high);
      Follows(k, TrySendNext(c, k1, now), Planned(k)) && Busy(TrySendNext(c, k1, now))
    decreases Work(c, k) + Weight(c, x), 1
  {
    hide Ranked, Placed, Planned, Within, Follows, TrySendNext, Fresh, FirstsOf;
    var y := x.(high := true);
    var k1 := k.(high := [y] + k.high);
    WeightsPush(c, k.high, y);
    PlacedStays(k, k, x, y);
    HeadPlan(k, y);
    TrySendNextFollows(c, k1, now);
    WithinSelf(Planned(k));
    FollowsOn(k, k1, TrySendNext(c, k1, now), Planned(k));
  }

  /** The command in the slot, as it goes to its next attempt. */
  lemma ActivePlaced(k: K, r: K, y: Item)
    requires Ranked(k) && k.active.Some? && r.accepted == k.accepted
    requires y == k.active.value.(attempt := y.attempt, high := y.high)
    requires y.high == k.active.value.high || (IsDisarm(y) && y.high)
    ensures Placed(r, y)
  {}

  lemma {:induction false} ResendFollows(c: Config, k: K, now: real)
    requires Slot(k) && k.inFlight && k.active.value.attempt < c.maxRetries && Ranked(k)
    ensures Follows(k, Resend(c, k, now), Planned(k)) && Busy(Resend(c, k, now))
    decreases Work(c, k), 3
  {
    hide Ranked, Placed, Planned, Within, Follows, CompleteActive, ScheduleRequeue, Fresh, FirstsOf;
    var x := k.active.value;
    var k1 := k.(correlations := k.correlations - {x.seqNo});
    var y := x.(attempt := x.attempt + 1);
    if IsDisarm(y) {
      var z, k2 := y.(high := true), CancelRetry(k1, y.seqNo);
      WeightsPush(c, k1.high, z);
      QuietFollows(k, k2);
      ActivePlaced(k, k2, z);
      HeadPlan(k2, z);
      var k3 := k2.(high := [z] + k1.high);
      CompleteFollows(c, k3, now);
      WithinSelf(Planned(k));
      FollowsOn(k, k3, CompleteActive(c, k3, now), Planned(k));
    } else {
      QuietFollows(k, k1);
      CompleteFollows(c, k1, now);
      var k2 := CompleteActive(c, k1, now);
      QuietOn(k, k1, k2);
      FollowsKeeps(k, k2);
      ActivePlaced(k, k2, y);
      RequeueFollows(c, k2, y, now);
      FollowsTwo(k, k2, ScheduleRequeue(c, k2, y, now));
    }
  }

  lemma FollowsKeeps(k: K, r: K)
    requires Follows(k, r, Planned(k))
    ensures Ranked(r) && r.accepted == k.accepted && k.handed <= r.handed
  {}

  lemma {:induction false} TransportFailureFollows(c: Config, k: K, why: Reason, sent: bool, now: real)
    requires Slot(k) && k.inFlight && Ranked(k)
    ensures Follows(k, TransportFailure(c, k, why, sent, now), Planned(k))
    ensures Busy(TransportFailure(c, k, why, sent, now))
    decreases Work(c, k), 4
  {
    hide Ranked, Planned, Within, Follows, Resend, CompleteActive;
    var x := k.active.value;
    if RetryAllowed(c, k.raw, x, sent, now) {
      ResendFollows(c, k, now);
    } else {
      var k1 := FailSeq(k, x.seqNo, why);
      QuietFollows(k, k1);
      CompleteFollows(c, k1, now);
      QuietOn(k, k1, CompleteActive(c, k1, now));
    }
  }

  lemma {:induction false} SendFailureFollows(c: Config, k: K, s: int, io: bool, now: real)
    requires Slot(k) && Ranked(k)
    ensures Follows(k, SendFailure(c, k, s, io, now), Planned(k))
    ensures Busy(k) ==> Busy(SendFailure(c, k, s, io, now))
    decreases Work(c, k), 5
  {
    hide Ranked, Planned, Within, Follows, TransportFailure, CompleteActive;
    var k1 := Disconnect(FailSeq(k, s, SendError), io);
    QuietFollows(k, k1);
    if k.activeSeq == Some(s) {
      if io {
        CompleteFollows(c, k1, now);
        QuietOn(k, k1, CompleteActive(c, k1, now));
      } else {
        TransportFailureFollows(c, k, SendError, false, now);
      }
    }
  }

  // ---------------------------------------------------------------- what is handed over next

  lemma LaunchHands(c: Config, k: K, x: Item, now: real)
    requires Slot(k) && !k.inFlight && Ranked(k) && Placed(k, x)
    ensures k.handed + [HandOff(x.seqNo, x.attempt, now, x.deadline)] <= Launch(c, k, x, now).handed
  {
    hide Ranked, Placed, Planned, Follows, SendFailure;
    var k1 := Fill(k, x, now);
    FillPlan(k, x, now);
    match c.sendJson(x.seqNo, x.attempt)
    case Queued =>
    case Raises(io) =>
      SendFailureFollows(c, k1, x.seqNo, io, now);
      FollowsKeeps(k1, SendFailure(c, k1, x.seqNo, io, now));
  }

  /** A free slot takes the head of HIGH, and the head of NORMAL only when HIGH is empty. */
  lemma HeadFirst(c: Config, k: K, now: real)
    requires Slot(k) && Ranked(k) && !k.inFlight && k.session && (k.high != [] || k.normal != [])
    requires !PastDeadline(if k.high != [] then k.high[0] else k.normal[0], now)
    ensures var x := if k.high != [] then k.high[0] else k.normal[0];
      k.handed + [HandOff(x.seqNo, x.attempt, now, x.deadline)] <= TrySendNext(c, k, now).handed
  {
    hide Ranked, Placed, Launch;
    RestRanked(k);
    LaunchHands(c, Rest(k), Next(k), now);
  }

  lemma FreedHeadFirst(c: Config, k: K, now: real)
    requires Slot(k) && Ranked(k) && k.inFlight && k.session && (k.high != [] || k.normal != [])
    requires !PastDeadline(if k.high != [] then k.high[0] else k.normal[0], now)
    ensures var x := if k.high != [] then k.high[0] else k.normal[0];
      k.handed + [HandOff(x.seqNo, x.attempt, now, x.deadline)] <= CompleteActive(c, k, now).handed
  {
    hide Ranked, TrySendNext;
    QuietFollows(k, Vacate(k));
    HeadFirst(c, Vacate(k), now);
  }

  /** The next hand-off after a retried disarm fails is its own next attempt. */
  lemma DisarmRetriedNext(c: Config, k: K, why: Reason, sent: bool, now: real)
    requires Slot(k) && Ranked(k) && k.inFlight && k.session && IsDisarm(k.active.value)
    requires RetryAllowed(c, k.raw, k.active.value, sent, now)
    ensures var x := k.active.value;
      k.handed + [HandOff(x.seqNo, x.attempt + 1, now, x.deadline)]
        <= TransportFailure(c, k, why, sent, now).handed
  {
    hide Ranked, Placed, Planned, CompleteActive, Fresh, FirstsOf;
    var x := k.active.value;
    var k1 := k.(correlations := k.correlations - {x.seqNo});
    var z, k2 := x.(attempt := x.attempt + 1, high := true), CancelRetry(k1, x.seqNo);
    QuietFollows(k, k2);
    ActivePlaced(k, k2, z);
    HeadPlan(k2, z);
    FreedHeadFirst(c, k2.(high := [z] + k1.high), now);
  }

  // ---------------------------------------------------------------- events

  lemma UnqueuedFollows(k: K, s: int)
    requires Ranked(k)
    ensures Follows(k, RemoveQueued(CancelRetry(k, s), s), Planned(k))
    ensures Busy(k) ==> Busy(RemoveQueued(CancelRetry(k, s), s))
  {
    hide Within, Fresh, FirstsOf, Ranked;
    UnqueuedRanked(k, s);
    var f := FirstsOf(k.handed);
    WithinSelf(f);
    FreshWithout(k.high, s);
    FreshWithout(k.normal, s);
    WithinConcat(f, Fresh(Without(k.high, s)), f, Fresh(k.high));
    WithinConcat(f + Fresh(Without(k.high, s)), Fresh(Without(k.normal, s)), f + Fresh(k.high), Fresh(k.normal));
  }

  lemma UnqueuedRanked(k: K, s: int)
    requires Ranked(k)
    ensures Ranked(RemoveQueued(CancelRetry(k, s), s))
  {}

  lemma AbortFollows(k: K, why: Reason)
    requires Slot(k) && Ranked(k)
    ensures Follows(k, Abort(k, why), Planned(k)) && Busy(Abort(k, why))
  {
    AbortFields(k, why);
    var items := k.waiting + k.high + k.normal;
    var k1 := k.(waiting := [], high := [], normal := []);
    FailItemsFrame(if k.inFlight && k.activeSeq.Some? && !k.released
                   then Vacate(FailSeq(k1, k.activeSeq.value, why)) else k1, items, why);
    EmptiedFollows(k, Abort(k, why));
  }

  lemma EmptiedFollows(k: K, r: K)
    requires r.high == r.normal == r.waiting == [] && r.active == None
    requires r.handed == k.handed && r.accepted == k.accepted
    ensures Follows(k, r, Planned(k))
  {
    var f, g, h := FirstsOf(k.handed), Fresh(k.high), Fresh(k.normal);
    DropPlan(f, g, [], h);
    DropPlan(f, h, [], []);
    assert f + [] == f && f + h + [] == f + h && f + g + [] == f + g && f + [] + h == f + h;
    assert f + g + [] + h == f + g + h && f + [] + [] == f && f + h + [] + [] == f + h;
    assert Within(f, f + h) && Within(f + h, f + g + h);
  }

  lemma ReleaseFollows(c: Config, k: K, x: Item, now: real)
    requires Slot(k) && Ranked(k) && x in k.waiting
    ensures Follows(k, ReleaseRetry(c, k, x, now), Planned(k))
    ensures Busy(k) ==> Busy(ReleaseRetry(c, k, x, now))
  {
    var k1 := CancelRetry(k, x.seqNo);
    assert Placed(k1, x) && x.attempt > 0;
    hide Ranked, Placed, Planned, Within, Follows, Enqueue, Fresh, FirstsOf;
    QuietFollows(k, k1);
    if PastDeadline(x, now) {
      QuietFollows(k, FailQueued(k1, x.seqNo, TimedOut));
    } else {
      PushPlan(k1, x);
      EnqueueFollows(c, k1, x, now);
      QuietOn(k, k1, Enqueue(c, k1, x, now));
    }
  }

  lemma CancelFollows(c: Config, k: K, s: int, removed: bool, now: real)
    requires Slot(k) && Ranked(k)
    ensures Follows(k, CancelCommand(c, k, s, removed, now), Planned(k))
    ensures Busy(k) ==> Busy(CancelCommand(c, k, s, removed, now))
  {
    hide Ranked, Placed, Planned, Within, Follows, CompleteActive;
    var k1 := RemoveQueued(CancelRetry(k, s), s);
    var k2 := if removed then k1.(due := k1.due - multiset{s}) else k1;
    var k3 := FailSeq(k2, s, CancelledByCaller);
    UnqueuedFollows(k, s);
    FollowsKeeps(k, k1);
    QuietFollows(k1, k3);
    FollowsTwo(k, k1, k3);
    if k.inFlight && k.activeSeq == Some(s) {
      CompleteFollows(c, k3, now);
      FollowsTwo(k, k3, CompleteActive(c, k3, now));
    }
  }

  lemma ReplyFollows(k: K, s: int)
    requires Ranked(k)
    ensures Follows(k, ReplyArrived(k, s), Planned(k)) && (Busy(k) ==> Busy(ReplyArrived(k, s)))
  {
    hide Ranked, Planned, Within, Follows;
    var k1 := RemoveQueued(CancelRetry(k, s), s);
    UnqueuedFollows(k, s);
    FollowsKeeps(k, k1);
    QuietFollows(k1, ReplyArrived(k, s));
    FollowsTwo(k, k1, ReplyArrived(k, s));
  }

  lemma DispatchFollows(c: Config, k: K, s: int, now: real)
    requires Slot(k) && Ranked(k)
    ensures Follows(k, ReplyDispatched(c, k, s, now), Planned(k))
    ensures Busy(k) ==> Busy(ReplyDispatched(c, k, s, now))
  {
    hide Ranked, Planned, Within, Follows, CompleteActive;
    var k1 := k.(timer := None);
    QuietFollows(k, k);
    QuietFollows(k, k1);
    CompleteFollows(c, k1, now);
    QuietOn(k, k1, CompleteActive(c, k1, now));
  }

  lemma TimeoutFollows(c: Config, k: K, s: int, now: real)
    requires Slot(k) && Ranked(k)
    ensures Follows(k, ReplyTimeout(c, k, s, now), Planned(k))
    ensures Busy(k) ==> Busy(ReplyTimeout(c, k, s, now))
  {
    hide Ranked, Planned, Within, Follows, TransportFailure;
    var k1 := k.(timer := None);
    QuietFollows(k, k1);
    if k.inFlight && k.activeSeq == Some(s) {
      TransportFailureFollows(c, k1, TimedOut, k.sentAt.Some?, now);
      QuietOn(k, k1, TransportFailure(c, k1, TimedOut, k.sentAt.Some?, now));
    }
  }

  lemma SendFailsFollows(c: Config, k: K, s: int, io: bool, now: real)
    requires Slot(k) && Ranked(k)
    ensures var r := SendFailure(c, k.(due := k.due - multiset{s}), s, io, now);
      Follows(k, r, Planned(k)) && (Busy(k) ==> Busy(r))
  {
    hide Ranked, Planned, Within, Follows, SendFailure;
    var k1 := k.(due := k.due - multiset{s});
    QuietFollows(k, k1);
    SendFailureFollows(c, k1, s, io, now);
    QuietOn(k, k1, SendFailure(c, k1, s, io, now));
  }

  /** Every event other than a submission. */
  lemma StepFollows(c: Config, k: K, e: Event, now: real)
    requires Slot(k) && Enabled(k, e) && !e.Submits? && Ranked(k)
    ensures Follows(k, Step(c, k, e, now), Planned(k))
    ensures Busy(k) && !e.Connects? ==> Busy(Step(c, k, e, now))
  {
    hide Ranked, Planned, Within, Follows, SendFailure, ReplyDispatched, ReplyTimeout, ReleaseRetry, CancelCommand,
         Abort, TrySendNext, ReplyArrived;
    match e
    case Submits(x, withFuture) =>
    case Sent(s) => QuietFollows(k, Step(c, k, e, now));
    case SendFails(s, io) => SendFailsFollows(c, k, s, io, now);
    case Replies(s) => ReplyFollows(k, s);
    case Dispatched(s) => DispatchFollows(c, k, s, now);
    case TimerFires(s) => TimeoutFollows(c, k, s, now);
    case RetryReleases(x) => ReleaseFollows(c, k, x, now);
    case Cancels(s, removed) => CancelFollows(c, k, s, removed, now);
    case LinkLost => QuietFollows(k, Step(c, k, e, now));
    case Disconnected => AbortFollows(k, ConnectionLost);
    case Closes =>
      var k1 := Abort(k, KernelClosed);
      AbortFollows(k, KernelClosed);
      FollowsKeeps(k, k1);
      QuietFollows(k1, Close(k));
      FollowsTwo(k, k1, Close(k));
    case Connects => QuietFollows(k, Step(c, k, e, now));
    case Idles => TrySendNextFollows(c, k, now);
    case MarksRaw(s) => QuietFollows(k, Step(c, k, e, now));
    case FinishesRaw(s) => QuietFollows(k, Step(c, k, e, now));
  }
}
