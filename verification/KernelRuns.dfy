/** Runs of the scheduler: any sequence of events the surroundings may produce, in any order. */
module KernelRuns {
  import opened Prelude
  import opened Pending
  import opened Kernel
  import opened KernelInvariant

  datatype Timed = Timed(event: Event, at: real)

  predicate Possible(c: Config, run: seq<Timed>)
    decreases |run|, 0
  {
    run == []
    || (Possible(c, run[..|run| - 1]) && Enabled(After(c, run[..|run| - 1]), run[|run| - 1].event))
  }

  function After(c: Config, run: seq<Timed>): (k: K)
    requires Possible(c, run)
    ensures Slot(k)
    decreases |run|, 1
  {
    if run == [] then START
    else Step(c, After(c, run[..|run| - 1]), run[|run| - 1].event, run[|run| - 1].at)
  }

  // ---------------------------------------------------------------- events on views

  lemma SubmittedView(c: Config, v: View, y: Item, unresolved: set<int>)
    requires InvView(c, v) && y.seqNo !in v.accepted && y.attempt == 0
    requires unresolved <= v.unresolved + {y.seqNo}
    ensures InvView(c, v.(accepted := v.accepted[y.seqNo := y], unresolved := unresolved,
                          idle := v.idle + multiset{y}))
  {
    var v' := v.(accepted := v.accepted[y.seqNo := y], unresolved := unresolved,
                 idle := v.idle + multiset{y});
    SubmittedIdle(c, v, v', y);
    forall s ensures HistoryOk(c, v', s) { assert HistoryOk(c, v, s); }
    forall h | h in v'.handed ensures InTime(v', h) { assert InTime(v, h); }
    SubmittedHolds(v, v', y);
  }

  lemma SubmittedIdle(c: Config, v: View, v': View, y: Item)
    requires IdleInv(c, v) && OnePlace(v) && HistoryOk(c, v, y.seqNo)
    requires y.seqNo !in v.accepted && y.attempt == 0
    requires v.active.Some? ==> v.active.value.seqNo in v.accepted
    requires v' == v.(accepted := v.accepted[y.seqNo := y], unresolved := v'.unresolved,
                      idle := v.idle + multiset{y})
    ensures IdleInv(c, v') && OnePlace(v')
  {
    forall x | x in v.idle ensures x.seqNo != y.seqNo { assert IdleOk(c, v, x); }
    forall x | x in v'.idle ensures IdleOk(c, v', x) {
      if x != y { assert IdleOk(c, v, x); }
    }
  }

  lemma SubmittedHolds(v: View, v': View, y: Item)
    requires NothingLost(v) && v'.active == v.active && v'.idle == v.idle + multiset{y}
    requires v'.accepted == v.accepted[y.seqNo := y] && v'.unresolved <= v.unresolved + {y.seqNo}
    ensures NothingLost(v')
  {
    forall s | s in v'.accepted && s in v'.unresolved ensures Holds(v', s) {
      if s == y.seqNo {
        assert y in v'.idle;
      } else {
        assert Holds(v, s);
        if x :| x in v.idle && x.seqNo == s { assert x in v'.idle; }
      }
    }
  }

  lemma SentView(c: Config, v: View, s: int, timer: Option<int>)
    requires InvView(c, v) && v.due[s] > 0 && (timer == v.timer || timer == Some(s))
    ensures InvView(c, v.(sent := v.sent || (v.active.Some? && v.active.value.seqNo == s),
                          timer := timer, confirmed := v.confirmed + multiset{s}, due := v.due - multiset{s}))
  {
    var v' := v.(sent := v.sent || (v.active.Some? && v.active.value.seqNo == s),
                 timer := timer, confirmed := v.confirmed + multiset{s}, due := v.due - multiset{s});
    assert HistoryOk(c, v, s);
    forall x | x in v'.idle ensures IdleOk(c, v', x) { assert IdleOk(c, v, x); }
    forall t ensures HistoryOk(c, v', t) { assert HistoryOk(c, v, t); }
    forall h | h in v'.handed ensures InTime(v', h) { assert InTime(v, h); }
    forall t | t in v'.accepted && t in v'.unresolved ensures Holds(v', t) { assert Holds(v, t); }
  }

  /** A due callback that never comes, or a timer that is gone. */
  lemma QuietView(c: Config, v: View, due: multiset<int>, timer: Option<int>)
    requires InvView(c, v) && due <= v.due && (timer == v.timer || timer == None)
    ensures InvView(c, v.(due := due, timer := timer))
  {
    var v' := v.(due := due, timer := timer);
    forall s ensures due[s] <= v.due[s] {}
    forall x | x in v'.idle ensures IdleOk(c, v', x) { assert IdleOk(c, v, x); }
    forall t ensures HistoryOk(c, v', t) { assert HistoryOk(c, v, t); }
    forall h | h in v'.handed ensures InTime(v', h) { assert InTime(v, h); }
    forall t | t in v'.accepted && t in v'.unresolved ensures Holds(v', t) { assert Holds(v, t); }
  }

  lemma ClearedView(c: Config, v: View)
    requires InvView(c, v)
    ensures InvView(c, Emptied(v).(idle := multiset{}, unresolved := {}, correlations := {}))
    ensures InvView(c, v.(idle := multiset{}, unresolved := {}, correlations := {}))
  {
    var v' := Emptied(v).(idle := multiset{}, unresolved := {}, correlations := {});
    var w := v.(idle := multiset{}, unresolved := {}, correlations := {});
    forall t ensures HistoryOk(c, v', t) && HistoryOk(c, w, t) { assert HistoryOk(c, v, t); }
    forall h | h in v.handed ensures InTime(v', h) && InTime(w, h) { assert InTime(v, h); }
  }

  // ---------------------------------------------------------------- events

  lemma SubmitKeeps(c: Config, k: K, x: Item, withFuture: bool, now: real)
    requires Inv(c, k, []) && x.seqNo !in k.accepted
    ensures Inv(c, Submit(c, k, x, withFuture, now), [])
  {
    if k.session {
      var y := Prepare(c, x, now);
      var k1 := (if withFuture
                 then k.(book := Create(k.book, y.seqNo), sentEvents := k.sentEvents + {y.seqNo})
                 else k).(accepted := k.accepted[y.seqNo := y]);
      SubmittedView(c, ViewOf(k, []), y, k1.book.waiting);
      TransitView(k1, y, []);
      EnqueueKeeps(c, k1, y, now, []);
    }
  }

  lemma SentKeeps(c: Config, k: K, s: int, timeout: real, now: real)
    requires Inv(c, k, []) && k.due[s] > 0
    ensures Inv(c, RequestSent(k, s, timeout, now), [])
  {
    var k' := RequestSent(k, s, timeout, now);
    SentView(c, ViewOf(k, []), s, k'.timer);
    assert multiset(k'.confirmed) == multiset(k.confirmed) + multiset{s};
  }

  lemma SendFailsKeeps(c: Config, k: K, s: int, io: bool, now: real)
    requires Inv(c, k, []) && k.due[s] > 0
    ensures Inv(c, SendFailure(c, k.(due := k.due - multiset{s}), s, io, now), [])
  {
    var k1 := k.(due := k.due - multiset{s});
    assert HistoryOk(c, ViewOf(k, []), s);
    QuietView(c, ViewOf(k, []), k1.due, k.timer);
    SendFailureKeeps(c, k1, s, io, now, []);
  }

  lemma ReplyKeeps(c: Config, k: K, s: int)
    requires Inv(c, k, [])
    ensures Inv(c, ReplyArrived(k, s), [])
  {
    var k1 := k.(book := Complete(k.book, s, Replied), correlations := k.correlations - {s});
    Settled(c, ViewOf(k, []), ViewOf(k1, []));
    Unqueued(c, k1, s);
  }

  lemma DispatchedKeeps(c: Config, k: K, s: int, now: real)
    requires Inv(c, k, []) && s !in k.book.waiting && s !in k.correlations
    ensures Inv(c, ReplyDispatched(c, k, s, now), [])
  {
    if k.inFlight && k.activeSeq == Some(s) {
      Vacated(c, ViewOf(k, []));
      assert ViewOf(Vacate(k.(timer := None)), []) == Emptied(ViewOf(k, []));
      CompleteKeeps(c, k.(timer := None), now, []);
    }
  }

  lemma TimerKeeps(c: Config, k: K, s: int, now: real)
    requires Inv(c, k, []) && k.timer == Some(s)
    ensures Inv(c, ReplyTimeout(c, k, s, now), [])
  {
    var k1 := k.(timer := None);
    QuietView(c, ViewOf(k, []), k.due, None);
    assert ViewOf(k1, []) == ViewOf(k, []).(timer := None);
    if k.inFlight && k.activeSeq == Some(s) {
      assert ActiveOk(c, ViewOf(k, []), k.active.value);
      TransportFailureKeeps(c, k1, TimedOut, now, []);
    }
  }

  lemma ReleaseKeeps(c: Config, k: K, x: Item, now: real)
    requires Inv(c, k, []) && x in k.waiting
    ensures Inv(c, ReleaseRetry(c, k, x, now), [])
  {
    ReleasedView(c, k, x);
    ReleasedGoesOn(c, CancelRetry(k, x.seqNo), x, now);
  }

  lemma ReleasedGoesOn(c: Config, k: K, x: Item, now: real)
    requires Inv(c, k, [x])
    ensures Inv(c, if PastDeadline(x, now) then FailQueued(k, x.seqNo, TimedOut) else Enqueue(c, k, x, now), [])
  {
    assert [x] + [] == [x];
    if PastDeadline(x, now) {
      Dropped(c, k, x, [], TimedOut);
    } else {
      EnqueueKeeps(c, k, x, now, []);
    }
  }

  lemma ReleasedView(c: Config, k: K, x: Item)
    requires Inv(c, k, []) && x in k.waiting
    ensures Inv(c, CancelRetry(k, x.seqNo), [x])
  {
    var k1 := CancelRetry(k, x.seqNo);
    var v := ViewOf(k, []);
    assert x in v.idle && IdleOk(c, v, x);
    forall y | y in k.waiting && y.seqNo == x.seqNo ensures y == x { assert y in v.idle; }
    WithoutOne(k.waiting, x);
    ReleasedIdle(k, x);
    assert ViewOf(k1, [x]) == v;
  }

  lemma WithoutOne(q: seq<Item>, x: Item)
    requires x in q && multiset(q)[x] <= 1
    requires forall y :: y in q && y.seqNo == x.seqNo ==> y == x
    ensures multiset(q) == multiset(Without(q, x.seqNo)) + multiset{x}
  {
    forall y ensures multiset(q)[y] == (multiset(Without(q, x.seqNo)) + multiset{x})[y] {
      WithoutCounts(q, x.seqNo, y);
    }
  }

  lemma ReleasedIdle(k: K, x: Item)
    requires multiset(k.waiting) == multiset(Without(k.waiting, x.seqNo)) + multiset{x}
    ensures ViewOf(CancelRetry(k, x.seqNo), [x]).idle == ViewOf(k, []).idle
  {}

  lemma CancelKeeps(c: Config, k: K, s: int, removed: bool, now: real)
    requires Inv(c, k, [])
    ensures Inv(c, CancelCommand(c, k, s, removed, now), [])
  {
    var k1 := FailSeq(k, s, CancelledByCaller);
    Settled(c, ViewOf(k, []), ViewOf(k1, []));
    Unqueued(c, k1, s);
    var k2 := RemoveQueued(CancelRetry(k1, s), s);
    var k3 := if removed then k2.(due := k2.due - multiset{s}) else k2;
    QuietView(c, ViewOf(k2, []), k3.due, k.timer);
    assert ViewOf(k3, []) == ViewOf(k2, []).(due := k3.due);
    if k.inFlight && k.activeSeq == Some(s) {
      Vacated(c, ViewOf(k3, []));
      assert ViewOf(Vacate(k3), []) == Emptied(ViewOf(k3, []));
      CompleteKeeps(c, k3, now, []);
    }
  }

  /** After an abort or a close nothing is queued, waiting, in the slot, or unresolved. */
  lemma AbortClears(c: Config, k: K, why: Reason)
    requires Inv(c, k, [])
    ensures var r := Abort(k, why);
      && r.high == r.normal == r.waiting == [] && !r.inFlight && r.active == None
      && r.book.waiting == {} && r.correlations == {}
      && (forall s :: s in k.book.waiting ==> s in r.book.done && r.book.done[s] == Failed(why))
      && Inv(c, r, [])
  {
    AbortFields(k, why);
    AbortSlot(k, why);
    var v := ViewOf(k, []);
    forall s | s in k.correlations ensures k.activeSeq == Some(s) { assert s in v.correlations; }
    ClearedView(c, v);
  }

  /** What an abort does to every field the invariant reads. */
  lemma AbortFields(k: K, why: Reason)
    requires Slot(k)
    ensures var r, v := Abort(k, why), ViewOf(k, []);
      && r.high == r.normal == r.waiting == [] && !r.inFlight && r.active == None
      && r.book.waiting == {}
      && (forall s :: s in k.book.waiting ==> s in r.book.done && r.book.done[s] == Failed(why))
      && ((forall s :: s in k.correlations ==> k.activeSeq == Some(s)) ==>
            && r.correlations == {}
            && ViewOf(r, []) == (if k.inFlight then Emptied(v) else v).(
                                  idle := multiset{}, unresolved := {}, correlations := {}))
  {
    var items := k.waiting + k.high + k.normal;
    var k1 := k.(waiting := [], high := [], normal := []);
    var k2 := if k.inFlight && k.activeSeq.Some? && !k.released
              then Vacate(FailSeq(k1, k.activeSeq.value, why)) else k1;
    FailItemsFrame(k2, items, why);
    FailItemsFails(k2, items, why);
    var r, v := Abort(k, why), ViewOf(k, []);
    assert ViewOf(r, []).idle == multiset{};
    if forall s :: s in k.correlations ==> k.activeSeq == Some(s) {
      assert k2.correlations == {} && r.correlations == {};
    }
  }

  lemma {:induction false} FailItemsFails(k: K, items: seq<Item>, why: Reason)
    ensures var r := FailItems(k, items, why);
      && r.book.waiting <= k.book.waiting && r.correlations <= k.correlations
      && (forall s :: s in k.book.waiting && s !in r.book.waiting ==>
            s in r.book.done && r.book.done[s] == Failed(why))
      && (forall s :: s !in k.book.waiting && s in k.book.done ==>
            s in r.book.done && r.book.done[s] == k.book.done[s])
    decreases |items|
  {
    if items != [] {
      FailItemsFails(FailSeq(k, items[0].seqNo, why), items[1..], why);
    }
  }

  lemma StepKeeps(c: Config, k: K, e: Event, now: real)
    requires Inv(c, k, []) && Enabled(k, e)
    ensures Inv(c, Step(c, k, e, now), [])
  {
    match e
    case Submits(x, withFuture) => SubmitKeeps(c, k, x, withFuture, now);
    case Sent(s) => SentKeeps(c, k, s, k.accepted[s].timeout, now);
    case SendFails(s, io) => SendFailsKeeps(c, k, s, io, now);
    case Replies(s) => ReplyKeeps(c, k, s);
    case Dispatched(s) => DispatchedKeeps(c, k, s, now);
    case TimerFires(s) => TimerKeeps(c, k, s, now);
    case RetryReleases(x) => ReleaseKeeps(c, k, x, now);
    case Cancels(s, removed) => CancelKeeps(c, k, s, removed, now);
    case LinkLost => assert ViewOf(k.(session := false), []) == ViewOf(k, []);
    case Disconnected => AbortClears(c, k, ConnectionLost);
    case Closes =>
      AbortClears(c, k, KernelClosed);
      assert ViewOf(Close(k), []) == ViewOf(Abort(k, KernelClosed), []);
    case Connects => assert ViewOf(k.(session := true), []) == ViewOf(k, []);
    case Idles => TrySendNextKeeps(c, k, now, []);
    case MarksRaw(s) => assert ViewOf(Step(c, k, e, now), []) == ViewOf(k, []);
    case FinishesRaw(s) => assert ViewOf(Step(c, k, e, now), []) == ViewOf(k, []);
  }

  lemma {:induction false} RunKeeps(c: Config, run: seq<Timed>)
    requires Possible(c, run)
    ensures Inv(c, After(c, run), [])
    decreases |run|
  {
    if run != [] {
      RunKeeps(c, run[..|run| - 1]);
      StepKeeps(c, After(c, run[..|run| - 1]), run[|run| - 1].event, run[|run| - 1].at);
    }
  }

  // ---------------------------------------------------------------- the results

  function CountSeq(q: seq<Item>, s: int): nat {
    if q == [] then 0 else (if q[0].seqNo == s then 1 else 0) + CountSeq(q[1..], s)
  }

  /** How many times a number occurs among the two queues, the waiting commands and the slot. */
  function Places(k: K, s: int): nat {
    CountSeq(k.high, s) + CountSeq(k.normal, s) + CountSeq(k.waiting, s)
    + (if k.activeSeq == Some(s) then 1 else 0)
  }

  lemma {:induction false} CountIs(q: seq<Item>, x: Item)
    requires forall y :: y in q && y.seqNo == x.seqNo ==> y == x
    ensures CountSeq(q, x.seqNo) == multiset(q)[x]
    decreases |q|
  {
    if q != [] {
      CountIs(q[1..], x);
      assert q == [q[0]] + q[1..];
    }
  }

  lemma {:induction false} CountZero(q: seq<Item>, s: int)
    requires forall y :: y in q ==> y.seqNo != s
    ensures CountSeq(q, s) == 0
    decreases |q|
  {
    if q != [] {
      CountZero(q[1..], s);
    }
  }

  lemma PlacesFromView(c: Config, k: K, s: int)
    requires Inv(c, k, [])
    ensures Places(k, s) == if Holds(ViewOf(k, []), s) then 1 else 0
  {
    var v := ViewOf(k, []);
    assert forall y :: y in k.high || y in k.normal || y in k.waiting ==> y in v.idle;
    if x :| x in v.idle && x.seqNo == s {
      assert IdleOk(c, v, x);
      CountIs(k.high, x);
      CountIs(k.normal, x);
      CountIs(k.waiting, x);
    } else {
      CountZero(k.high, s);
      CountZero(k.normal, s);
      CountZero(k.waiting, s);
    }
  }

  /** No command is lost and none is duplicated: after every run, each number is in at most one
      place, and one whose future is unresolved is in exactly one. The slot is filled exactly
      while the state is IN_FLIGHT, and only the command in it is correlated. */
  lemma EveryCommandInOnePlace(c: Config, run: seq<Timed>, s: int)
    requires Possible(c, run)
    ensures var k := After(c, run);
      && Places(k, s) <= 1
      && (s in k.accepted && s in k.book.waiting ==> Places(k, s) == 1)
      && (k.inFlight <==> k.active.Some?)
      && (s in k.correlations ==> k.inFlight && k.activeSeq == Some(s))
  {
    RunKeeps(c, run);
    PlacesFromView(c, After(c, run), s);
    var v := ViewOf(After(c, run), []);
    if s in v.correlations {}
    if s in v.accepted && s in v.unresolved { assert Holds(v, s); }
  }

  lemma AfterLast(c: Config, run: seq<Timed>, last: Timed)
    requires Possible(c, run) && Enabled(After(c, run), last.event)
    ensures Possible(c, run + [last])
    ensures After(c, run + [last]) == Step(c, After(c, run), last.event, last.at)
  {}

  /** Losing or closing the session leaves no command anywhere and no future open, and every
      future that was open has failed with that reason. */
  lemma SessionLossSettlesAll(c: Config, run: seq<Timed>, at: real, closes: bool)
    requires Possible(c, run)
    ensures var last := Timed(if closes then Closes else Disconnected, at);
      var before, why := After(c, run), if closes then KernelClosed else ConnectionLost;
      && Possible(c, run + [last])
      && (var k := After(c, run + [last]);
          && k.high == k.normal == k.waiting == [] && !k.inFlight
          && k.book.waiting == {} && k.correlations == {}
          && forall s :: s in before.book.waiting ==> s in k.book.done && k.book.done[s] == Failed(why))
  {
    AfterLast(c, run, Timed(if closes then Closes else Disconnected, at));
    RunKeeps(c, run);
    AbortClears(c, After(c, run), if closes then KernelClosed else ConnectionLost);
  }

  /** A command is handed to the transport at most `max_retries + 1` times; a keepalive or a
      command of a route without retries at most once, even when its send fails; and unless it
      may be repeated after a confirmed send (a disarm, or a `get_` route) it is confirmed
      sent at most once. */
  lemma AtMostOnce(c: Config, run: seq<Timed>, s: int)
    requires Possible(c, run) && s in After(c, run).accepted
    ensures var k := After(c, run);
      var x := k.accepted[s];
      && HandedCount(k.handed, s) <= Retries(c) + 1
      && (NeverRetried(x) ==> HandedCount(k.handed, s) <= 1)
      && (!RetryAfterSendAllowed(x) ==> multiset(k.confirmed)[s] <= 1)
  {
    RunKeeps(c, run);
    assert HistoryOk(c, ViewOf(After(c, run), []), s);
  }

  /** No attempt starts at or after its command's deadline. */
  lemma NoLateAttempt(c: Config, run: seq<Timed>, h: HandOff)
    requires Possible(c, run) && h in After(c, run).handed
    ensures var k := After(c, run);
      h.seqNo in k.accepted && (k.accepted[h.seqNo].deadline > 0.0 ==> h.at < k.accepted[h.seqNo].deadline)
  {
    RunKeeps(c, run);
    assert InTime(ViewOf(After(c, run), []), h);
  }
}
