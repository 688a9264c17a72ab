/** Time in the scheduler: the reply timer of the command in the slot, and the budget. */
module KernelTiming {
  import opened Prelude
  import opened Pending
  import opened Kernel
  import opened KernelInvariant
  import opened KernelRuns
  import SeqNumbers

  // ---------------------------------------------------------------- the reply timer

  function TimeoutOf(k: K, s: int): real { if s in k.accepted then k.accepted[s].timeout else 0.0 }

  /** A command whose send is confirmed is guarded by its own reply timer. */
  predicate OwnTimer(k: K) {
    k.sentAt.Some? ==>
      && k.activeSeq.Some? && k.activeSeq.value in k.accepted
      && (TimeoutOf(k, k.activeSeq.value) > 0.0 ==> k.timer == k.activeSeq)
  }

  /** And nothing handed over before it is still to be confirmed. */
  predicate Guarded(k: K) { OwnTimer(k) && (k.sentAt.Some? ==> k.due == multiset{}) }

  /** The confirmation of another number, while a confirmed command is in the slot. */
  predicate Steals(k: K, e: Event) {
    && e.Sent? && TimeoutOf(k, e.seqNo) > 0.0
    && k.sentAt.Some? && k.activeSeq.Some? && k.activeSeq != Some(e.seqNo)
    && TimeoutOf(k, k.activeSeq.value) > 0.0
  }

  /** Confirmations come in hand-off order: the command in the slot was handed over last, so
      when its send is confirmed nothing older is still due. */
  predicate InOrder(k: K, e: Event) {
    e.Sent? && k.activeSeq == Some(e.seqNo) ==> k.due == multiset{e.seqNo}
  }

  predicate AllInOrder(c: Config, run: seq<Timed>)
    requires Possible(c, run)
    decreases |run|
  {
    run == []
    || (AllInOrder(c, run[..|run| - 1]) && InOrder(After(c, run[..|run| - 1]), run[|run| - 1].event))
  }

  /** From a state in which the confirmed command has its own timer, a step loses it exactly if
      it steals it. */
  lemma StepLosesTimer(c: Config, k: K, e: Event, now: real)
    requires Slot(k) && OwnTimer(k) && Enabled(k, e)
    ensures OwnTimer(Step(c, k, e, now)) <==> !Steals(k, e)
  {
    if e.Sent? {
      SentTimer(k, e.seqNo, now);
    } else if k.sentAt.None? {
      StaysUnsent(c, k, e, now);
    } else {
      SentStays(c, k, e, now);
    }
  }

  lemma StepGuarded(c: Config, k: K, e: Event, now: real)
    requires Slot(k) && Guarded(k) && Enabled(k, e) && InOrder(k, e)
    ensures Guarded(Step(c, k, e, now))
  {
    StepLosesTimer(c, k, e, now);
    if k.sentAt.None? && !e.Sent? {
      StaysUnsent(c, k, e, now);
    } else if !e.Sent? {
      SentStays(c, k, e, now);
    }
  }

  lemma SentTimer(k: K, s: int, now: real)
    requires Slot(k) && OwnTimer(k) && Enabled(k, Sent(s))
    ensures OwnTimer(RequestSent(k, s, k.accepted[s].timeout, now)) <==> !Steals(k, Sent(s))
  {}

  lemma StaysUnsent(c: Config, k: K, e: Event, now: real)
    requires Slot(k) && Enabled(k, e) && k.sentAt.None? && !e.Sent?
    ensures Step(c, k, e, now).sentAt.None?
  {
    match e
    case Disconnected => AbortSent(k, ConnectionLost);
    case Closes => AbortSent(k, KernelClosed);
    case _ =>
  }

  /** The confirmed command has left the slot, or it and its timer are as they were. */
  predicate Undisturbed(k: K, r: K) {
    || r.sentAt.None?
    || (OwnTimer(r) && (k.due == multiset{} ==> r.due == multiset{}))
  }

  /** With a confirmed command in the slot, an event other than a confirmation either leaves it
      and its timer alone or takes it out of the slot. */
  lemma SentStays(c: Config, k: K, e: Event, now: real)
    requires Slot(k) && OwnTimer(k) && Enabled(k, e) && k.sentAt.Some? && !e.Sent?
    ensures Undisturbed(k, Step(c, k, e, now))
  {
    match e
    case Submits(x, withFuture) => EnqueueBehind(c, k, x, withFuture, now);
    case SendFails(s, io) => FailureElsewhere(c, k, s, io, now);
    case TimerFires(s) => TimerGuarded(c, k, s, now);
    case RetryReleases(x) => ReleaseBehind(c, k, x, now);
    case Cancels(s, removed) => CancelGuarded(c, k, s, removed, now);
    case Disconnected => AbortSent(k, ConnectionLost);
    case Closes => AbortSent(k, KernelClosed);
    case _ =>
  }

  lemma EnqueueBehind(c: Config, k: K, x: Item, withFuture: bool, now: real)
    requires Slot(k) && OwnTimer(k) && k.inFlight && x.seqNo !in k.accepted
    ensures Undisturbed(k, Submit(c, k, x, withFuture, now))
  {
    if k.session {
      var y := Prepare(c, x, now);
      var k1 := if withFuture
                then k.(book := Create(k.book, y.seqNo), sentEvents := k.sentEvents + {y.seqNo})
                else k;
      EnqueueBusy(c, k1.(accepted := k1.accepted[y.seqNo := y]), y, now);
    }
  }

  lemma EnqueueBusy(c: Config, k: K, x: Item, now: real)
    requires Slot(k) && k.inFlight
    ensures Enqueue(c, k, x, now) == Push(k, x)
  {}

  lemma FailureElsewhere(c: Config, k: K, s: int, io: bool, now: real)
    requires Slot(k) && OwnTimer(k) && k.inFlight && s in k.due
    ensures Undisturbed(k, SendFailure(c, k.(due := k.due - multiset{s}), s, io, now))
  {}

  lemma ReleaseBehind(c: Config, k: K, x: Item, now: real)
    requires Slot(k) && OwnTimer(k) && k.inFlight
    ensures Undisturbed(k, ReleaseRetry(c, k, x, now))
  {
    EnqueueBusy(c, CancelRetry(k, x.seqNo), x, now);
  }

  lemma TimerGuarded(c: Config, k: K, s: int, now: real)
    requires Slot(k) && OwnTimer(k) && k.inFlight && k.timer == Some(s)
    ensures Undisturbed(k, ReplyTimeout(c, k, s, now))
  {}

  lemma CancelGuarded(c: Config, k: K, s: int, removed: bool, now: real)
    requires Slot(k) && OwnTimer(k) && k.inFlight && (removed ==> s in k.due)
    ensures Undisturbed(k, CancelCommand(c, k, s, removed, now))
  {}

  lemma AbortSent(k: K, why: Reason)
    requires Slot(k)
    ensures Abort(k, why).sentAt == None
  {
    var items := k.waiting + k.high + k.normal;
    var k1 := k.(waiting := [], high := [], normal := []);
    FailItemsFrame(if k.inFlight && k.activeSeq.Some? && !k.released
                   then Vacate(FailSeq(k1, k.activeSeq.value, why)) else k1, items, why);
  }

  /** In every run whose confirmations come in hand-off order, a confirmed command in the slot
      always has its own live timer. */
  lemma {:induction false} TimerGuardsSlot(c: Config, run: seq<Timed>)
    requires Possible(c, run) && AllInOrder(c, run)
    ensures Guarded(After(c, run))
    decreases |run|
  {
    if run != [] {
      TimerGuardsSlot(c, run[..|run| - 1]);
      StepGuarded(c, After(c, run[..|run| - 1]), run[|run| - 1].event, run[|run| - 1].at);
    }
  }

  /** At every moment of the run a confirmed command in the slot has its own timer. */
  predicate AlwaysOwn(c: Config, run: seq<Timed>)
    requires Possible(c, run)
    decreases |run|
  {
    OwnTimer(After(c, run)) && (run == [] || AlwaysOwn(c, run[..|run| - 1]))
  }

  /** No step of the run steals a timer. */
  predicate NothingStolen(c: Config, run: seq<Timed>)
    requires Possible(c, run)
    decreases |run|
  {
    run == []
    || (NothingStolen(c, run[..|run| - 1]) && !Steals(After(c, run[..|run| - 1]), run[|run| - 1].event))
  }

  /** Over every run: the guard holds all along exactly if no step steals a timer. */
  lemma {:induction false} TimerLostIff(c: Config, run: seq<Timed>)
    requires Possible(c, run)
    ensures AlwaysOwn(c, run) <==> NothingStolen(c, run)
    decreases |run|
  {
    hide Step, Steals, OwnTimer;
    if run == [] {
      StartOwn();
    } else {
      var before, last := run[..|run| - 1], run[|run| - 1];
      TimerLostIff(c, before);
      if AlwaysOwn(c, before) {
        StepLosesTimer(c, After(c, before), last.event, last.at);
      }
    }
  }

  lemma StartOwn()
    ensures OwnTimer(START)
  {}

  /** The stolen timer is of no use: when it fires nothing happens but its end. */
  lemma StolenTimerIdles(c: Config, k: K, s: int, timeout: real, at: real, later: real)
    requires Slot(k) && k.activeSeq.Some? && k.activeSeq != Some(s) && timeout > 0.0
    ensures var r := RequestSent(k, s, timeout, at);
      r.timer == Some(s) && ReplyTimeout(c, r, s, later) == r.(timer := None)
  {}

  /** The slot is free and nothing is queued or waiting. */
  predicate Free(k: K) {
    Slot(k) && k.session && !k.inFlight && k.high == k.normal == k.waiting == []
  }

  /** A command submitted to a free slot fills it at once. */
  lemma SubmitFree(c: Config, k: K, x: Item, now: real)
    requires Free(k) && x.seqNo !in k.accepted && c.sendJson(x.seqNo, 0) == Queued
    requires !PastDeadline(Prepare(c, x, now), now)
    ensures var (y, r) := (Prepare(c, x, now), Submit(c, k, x, true, now));
      && r.inFlight && r.activeSeq == Some(x.seqNo) && r.active == Some(y) && r.sentAt == None && r.session
      && r.high == r.normal == r.waiting == [] && r.timer == k.timer
      && r.accepted == k.accepted[x.seqNo := y] && r.due == k.due + multiset{x.seqNo}
      && y.timeout == x.timeout && x.seqNo in r.book.waiting
  {
    var y := Prepare(c, x, now);
    var k1 := k.(book := Create(k.book, y.seqNo), sentEvents := k.sentEvents + {y.seqNo},
                 accepted := k.accepted[y.seqNo := y]);
    LaunchFree(c, k1, y, now);
  }

  lemma LaunchFree(c: Config, k: K, y: Item, now: real)
    requires Free(k) && c.sendJson(y.seqNo, y.attempt) == Queued && !PastDeadline(y, now)
    ensures Enqueue(c, k, y, now) == Fill(k, y, now).(due := k.due + multiset{y.seqNo})
  {
    var k1 := Push(k, y);
    assert ([y])[1..] == [];
    assert k.high + [y] == [y] && k.normal + [y] == [y];
    assert Rest(k1) == k;
    assert TrySendNext(c, k1, now) == Launch(c, k, y, now);
  }

  function EarlyRun(a: Item, t: real): seq<Timed> {
    [Timed(Connects, t), Timed(Submits(a, true), t)] + [Timed(Replies(a.seqNo), t), Timed(Dispatched(a.seqNo), t)]
  }

  /** `a` is answered before its send is confirmed; `b` takes the slot and is confirmed; then
      comes the confirmation of `a`. */
  function LateRun(a: Item, b: Item, t: real): seq<Timed> {
    EarlyRun(a, t) + [Timed(Submits(b, true), t)] + [Timed(Sent(b.seqNo), t), Timed(Sent(a.seqNo), t)]
  }

  /** Two commands that may be handed over at `t`. */
  predicate TwoCommands(c: Config, a: Item, b: Item, t: real) {
    && 0 < a.seqNo != b.seqNo && a.timeout > 0.0 && b.timeout > 0.0
    && c.sendJson(a.seqNo, 0) == Queued && c.sendJson(b.seqNo, 0) == Queued
    && !PastDeadline(Prepare(c, a, t), t) && !PastDeadline(Prepare(c, b, t), t)
  }

  /** Between the two commands the slot is free, with the confirmation of `a` still due. */
  predicate ConfirmationDue(k: K, a: Item, b: Item) {
    && Free(k) && k.timer == None && k.due == multiset{a.seqNo} && b.seqNo !in k.accepted
    && a.seqNo in k.accepted && k.accepted[a.seqNo].timeout == a.timeout
  }

  lemma EarlyStates(c: Config, a: Item, b: Item, t: real)
    requires TwoCommands(c, a, b, t)
    ensures var k1 := Submit(c, START.(session := true), a, true, t);
      && Slot(k1)
      && (var k2 := ReplyArrived(k1, a.seqNo);
          && Slot(k2) && a.seqNo !in k2.book.waiting && a.seqNo !in k2.correlations
          && ConfirmationDue(ReplyDispatched(c, k2, a.seqNo, t), a, b))
  {
    var k1 := Submit(c, START.(session := true), a, true, t);
    hide Submit, ReplyArrived, ReplyDispatched, PastDeadline, Prepare;
    SubmitFree(c, START.(session := true), a, t);
    AnsweredFrees(c, k1, a.seqNo, t);
    assert multiset{} + multiset{a.seqNo} == multiset{a.seqNo};
  }

  lemma ConnectAndSubmit(c: Config, a: Item, t: real)
    ensures var run := [Timed(Connects, t), Timed(Submits(a, true), t)];
      Possible(c, run) && After(c, run) == Submit(c, START.(session := true), a, true, t)
  {
    hide Submit;
    AfterTwo(c, [], Timed(Connects, t), Timed(Submits(a, true), t));
    assert [] + [Timed(Connects, t), Timed(Submits(a, true), t)] == [Timed(Connects, t), Timed(Submits(a, true), t)];
  }

  lemma AnsweredEarly(c: Config, a: Item, b: Item, t: real)
    requires TwoCommands(c, a, b, t)
    ensures Possible(c, EarlyRun(a, t)) && ConfirmationDue(After(c, EarlyRun(a, t)), a, b)
  {
    hide Submit, ReplyArrived, ReplyDispatched, ConfirmationDue, PastDeadline, Prepare, Possible, After;
    ConnectAndSubmit(c, a, t);
    EarlyStates(c, a, b, t);
    AfterTwo(c, [Timed(Connects, t), Timed(Submits(a, true), t)],
             Timed(Replies(a.seqNo), t), Timed(Dispatched(a.seqNo), t));
  }

  /** A reply to the only command frees the slot, whether or not its send was confirmed. */
  lemma AnsweredFrees(c: Config, k: K, s: int, t: real)
    requires Slot(k) && k.session && k.inFlight && k.activeSeq == Some(s)
    requires k.high == k.normal == k.waiting == []
    ensures var k1 := ReplyArrived(k, s);
      && Slot(k1) && s !in k1.book.waiting && s !in k1.correlations
      && (var r := ReplyDispatched(c, k1, s, t);
          Free(r) && r.timer == None && r.due == k.due && r.accepted == k.accepted)
  {
    var k1 := ReplyArrived(k, s);
    assert CompleteActive(c, k1.(timer := None), t) == Vacate(k1.(timer := None));
  }

  lemma ConfirmedLate(c: Config, k: K, a: Item, b: Item, t: real)
    requires TwoCommands(c, a, b, t) && ConfirmationDue(k, a, b)
    ensures var k1 := Submit(c, k, b, true, t);
      && Slot(k1) && b.seqNo in k1.due && b.seqNo in k1.accepted && k1.accepted[b.seqNo].timeout == b.timeout
      && (var k2 := RequestSent(k1, b.seqNo, b.timeout, t);
          && a.seqNo in k2.due && a.seqNo in k2.accepted && k2.accepted[a.seqNo].timeout == a.timeout
          && (var r := RequestSent(k2, a.seqNo, a.timeout, t);
              r.inFlight && r.activeSeq == Some(b.seqNo) && r.sentAt.Some? && r.timer == Some(a.seqNo)
              && !OwnTimer(r)))
  {
    SubmitFree(c, k, b, t);
  }

  /** A run reaches the theft: at its end `b` is in the slot with its send confirmed, and the
      only timer armed is that of `a`. */
  lemma LateConfirmationStealsTimer(c: Config, a: Item, b: Item, t: real)
    requires TwoCommands(c, a, b, t)
    ensures Possible(c, LateRun(a, b, t)) && !NothingStolen(c, LateRun(a, b, t))
    ensures var k := After(c, LateRun(a, b, t));
      k.inFlight && k.activeSeq == Some(b.seqNo) && k.sentAt.Some? && k.timer == Some(a.seqNo) && !OwnTimer(k)
  {
    hide Submit, RequestSent, PastDeadline, Prepare, OwnTimer, AlwaysOwn, NothingStolen;
    var run := LateRun(a, b, t);
    AnsweredEarly(c, a, b, t);
    var early := EarlyRun(a, t);
    ConfirmedLate(c, After(c, early), a, b, t);
    AfterLast(c, early, Timed(Submits(b, true), t));
    AfterTwo(c, early + [Timed(Submits(b, true), t)], Timed(Sent(b.seqNo), t), Timed(Sent(a.seqNo), t));
    TimerLostIff(c, run);
    if AlwaysOwn(c, run) { NotAlways(c, run); }
  }

  lemma NotAlways(c: Config, run: seq<Timed>)
    requires Possible(c, run) && AlwaysOwn(c, run)
    ensures OwnTimer(After(c, run))
  {}


  // ---------------------------------------------------------------- the budget

  /** When attempt `a` of a command submitted at `t0` starts if nothing delays it. */
  function StartOf(c: Config, t0: real, timeout: real, a: nat): real {
    t0 + a as real * timeout + BackoffSum(c, a)
  }

  function DeadlineOf(c: Config, t0: real, timeout: real): real { t0 + Budget(c, timeout) }

  lemma {:induction false} BackoffsAddUp(c: Config, a: nat, b: nat)
    requires a <= b && c.maxBackoff >= 0.0
    ensures BackoffSum(c, a) <= BackoffSum(c, b)
    decreases b
  {
    if a < b {
      BackoffNonNegative(c, b);
      BackoffsAddUp(c, a, b - 1);
    }
  }

  lemma BackoffNonNegative(c: Config, a: nat)
    requires c.maxBackoff >= 0.0
    ensures Backoff(c, a) >= 0.0
  {
    if a > 0 { PowerPositive(a - 1); }
  }

  lemma {:induction false} PowerPositive(n: nat)
    ensures Power(n) >= 1.0
  {
    if n > 0 { PowerPositive(n - 1); }
  }

  /** The last attempt starts one timeout before the deadline, every other one earlier. */
  lemma AttemptsFit(c: Config, t0: real, timeout: real, a: nat)
    requires a <= Retries(c) && c.maxBackoff >= 0.0 && timeout > 0.0
    ensures StartOf(c, t0, timeout, a) + timeout <= DeadlineOf(c, t0, timeout)
    ensures a == Retries(c) ==> StartOf(c, t0, timeout, a) + timeout == DeadlineOf(c, t0, timeout)
  {
    BackoffsAddUp(c, a, Retries(c));
    var r := Retries(c);
    hide BackoffSum, Retries;
    OneMoreTimeout(r, timeout);
    Product(a as real, r as real, timeout);
  }

  lemma OneMoreTimeout(n: nat, timeout: real)
    ensures (n + 1) as real * timeout == n as real * timeout + timeout
  {
    assert (n + 1) as real == n as real + 1.0;
    Distribute(n as real, timeout);
  }

  lemma Distribute(a: real, t: real)
    ensures (a + 1.0) * t == a * t + t
  {}

  lemma Product(a: real, b: real, t: real)
    requires a <= b && t > 0.0
    ensures a * t <= b * t
  {}

  // ---------------------------------------------------------------- a command that never hears back

  /** Nothing queued, nothing in flight, nothing due. */
  predicate Quiet(k: K) {
    && Slot(k) && k.session && !k.inFlight
    && k.high == k.normal == k.waiting == [] && k.due == multiset{}
  }

  /** A command that may be repeated after a confirmed send, and is not a disarm. */
  predicate Repeatable(k: K, x: Item) {
    && RetryAfterSendAllowed(x) && !IsDisarm(x) && !NeverRetried(x)
    && !SeqNumbers.Member(k.raw, x.seqNo) && x.timeout > 0.0
  }

  function AtAttempt(c: Config, x: Item, t0: real, a: nat): Item { Prepare(c, x, t0).(attempt := a) }

  /** Attempt `a` is in the slot, handed over and not yet confirmed. */
  predicate Trying(c: Config, k: K, x: Item, t0: real, a: nat) {
    && Slot(k) && k.session && k.inFlight && k.active == Some(AtAttempt(c, x, t0, a))
    && k.sentAt == None && k.high == k.normal == k.waiting == [] && k.due == multiset{x.seqNo}
    && x.seqNo in k.accepted && k.accepted[x.seqNo].timeout == x.timeout
    && x.seqNo in k.book.waiting && Repeatable(k, x)
  }

  function HandOffAt(c: Config, x: Item, t0: real, a: nat): HandOff {
    HandOff(x.seqNo, a, StartOf(c, t0, x.timeout, a), DeadlineOf(c, t0, x.timeout))
  }

  function HandOffs(c: Config, x: Item, t0: real, n: nat): seq<HandOff> {
    if n == 0 then [] else HandOffs(c, x, t0, n - 1) + [HandOffAt(c, x, t0, n - 1)]
  }

  /** One attempt that is confirmed at once, times out, and waits for its backoff. */
  function Round(c: Config, x: Item, t0: real, a: nat): seq<Timed> {
    var start := StartOf(c, t0, x.timeout, a);
    [Timed(Sent(x.seqNo), start), Timed(TimerFires(x.seqNo), start + x.timeout)]
    + if Backoff(c, a + 1) > 0.0
      then [Timed(RetryReleases(AtAttempt(c, x, t0, a + 1)), StartOf(c, t0, x.timeout, a + 1))]
      else []
  }

  function Rounds(c: Config, x: Item, t0: real, n: nat): seq<Timed> {
    if n == 0 then [Timed(Submits(x, true), t0)]
    else Rounds(c, x, t0, n - 1) + Round(c, x, t0, n - 1)
  }

  /** The whole life of a command that never gets a reply. */
  function Unanswered(c: Config, x: Item, t0: real): seq<Timed> {
    var r := Retries(c);
    Rounds(c, x, t0, r)
    + [Timed(Sent(x.seqNo), StartOf(c, t0, x.timeout, r)),
       Timed(TimerFires(x.seqNo), DeadlineOf(c, t0, x.timeout))]
  }

  ghost predicate AlwaysQueued(c: Config, s: int) { forall a: nat :: c.sendJson(s, a) == Queued }

  lemma LaunchAlone(c: Config, k: K, y: Item, now: real)
    requires Quiet(k) && c.sendJson(y.seqNo, y.attempt) == Queued && !PastDeadline(y, now)
    ensures Enqueue(c, k, y, now) == Fill(k, y, now).(due := multiset{y.seqNo})
  {
    LaunchFree(c, k, y, now);
    assert multiset{} + multiset{y.seqNo} == multiset{y.seqNo};
  }

  lemma SubmitAlone(c: Config, k: K, x: Item, t0: real)
    requires Quiet(k) && x.seqNo !in k.accepted && Repeatable(k, x) && t0 >= 0.0
    requires c.maxBackoff >= 0.0 && AlwaysQueued(c, x.seqNo)
    ensures var r := Submit(c, k, x, true, t0);
      Trying(c, r, x, t0, 0) && r.handed == k.handed + [HandOffAt(c, x, t0, 0)]
  {
    var y := Prepare(c, x, t0);
    AttemptsFit(c, t0, x.timeout, 0);
    var k1 := k.(book := Create(k.book, y.seqNo), sentEvents := k.sentEvents + {y.seqNo},
                 accepted := k.accepted[y.seqNo := y]);
    LaunchAlone(c, k1, y, t0);
  }

  lemma SentAlone(c: Config, k: K, x: Item, t0: real, a: nat, now: real)
    requires Trying(c, k, x, t0, a)
    ensures var k1 := RequestSent(k, x.seqNo, x.timeout, now);
      && k1 == k.(sentAt := Some(now), confirmedSeqs := k1.confirmedSeqs, sentEvents := k1.sentEvents,
                  timer := Some(x.seqNo), confirmed := k1.confirmed, due := multiset{})
  {}

  /** The timeout frees the slot; the next attempt waits, or starts at once without backoff. */
  lemma TimeoutAlone(c: Config, k: K, x: Item, t0: real, a: nat)
    requires Trying(c, k, x, t0, a) && a < c.maxRetries && c.maxBackoff >= 0.0 && t0 >= 0.0
    requires AlwaysQueued(c, x.seqNo)
    ensures var start := StartOf(c, t0, x.timeout, a);
      var k1 := RequestSent(k, x.seqNo, x.timeout, start);
      var k2 := ReplyTimeout(c, k1, x.seqNo, start + x.timeout);
      var y := AtAttempt(c, x, t0, a + 1);
      if Backoff(c, a + 1) > 0.0
      then k2.waiting == [y] && Quiet(k2.(waiting := [])) && k2.handed == k.handed
           && k2.accepted == k.accepted && k2.book == k.book && k2.raw == k.raw
      else Trying(c, k2, x, t0, a + 1) && k2.handed == k.handed + [HandOffAt(c, x, t0, a + 1)]
  {
    hide StartOf, Backoff, BackoffSum, Budget, ScheduleRequeue, ReplyTimeout, RequestSent;
    var start, now := StartOf(c, t0, x.timeout, a), StartOf(c, t0, x.timeout, a) + x.timeout;
    var k1 := RequestSent(k, x.seqNo, x.timeout, start);
    SentAlone(c, k, x, t0, a, start);
    NextStart(c, t0, x.timeout, a);
    AttemptsFit(c, t0, x.timeout, a + 1);
    BackoffNonNegative(c, a + 1);
    var y := AtAttempt(c, x, t0, a + 1);
    var k4 := Vacate(k1.(correlations := k1.correlations - {x.seqNo}));
    assert RetryAllowed(c, k1.raw, k1.active.value, true, now);
    FreedAlone(c, k1, x.seqNo, now);
    RequeueAlone(c, k4, y, now);
  }

  /** In a quiet kernel a retry waits for its backoff, or starts at once if it has none. */
  lemma RequeueAlone(c: Config, k: K, y: Item, now: real)
    requires Quiet(k) && !PastDeadline(y, now) && !IsDisarm(y) && c.sendJson(y.seqNo, y.attempt) == Queued
    ensures ScheduleRequeue(c, k, y, now) ==
            if Backoff(c, y.attempt) <= 0.0 then Fill(k, y, now).(due := multiset{y.seqNo})
            else k.(waiting := [y])
  {
    hide Backoff, Enqueue;
    assert CancelRetry(k, y.seqNo) == k;
    assert [] + [y] == [y];
    LaunchAlone(c, k, y, now);
  }

  /** With empty queues, freeing the slot for a retry leaves it empty. */
  lemma FreedAlone(c: Config, k: K, s: int, now: real)
    requires Slot(k) && k.inFlight && k.activeSeq == Some(s) && k.high == k.normal == []
    requires RetryAllowed(c, k.raw, k.active.value, k.sentAt.Some?, now) && !IsDisarm(k.active.value)
    ensures ReplyTimeout(c, k, s, now)
         == ScheduleRequeue(c, Vacate(k.(correlations := k.correlations - {s})),
                            k.active.value.(attempt := k.active.value.attempt + 1), now)
  {
    hide ScheduleRequeue;
    var k1 := k.(correlations := k.correlations - {s});
    assert Vacate(k1.(timer := None)) == Vacate(k1);
    assert CompleteActive(c, k1.(timer := None), now) == Vacate(k1.(timer := None));
    var k2 := k.(timer := None);
    assert k2.(correlations := k2.correlations - {k2.active.value.seqNo}) == k1.(timer := None);
    assert ReplyTimeout(c, k, s, now) == Resend(c, k2, now);
  }

  lemma NextStart(c: Config, t0: real, timeout: real, a: nat)
    ensures StartOf(c, t0, timeout, a + 1) == StartOf(c, t0, timeout, a) + timeout + Backoff(c, a + 1)
  {
    OneMoreTimeout(a, timeout);
  }

  lemma ReleaseAlone(c: Config, k: K, x: Item, t0: real, a: nat)
    requires k.waiting == [AtAttempt(c, x, t0, a)] && Quiet(k.(waiting := []))
    requires a <= Retries(c) && c.maxBackoff >= 0.0 && t0 >= 0.0 && AlwaysQueued(c, x.seqNo)
    requires x.seqNo in k.accepted && k.accepted[x.seqNo].timeout == x.timeout
    requires x.seqNo in k.book.waiting && Repeatable(k, x)
    ensures var r := ReleaseRetry(c, k, AtAttempt(c, x, t0, a), StartOf(c, t0, x.timeout, a));
      Trying(c, r, x, t0, a) && r.handed == k.handed + [HandOffAt(c, x, t0, a)]
  {
    var y := AtAttempt(c, x, t0, a);
    AttemptsFit(c, t0, x.timeout, a);
    assert [y][1..] == [];
    assert Without([y], y.seqNo) == [];
    assert CancelRetry(k, y.seqNo) == k.(waiting := []);
    LaunchAlone(c, k.(waiting := []), y, StartOf(c, t0, x.timeout, a));
  }

  lemma AfterTwo(c: Config, run: seq<Timed>, a: Timed, b: Timed)
    requires Possible(c, run) && Enabled(After(c, run), a.event)
    requires Enabled(Step(c, After(c, run), a.event, a.at), b.event)
    ensures Possible(c, run + [a, b])
    ensures After(c, run + [a, b]) == Step(c, Step(c, After(c, run), a.event, a.at), b.event, b.at)
  {
    AfterLast(c, run, a);
    AfterLast(c, run + [a], b);
    assert run + [a, b] == run + [a] + [b];
  }

  lemma SentThenTimeout(c: Config, run: seq<Timed>, s: int, timeout: real, start: real, now: real)
    requires Possible(c, run) && s in After(c, run).due && timeout > 0.0
    requires s in After(c, run).accepted && After(c, run).accepted[s].timeout == timeout
    ensures var two := [Timed(Sent(s), start), Timed(TimerFires(s), now)];
      Possible(c, run + two)
      && After(c, run + two) == ReplyTimeout(c, RequestSent(After(c, run), s, timeout, start), s, now)
  {
    AfterTwo(c, run, Timed(Sent(s), start), Timed(TimerFires(s), now));
  }

  lemma OneRound(c: Config, run: seq<Timed>, x: Item, t0: real, a: nat)
    requires Possible(c, run) && Trying(c, After(c, run), x, t0, a)
    requires a < c.maxRetries && c.maxBackoff >= 0.0 && t0 >= 0.0 && AlwaysQueued(c, x.seqNo)
    ensures Possible(c, run + Round(c, x, t0, a))
    ensures var k := After(c, run + Round(c, x, t0, a));
      Trying(c, k, x, t0, a + 1) && k.handed == After(c, run).handed + [HandOffAt(c, x, t0, a + 1)]
  {
    hide Step, After, Possible, ReplyTimeout, RequestSent, StartOf;
    var start := StartOf(c, t0, x.timeout, a);
    var two := [Timed(Sent(x.seqNo), start), Timed(TimerFires(x.seqNo), start + x.timeout)];
    SentThenTimeout(c, run, x.seqNo, x.timeout, start, start + x.timeout);
    TimeoutAlone(c, After(c, run), x, t0, a);
    if Backoff(c, a + 1) > 0.0 {
      WaitedOut(c, run + two, x, t0, a + 1);
      assert run + Round(c, x, t0, a)
          == run + two + [Timed(RetryReleases(AtAttempt(c, x, t0, a + 1)), StartOf(c, t0, x.timeout, a + 1))];
    } else {
      assert run + Round(c, x, t0, a) == run + two;
    }
  }

  lemma WaitedOut(c: Config, run: seq<Timed>, x: Item, t0: real, a: nat)
    requires Possible(c, run)
    requires var k := After(c, run);
      && k.waiting == [AtAttempt(c, x, t0, a)] && Quiet(k.(waiting := []))
      && x.seqNo in k.accepted && k.accepted[x.seqNo].timeout == x.timeout
      && x.seqNo in k.book.waiting && Repeatable(k, x)
    requires a <= Retries(c) && c.maxBackoff >= 0.0 && t0 >= 0.0 && AlwaysQueued(c, x.seqNo)
    ensures var run1 := run + [Timed(RetryReleases(AtAttempt(c, x, t0, a)), StartOf(c, t0, x.timeout, a))];
      Possible(c, run1) && Trying(c, After(c, run1), x, t0, a)
      && After(c, run1).handed == After(c, run).handed + [HandOffAt(c, x, t0, a)]
  {
    ReleaseAlone(c, After(c, run), x, t0, a);
    AfterLast(c, run, Timed(RetryReleases(AtAttempt(c, x, t0, a)), StartOf(c, t0, x.timeout, a)));
  }

  lemma SubmitRun(c: Config, run: seq<Timed>, x: Item, t0: real)
    requires Possible(c, run) && Quiet(After(c, run)) && x.seqNo !in After(c, run).accepted
    requires Repeatable(After(c, run), x) && t0 >= 0.0 && c.maxBackoff >= 0.0
    requires AlwaysQueued(c, x.seqNo)
    ensures var run1 := run + [Timed(Submits(x, true), t0)];
      Possible(c, run1) && Trying(c, After(c, run1), x, t0, 0)
      && After(c, run1).handed == After(c, run).handed + [HandOffAt(c, x, t0, 0)]
  {
    SubmitAlone(c, After(c, run), x, t0);
    AfterLast(c, run, Timed(Submits(x, true), t0));
  }

  lemma {:induction false} AllRounds(c: Config, run: seq<Timed>, x: Item, t0: real, n: nat)
    requires Possible(c, run) && Quiet(After(c, run)) && x.seqNo !in After(c, run).accepted
    requires Repeatable(After(c, run), x) && t0 >= 0.0 && c.maxBackoff >= 0.0
    requires AlwaysQueued(c, x.seqNo) && n <= Retries(c)
    ensures Possible(c, run + Rounds(c, x, t0, n))
    ensures var k := After(c, run + Rounds(c, x, t0, n));
      Trying(c, k, x, t0, n) && k.handed == After(c, run).handed + HandOffs(c, x, t0, n + 1)
  {
    hide Step, After, Possible, Trying, Quiet, Repeatable, StartOf;
    if n == 0 {
      SubmitRun(c, run, x, t0);
      assert HandOffs(c, x, t0, 1) == [HandOffAt(c, x, t0, 0)];
    } else {
      AllRounds(c, run, x, t0, n - 1);
      OneRound(c, run + Rounds(c, x, t0, n - 1), x, t0, n - 1);
      assert run + Rounds(c, x, t0, n) == run + Rounds(c, x, t0, n - 1) + Round(c, x, t0, n - 1);
      var h := After(c, run).handed;
      assert h + HandOffs(c, x, t0, n) + [HandOffAt(c, x, t0, n)] == h + HandOffs(c, x, t0, n + 1);
    }
  }

  /** A repeatable command alone on the link, confirmed at once and never answered: it is
      handed over exactly `max_retries + 1` times, attempt `a` at the start the budget gives it,
      the last timeout falls exactly on the deadline, its future then fails, and the scheduler
      is quiet again. */
  lemma UnansweredUsesWholeBudget(c: Config, run: seq<Timed>, x: Item, t0: real)
    requires Possible(c, run) && Quiet(After(c, run)) && x.seqNo !in After(c, run).accepted
    requires Repeatable(After(c, run), x) && t0 >= 0.0 && c.maxBackoff >= 0.0
    requires AlwaysQueued(c, x.seqNo)
    ensures Possible(c, run + Unanswered(c, x, t0))
    ensures var k := After(c, run + Unanswered(c, x, t0));
      && k.handed == After(c, run).handed + HandOffs(c, x, t0, Retries(c) + 1)
      && x.seqNo in k.book.done && k.book.done[x.seqNo] == Failed(TimedOut)
      && Quiet(k)
  {
    hide Step, After, Possible, StartOf, ReplyTimeout, Quiet;
    var r := Retries(c);
    AllRounds(c, run, x, t0, r);
    var run1 := run + Rounds(c, x, t0, r);
    var k := After(c, run1);
    var start := StartOf(c, t0, x.timeout, r);
    AttemptsFit(c, t0, x.timeout, r);
    SentAlone(c, k, x, t0, r, start);
    SentThenTimeout(c, run1, x.seqNo, x.timeout, start, start + x.timeout);
    assert run + Unanswered(c, x, t0)
        == run1 + [Timed(Sent(x.seqNo), start), Timed(TimerFires(x.seqNo), start + x.timeout)];
    LastTimeout(c, RequestSent(k, x.seqNo, x.timeout, start), x.seqNo, start + x.timeout);
  }

  lemma LastTimeout(c: Config, k: K, s: int, now: real)
    requires Slot(k) && k.inFlight && k.activeSeq == Some(s) && k.session && s in k.book.waiting
    requires k.high == k.normal == k.waiting == [] && k.due == multiset{}
    requires k.active.value.attempt >= c.maxRetries
    ensures var r := ReplyTimeout(c, k, s, now);
      Quiet(r) && r.handed == k.handed && s in r.book.done && r.book.done[s] == Failed(TimedOut)
  {
    var k1 := FailSeq(k.(timer := None), s, TimedOut);
    assert ReplyTimeout(c, k, s, now) == CompleteActive(c, k1, now) == Vacate(k1);
  }
}
