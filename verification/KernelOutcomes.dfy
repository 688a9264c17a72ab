/** The future of a command: one outcome at most, it never changes, and each kind of outcome has
    its cause. */
module KernelOutcomes {
  import opened Prelude
  import opened Pending
  import opened Kernel
  import opened KernelRuns
  import opened KernelRaw

  /** A failure the scheduler decides on by itself. */
  predicate OwnFailure(o: Outcome) { o == Failed(TimedOut) || o == Failed(SendError) }

  /** The future of `s` has neither been opened nor completed, nor has its outcome changed. */
  predicate Untouched(b: Book, d: Book, s: int) {
    && (s in d.waiting <==> s in b.waiting) && (s in d.done <==> s in b.done)
    && (s in b.done ==> d.done[s] == b.done[s])
  }

  /** What the scheduler may do by itself to a future: fail it if it is open. */
  predicate Tidy(b: Book, d: Book, s: int) {
    Untouched(b, d, s)
    || (s in b.waiting && s !in d.waiting && s in d.done && OwnFailure(d.done[s]))
  }

  lemma TidyOn(b: Book, d: Book, e: Book, s: int)
    requires Tidy(b, d, s) && Tidy(d, e, s)
    ensures Tidy(b, e, s)
  {}

  lemma FailTidy(k: K, t: int, why: Reason, s: int)
    requires OwnFailure(Failed(why))
    ensures Tidy(k.book, FailSeq(k, t, why).book, s) && Tidy(k.book, FailQueued(k, t, why).book, s)
  {}

  lemma {:induction false} TrySendNextTidy(c: Config, k: K, s: int, now: real)
    requires Slot(k)
    ensures Tidy(k.book, TrySendNext(c, k, now).book, s)
    decreases Work(c, k), 0
  {
    hide Tidy, Launch;
    if k.inFlight || (k.high == [] && k.normal == []) || !k.session {
      TidySelf(k.book, s);
    } else {
      var x, k1 := Next(k), Rest(k);
      if PastDeadline(x, now) {
        var k2 := FailQueued(k1, x.seqNo, TimedOut);
        FailTidy(k1, x.seqNo, TimedOut, s);
        TrySendNextTidy(c, k2, s, now);
        TidyOn(k.book, k2.book, TrySendNext(c, k2, now).book, s);
      } else {
        LaunchTidy(c, k1, x, s, now);
      }
    }
  }

  lemma TidySelf(b: Book, s: int)
    ensures Tidy(b, b, s)
  {}

  lemma {:induction false} LaunchTidy(c: Config, k: K, x: Item, s: int, now: real)
    requires Slot(k) && !k.inFlight
    ensures Tidy(k.book, Launch(c, k, x, now).book, s)
    decreases QueueWork(c, k) + Weight(c, x) - 1, 6
  {
    hide Tidy, SendFailure;
    match c.sendJson(x.seqNo, x.attempt)
    case Queued => TidySelf(k.book, s);
    case Raises(io) => SendFailureTidy(c, Fill(k, x, now), x.seqNo, io, s, now);
  }

  lemma {:induction false} CompleteTidy(c: Config, k: K, s: int, now: real)
    requires Slot(k)
    ensures Tidy(k.book, CompleteActive(c, k, now).book, s)
    decreases QueueWork(c, k), 1
  {
    hide Tidy, TrySendNext;
    if k.released {
      TidySelf(k.book, s);
    } else {
      TrySendNextTidy(c, Vacate(k), s, now);
    }
  }

  lemma {:induction false} EnqueueTidy(c: Config, k: K, x: Item, s: int, now: real)
    requires Slot(k)
    ensures Tidy(k.book, Enqueue(c, k, x, now).book, s)
    decreases Work(c, k) + Weight(c, x), 1
  {
    hide Tidy, TrySendNext;
    WeightsAppend(c, k.high, x);
    WeightsAppend(c, k.normal, x);
    TrySendNextTidy(c, Push(k, x), s, now);
  }

  lemma {:induction false} RequeueTidy(c: Config, k: K, x: Item, s: int, now: real)
    requires Slot(k)
    ensures Tidy(k.book, ScheduleRequeue(c, k, x, now).book, s)
    decreases Work(c, k) + Weight(c, x), 2
  {
    hide Tidy, TrySendNext, Enqueue;
    TidySelf(k.book, s);
    FailTidy(k, x.seqNo, TimedOut, s);
    var k1 := CancelRetry(k, x.seqNo);
    if !PastDeadline(x, now) {
      if IsDisarm(x) {
        var y := x.(high := true);
        WeightsPush(c, k1.high, y);
        TrySendNextTidy(c, k1.(high := [y] + k1.high), s, now);
      } else if Backoff(c, x.attempt) <= 0.0 {
        EnqueueTidy(c, k1, x, s, now);
      }
    }
  }

  lemma {:induction false} ResendTidy(c: Config, k: K, s: int, now: real)
    requires Slot(k) && k.inFlight && k.active.value.attempt < c.maxRetries
    ensures Tidy(k.book, Resend(c, k, now).book, s)
    decreases Work(c, k), 3
  {
    hide Tidy, CompleteActive, ScheduleRequeue;
    var x := k.active.value;
    var k1 := k.(correlations := k.correlations - {x.seqNo});
    var y := x.(attempt := x.attempt + 1);
    if IsDisarm(y) {
      var z := y.(high := true);
      WeightsPush(c, k1.high, z);
      CompleteTidy(c, CancelRetry(k1, y.seqNo).(high := [z] + k1.high), s, now);
    } else {
      var k2 := CompleteActive(c, k1, now);
      CompleteTidy(c, k1, s, now);
      RequeueTidy(c, k2, y, s, now);
      TidyOn(k.book, k2.book, ScheduleRequeue(c, k2, y, now).book, s);
    }
  }

  lemma {:induction false} TransportFailureTidy(c: Config, k: K, why: Reason, sent: bool, s: int, now: real)
    requires Slot(k) && k.inFlight && OwnFailure(Failed(why))
    ensures Tidy(k.book, TransportFailure(c, k, why, sent, now).book, s)
    decreases Work(c, k), 4
  {
    hide Tidy, CompleteActive, Resend;
    var x := k.active.value;
    if RetryAllowed(c, k.raw, x, sent, now) {
      ResendTidy(c, k, s, now);
    } else {
      var k1 := FailSeq(k, x.seqNo, why);
      FailTidy(k, x.seqNo, why, s);
      CompleteTidy(c, k1, s, now);
      TidyOn(k.book, k1.book, CompleteActive(c, k1, now).book, s);
    }
  }

  lemma {:induction false} SendFailureTidy(c: Config, k: K, t: int, io: bool, s: int, now: real)
    requires Slot(k)
    ensures Tidy(k.book, SendFailure(c, k, t, io, now).book, s)
    decreases Work(c, k), 5
  {
    hide Tidy, CompleteActive, TransportFailure;
    var k1 := Disconnect(FailSeq(k, t, SendError), io);
    FailTidy(k, t, SendError, s);
    if k.activeSeq == Some(t) {
      if io {
        CompleteTidy(c, k1, s, now);
        TidyOn(k.book, k1.book, CompleteActive(c, k1, now).book, s);
      } else {
        TransportFailureTidy(c, k, SendError, false, s, now);
      }
    }
  }

  // ---------------------------------------------------------------- events

  /** The event that gives a future this outcome. The scheduler fails futures by itself too. */
  predicate CausedBy(o: Outcome, e: Event, s: int) {
    match o
    case Replied => e == Replies(s)
    case Failed(CancelledByCaller) => e.Cancels? && e.seqNo == s
    case Failed(ConnectionLost) => e.Disconnected?
    case Failed(KernelClosed) => e.Closes?
    case Failed(_) => true
  }

  /** What an event may do to the future of `s`. */
  predicate Settled(b: Book, d: Book, e: Event, s: int) {
    Untouched(b, d, s)
    || (s in b.waiting && s !in d.waiting && s in d.done && CausedBy(d.done[s], e, s))
  }

  lemma TidySettles(b: Book, d: Book, e: Event, s: int)
    requires Tidy(b, d, s)
    ensures Settled(b, d, e, s)
  {}

  lemma {:induction false} FailItemsAt(k: K, items: seq<Item>, why: Reason, s: int)
    ensures var b, d := k.book, FailItems(k, items, why).book;
      Untouched(b, d, s) || (s in b.waiting && s !in d.waiting && s in d.done && d.done[s] == Failed(why))
    decreases |items|
  {
    if items != [] {
      FailItemsAt(FailSeq(k, items[0].seqNo, why), items[1..], why, s);
    }
  }

  lemma AbortAt(k: K, why: Reason, s: int)
    ensures var b, d := k.book, Abort(k, why).book;
      if s in b.waiting then s !in d.waiting && s in d.done && d.done[s] == Failed(why) else Untouched(b, d, s)
  {
    var items := k.waiting + k.high + k.normal;
    var k1 := k.(waiting := [], high := [], normal := []);
    FailItemsAt(if k.inFlight && k.activeSeq.Some? && !k.released
                then Vacate(FailSeq(k1, k.activeSeq.value, why)) else k1, items, why, s);
  }

  lemma CancelAt(c: Config, k: K, t: int, removed: bool, s: int, now: real)
    requires Slot(k)
    ensures Tidy(Complete(k.book, t, Failed(CancelledByCaller)), CancelCommand(c, k, t, removed, now).book, s)
  {
    hide Tidy, CompleteActive;
    var k1 := RemoveQueued(CancelRetry(k, t), t);
    var k2 := if removed then k1.(due := k1.due - multiset{t}) else k1;
    var k3 := FailSeq(k2, t, CancelledByCaller);
    TidySelf(k3.book, s);
    CompleteTidy(c, k3, s, now);
  }

  lemma CancelSettles(c: Config, k: K, t: int, removed: bool, s: int, now: real)
    requires Slot(k)
    ensures Settled(k.book, CancelCommand(c, k, t, removed, now).book, Cancels(t, removed), s)
    ensures t in k.book.waiting ==>
      var d := CancelCommand(c, k, t, removed, now).book;
      t !in d.waiting && t in d.done && d.done[t] == Failed(CancelledByCaller)
  {
    hide CancelCommand;
    CancelAt(c, k, t, removed, s, now);
    CancelAt(c, k, t, removed, t, now);
  }

  lemma ReleaseTidy(c: Config, k: K, x: Item, s: int, now: real)
    requires Slot(k)
    ensures Tidy(k.book, ReleaseRetry(c, k, x, now).book, s)
  {
    hide Tidy, Enqueue;
    var k1 := CancelRetry(k, x.seqNo);
    FailTidy(k1, x.seqNo, TimedOut, s);
    if !PastDeadline(x, now) { EnqueueTidy(c, k1, x, s, now); }
  }

  /** A submitted command's future is open, unless its send has failed already; every other future
      is settled as by the scheduler itself. */
  lemma SubmitAt(c: Config, k: K, x: Item, withFuture: bool, s: int, now: real)
    requires Slot(k)
    ensures var b := if k.session && withFuture then Create(k.book, x.seqNo) else k.book;
      Tidy(b, Submit(c, k, x, withFuture, now).book, s)
  {
    hide Tidy, Enqueue;
    if k.session {
      var y := Prepare(c, x, now);
      var k1 := if withFuture
                then k.(book := Create(k.book, y.seqNo), sentEvents := k.sentEvents + {y.seqNo})
                else k;
      EnqueueTidy(c, k1.(accepted := k1.accepted[y.seqNo := y]), y, s, now);
    } else {
      TidySelf(k.book, s);
    }
  }

  /** What any event does to the future of any number but a newly submitted one. */
  lemma StepSettles(c: Config, k: K, e: Event, s: int, now: real)
    requires Slot(k) && Enabled(k, e) && !(e.Submits? && e.item.seqNo == s)
    ensures Settled(k.book, Step(c, k, e, now).book, e, s)
  {
    hide Tidy, Settled, SendFailure, CompleteActive, TransportFailure, ReleaseRetry, CancelCommand, Abort,
         TrySendNext, Submit;
    TidySelf(k.book, s);
    TidySettles(k.book, k.book, e, s);
    match e
    case Submits(x, withFuture) => SubmitSettles(c, k, x, withFuture, s, now);
    case SendFails(t, io) =>
      SendFailureTidy(c, k.(due := k.due - multiset{t}), t, io, s, now);
      TidySettles(k.book, Step(c, k, e, now).book, e, s);
    case Replies(t) => ReplySettles(k, t, s);
    case Dispatched(t) =>
      CompleteTidy(c, k.(timer := None), s, now);
      TidySettles(k.book, Step(c, k, e, now).book, e, s);
    case TimerFires(t) =>
      if k.inFlight && !k.released && k.activeSeq == Some(t) {
        TransportFailureTidy(c, k.(timer := None), TimedOut, k.sentAt.Some?, s, now);
      }
      TidySettles(k.book, Step(c, k, e, now).book, e, s);
    case RetryReleases(x) =>
      ReleaseTidy(c, k, x, s, now);
      TidySettles(k.book, Step(c, k, e, now).book, e, s);
    case Cancels(t, removed) => CancelSettles(c, k, t, removed, s, now);
    case Disconnected => AbortSettles(k, ConnectionLost, e, s);
    case Closes =>
      AbortSettles(k, KernelClosed, e, s);
      assert Close(k).book == Abort(k, KernelClosed).book;
    case Idles =>
      TrySendNextTidy(c, k, s, now);
      TidySettles(k.book, Step(c, k, e, now).book, e, s);
    case _ =>
  }

  lemma SubmitSettles(c: Config, k: K, x: Item, withFuture: bool, s: int, now: real)
    requires Slot(k) && x.seqNo != s
    ensures Settled(k.book, Submit(c, k, x, withFuture, now).book, Submits(x, withFuture), s)
  {
    hide Submit;
    SubmitAt(c, k, x, withFuture, s, now);
  }

  lemma ReplySettles(k: K, t: int, s: int)
    ensures Settled(k.book, ReplyArrived(k, t).book, Replies(t), s)
    ensures t in k.book.waiting ==>
      var d := ReplyArrived(k, t).book; t !in d.waiting && t in d.done && d.done[t] == Replied
  {}

  lemma AbortSettles(k: K, why: Reason, e: Event, s: int)
    requires CausedBy(Failed(why), e, s)
    ensures Settled(k.book, Abort(k, why).book, e, s)
  {
    hide Abort;
    AbortAt(k, why, s);
  }

  // ---------------------------------------------------------------- runs

  /** Once a command's future is completed, or was never opened, nothing changes that: an outcome
      is final. */
  lemma {:induction false} OutcomeFinal(c: Config, before: seq<Timed>, rest: seq<Timed>, s: int)
    requires Possible(c, before) && Possible(c, before + rest)
    requires s in After(c, before).accepted && s !in After(c, before).book.waiting
    ensures Untouched(After(c, before).book, After(c, before + rest).book, s)
    ensures s in After(c, before + rest).accepted
    decreases |rest|
  {
    if rest == [] {
      assert before + rest == before;
    } else {
      var run, last := before + rest[..|rest| - 1], rest[|rest| - 1];
      assert (before + rest)[..|before + rest| - 1] == run && (before + rest)[|before + rest| - 1] == last;
      OutcomeFinal(c, before, rest[..|rest| - 1], s);
      hide Step, Possible;
      StepKeepsAccepted(c, After(c, run), last.event, s, last.at);
      StepSettles(c, After(c, run), last.event, s, last.at);
    }
  }

  lemma StepKeepsAccepted(c: Config, k: K, e: Event, s: int, now: real)
    requires Slot(k) && Enabled(k, e) && s in k.accepted
    ensures s in Step(c, k, e, now).accepted && !(e.Submits? && e.item.seqNo == s)
  {
    hide Claims, Silent, Submit;
    if e.Submits? {
      SubmitAccepts(c, k, e.item, e.withFuture, now);
    } else {
      StepKept(c, k, e, s, now);
    }
  }

  /** Every outcome has its cause in the run: a reply, a cancel, a lost connection or a close.
      The other outcomes are the scheduler's own timeout and send failure. */
  lemma {:induction false} OutcomeHasCause(c: Config, run: seq<Timed>, s: int)
    requires Possible(c, run) && s in After(c, run).book.done
    ensures var o := After(c, run).book.done[s];
      OwnFailure(o) || exists t :: t in run && CausedBy(o, t.event, s)
    decreases |run|
  {
    if run != [] {
      var before, last := run[..|run| - 1], run[|run| - 1];
      var k, o := After(c, before), After(c, run).book.done[s];
      hide Step, Enabled, Settled;
      if s in k.book.done && k.book.done[s] == o {
        OutcomeHasCause(c, before, s);
        if t :| t in before && CausedBy(o, t.event, s) { assert t in run; }
      } else {
        NewOutcome(c, k, last.event, s, last.at);
        assert last in run;
      }
    }
  }

  lemma NewOutcome(c: Config, k: K, e: Event, s: int, now: real)
    requires Slot(k) && Enabled(k, e)
    requires var d := Step(c, k, e, now).book.done;
      s in d && !(s in k.book.done && k.book.done[s] == d[s])
    ensures CausedBy(Step(c, k, e, now).book.done[s], e, s) || OwnFailure(Step(c, k, e, now).book.done[s])
  {
    hide Step;
    if e.Submits? && e.item.seqNo == s {
      NewSubmission(c, k, e.item, e.withFuture, now);
    } else {
      StepSettles(c, k, e, s, now);
    }
  }

  lemma NewSubmission(c: Config, k: K, x: Item, withFuture: bool, now: real)
    requires Slot(k) && Enabled(k, Submits(x, withFuture))
    ensures var d := Step(c, k, Submits(x, withFuture), now).book.done;
      x.seqNo in d ==> (x.seqNo in k.book.done && k.book.done[x.seqNo] == d[x.seqNo]) || OwnFailure(d[x.seqNo])
  {
    hide Submit;
    SubmitAt(c, k, x, withFuture, x.seqNo, now);
  }
}
