/** What is not handed over again. Raw pass-through commands are opaque and never resent: one
    whose number is tracked as raw from before its submission is handed to the transport at most
    once. A command that was cancelled, or whose reply arrived while it was not in the slot, is
    not handed over afterwards. */
module KernelRaw {
  import opened Prelude
  import opened Pending
  import opened Kernel
  import opened KernelInvariant
  import opened KernelRuns
  import SeqNumbers

  /** Hand-offs made of a number, and hand-offs that its queued and waiting commands may make. */
  function Claims(k: K, s: int): nat {
    HandedCount(k.handed, s) + CountSeq(k.high, s) + CountSeq(k.normal, s) + CountSeq(k.waiting, s)
  }

  function One(x: Item, s: int): nat { if x.seqNo == s then 1 else 0 }

  /** The number is in no queue, does not wait, and is not in the slot. */
  predicate Silent(k: K, s: int) {
    Claims(k, s) == HandedCount(k.handed, s) && k.activeSeq != Some(s)
  }

  /** What a step may do to the claims of a raw number: at most add those of `extra`. A silent
      number stays silent. */
  predicate Kept(k: K, r: K, s: int, extra: nat) {
    && r.raw == k.raw && r.accepted == k.accepted
    && (SeqNumbers.Member(k.raw, s) ==> Claims(r, s) <= Claims(k, s) + extra)
    && (Silent(k, s) && extra == 0 ==>
          Silent(r, s) && HandedCount(r.handed, s) == HandedCount(k.handed, s))
  }

  lemma {:induction false} CountWithout(q: seq<Item>, t: int, s: int)
    ensures CountSeq(Without(q, t), s) <= CountSeq(q, s)
    ensures t == s ==> CountSeq(Without(q, t), s) == 0
  {
    if q != [] {
      CountWithout(q[1..], t, s);
      CountConcat(if q[0].seqNo == t then [] else [q[0]], Without(q[1..], t), s);
      assert CountSeq([q[0]], s) == One(q[0], s) + CountSeq([q[0]][1..], s) == One(q[0], s);
    }
  }

  lemma {:induction false} CountConcat(a: seq<Item>, b: seq<Item>, s: int)
    ensures CountSeq(a + b, s) == CountSeq(a, s) + CountSeq(b, s)
  {
    if a == [] {
      assert a + b == b;
    } else {
      CountConcat(a[1..], b, s);
      assert (a + b)[1..] == a[1..] + b;
    }
  }

  lemma CountOne(q: seq<Item>, x: Item, s: int)
    ensures CountSeq(q + [x], s) == CountSeq(q, s) + One(x, s)
    ensures CountSeq([x] + q, s) == CountSeq(q, s) + One(x, s)
  {
    CountConcat(q, [x], s);
    CountConcat([x], q, s);
    assert CountSeq([x], s) == One(x, s) + CountSeq([x][1..], s) == One(x, s);
  }

  lemma FillKept(k: K, x: Item, s: int, now: real)
    ensures Kept(k, Fill(k, x, now), s, One(x, s))
  {
    var h := HandOff(x.seqNo, x.attempt, now, x.deadline);
    assert (k.handed + [h])[..|k.handed|] == k.handed;
  }

  lemma FailKept(k: K, t: int, why: Reason, s: int)
    ensures Kept(k, FailSeq(k, t, why), s, 0) && Kept(k, FailQueued(k, t, why), s, 0)
    ensures Kept(k, CancelRetry(k, t), s, 0)
  {
    CountWithout(k.waiting, t, s);
  }

  lemma RestKept(k: K, s: int)
    requires k.high != [] || k.normal != []
    ensures Rest(k).raw == k.raw && Rest(k).accepted == k.accepted
    ensures Claims(Rest(k), s) + One(Next(k), s) == Claims(k, s)
  {}

  lemma {:induction false} TrySendNextKept(c: Config, k: K, s: int, now: real)
    requires Slot(k)
    ensures Kept(k, TrySendNext(c, k, now), s, 0)
    decreases Work(c, k), 0
  {
    if !k.inFlight && (k.high != [] || k.normal != []) && k.session {
      var x, k1 := Next(k), Rest(k);
      RestKept(k, s);
      hide Claims;
      if PastDeadline(x, now) {
        FailKept(k1, x.seqNo, TimedOut, s);
        TrySendNextKept(c, FailQueued(k1, x.seqNo, TimedOut), s, now);
      } else {
        LaunchKept(c, k1, x, s, now);
      }
    }
  }

  lemma {:induction false} LaunchKept(c: Config, k: K, x: Item, s: int, now: real)
    requires Slot(k) && !k.inFlight
    ensures Kept(k, Launch(c, k, x, now), s, One(x, s))
    decreases QueueWork(c, k) + Weight(c, x) - 1, 6
  {
    FillKept(k, x, s, now);
    match c.sendJson(x.seqNo, x.attempt)
    case Queued =>
    case Raises(io) => SendFailureKept(c, Fill(k, x, now), x.seqNo, io, s, now);
  }

  lemma {:induction false} CompleteKept(c: Config, k: K, s: int, now: real)
    requires Slot(k)
    ensures Kept(k, CompleteActive(c, k, now), s, 0)
    decreases QueueWork(c, k), 1
  {
    if !k.released {
      TrySendNextKept(c, Vacate(k), s, now);
    }
  }

  lemma {:induction false} EnqueueKept(c: Config, k: K, x: Item, s: int, now: real)
    requires Slot(k)
    ensures Kept(k, Enqueue(c, k, x, now), s, One(x, s))
    decreases Work(c, k) + Weight(c, x), 1
  {
    WeightsAppend(c, k.high, x);
    WeightsAppend(c, k.normal, x);
    CountOne(k.high, x, s);
    CountOne(k.normal, x, s);
    TrySendNextKept(c, Push(k, x), s, now);
  }

  lemma {:induction false} RequeueKept(c: Config, k: K, x: Item, s: int, now: real)
    requires Slot(k)
    ensures Kept(k, ScheduleRequeue(c, k, x, now), s, One(x, s))
    decreases Work(c, k) + Weight(c, x), 2
  {
    FailKept(k, x.seqNo, TimedOut, s);
    var k1 := CancelRetry(k, x.seqNo);
    if !PastDeadline(x, now) {
      if IsDisarm(x) {
        var y := x.(high := true);
        WeightsPush(c, k1.high, y);
        CountOne(k1.high, y, s);
        TrySendNextKept(c, k1.(high := [y] + k1.high), s, now);
      } else if Backoff(c, x.attempt) <= 0.0 {
        EnqueueKept(c, k1, x, s, now);
      } else {
        CountOne(k1.waiting, x, s);
      }
    }
  }

  lemma {:induction false} ResendKept(c: Config, k: K, s: int, now: real)
    requires Slot(k) && k.inFlight && k.active.value.attempt < c.maxRetries
    requires SeqNumbers.Member(k.raw, s) ==> k.active.value.seqNo != s
    ensures Kept(k, Resend(c, k, now), s, 0)
    decreases Work(c, k), 3
  {
    hide CompleteActive, ScheduleRequeue, HandedCount;
    var x := k.active.value;
    var k1 := k.(correlations := k.correlations - {x.seqNo});
    var y := x.(attempt := x.attempt + 1);
    if IsDisarm(y) {
      var z := y.(high := true);
      WeightsPush(c, k1.high, z);
      FailKept(k1, y.seqNo, TimedOut, s);
      CountOne(k1.high, z, s);
      CompleteKept(c, CancelRetry(k1, y.seqNo).(high := [z] + k1.high), s, now);
    } else {
      CompleteKept(c, k1, s, now);
      RequeueKept(c, CompleteActive(c, k1, now), y, s, now);
    }
  }

  lemma {:induction false} TransportFailureKept(c: Config, k: K, why: Reason, sent: bool, s: int, now: real)
    requires Slot(k) && k.inFlight
    ensures Kept(k, TransportFailure(c, k, why, sent, now), s, 0)
    decreases Work(c, k), 4
  {
    var x := k.active.value;
    if RetryAllowed(c, k.raw, x, sent, now) {
      ResendKept(c, k, s, now);
    } else {
      CompleteKept(c, FailSeq(k, x.seqNo, why), s, now);
    }
  }

  lemma {:induction false} SendFailureKept(c: Config, k: K, t: int, io: bool, s: int, now: real)
    requires Slot(k)
    ensures Kept(k, SendFailure(c, k, t, io, now), s, 0)
    decreases Work(c, k), 5
  {
    if k.activeSeq == Some(t) {
      if io {
        CompleteKept(c, Disconnect(FailSeq(k, t, SendError), io), s, now);
      } else {
        TransportFailureKept(c, k, SendError, false, s, now);
      }
    }
  }

  // ---------------------------------------------------------------- runs

  lemma AbortKept(k: K, why: Reason, s: int)
    requires Slot(k)
    ensures Kept(k, Abort(k, why), s, 0)
  {
    var items := k.waiting + k.high + k.normal;
    var k1 := k.(waiting := [], high := [], normal := []);
    FailItemsFrame(if k.inFlight && k.activeSeq.Some? && !k.released
                   then Vacate(FailSeq(k1, k.activeSeq.value, why)) else k1, items, why);
  }

  lemma UnqueuedKept(k: K, t: int, s: int)
    ensures Kept(k, RemoveQueued(CancelRetry(k, t), t), s, 0)
  {
    CountWithout(k.waiting, t, s);
    CountWithout(k.high, t, s);
    CountWithout(k.normal, t, s);
  }

  lemma {:induction false} CountIn(q: seq<Item>, x: Item)
    requires x in q
    ensures CountSeq(q, x.seqNo) >= 1
  {
    if q[0] != x { CountIn(q[1..], x); }
  }

  lemma ReleaseKept(c: Config, k: K, x: Item, s: int, now: real)
    requires Slot(k) && x in k.waiting
    ensures Kept(k, ReleaseRetry(c, k, x, now), s, 0)
  {
    var k1 := CancelRetry(k, x.seqNo);
    CountWithout(k.waiting, x.seqNo, s);
    CountIn(k.waiting, x);
    FailKept(k1, x.seqNo, TimedOut, s);
    if !PastDeadline(x, now) { EnqueueKept(c, k1, x, s, now); }
  }

  lemma SameClaims(k: K, r: K, s: int)
    requires r.high == k.high && r.normal == k.normal && r.waiting == k.waiting
    requires r.handed == k.handed && r.activeSeq == k.activeSeq
    ensures Claims(r, s) == Claims(k, s) && Silent(r, s) == Silent(k, s)
  {}

  /** Every event other than the submission of `s`. */
  lemma StepKept(c: Config, k: K, e: Event, s: int, now: real)
    requires Slot(k) && Enabled(k, e) && !e.Submits?
    ensures var r := Step(c, k, e, now);
      && r.accepted == k.accepted && (SeqNumbers.Member(k.raw, s) ==> Claims(r, s) <= Claims(k, s))
      && (Silent(k, s) ==> Silent(r, s) && HandedCount(r.handed, s) == HandedCount(k.handed, s))
  {
    hide Claims, Silent, SendFailure, CompleteActive, TransportFailure, ReleaseRetry, CancelCommand, Abort, TrySendNext;
    match e
    case Submits(x, withFuture) =>
    case Sent(t) => SameClaims(k, Step(c, k, e, now), s);
    case SendFails(t, io) =>
      SameClaims(k, k.(due := k.due - multiset{t}), s);
      SendFailureKept(c, k.(due := k.due - multiset{t}), t, io, s, now);
    case Replies(t) =>
      UnqueuedKept(k, t, s);
      SameClaims(RemoveQueued(CancelRetry(k, t), t), ReplyArrived(k, t), s);
    case Dispatched(t) =>
      SameClaims(k, k.(timer := None), s);
      CompleteKept(c, k.(timer := None), s, now);
    case TimerFires(t) =>
      SameClaims(k, k.(timer := None), s);
      if k.inFlight && !k.released && k.activeSeq == Some(t) {
        TransportFailureKept(c, k.(timer := None), TimedOut, k.sentAt.Some?, s, now);
      }
    case RetryReleases(x) => ReleaseKept(c, k, x, s, now);
    case Cancels(t, removed) => CancelKept(c, k, t, removed, s, now);
    case LinkLost => SameClaims(k, Step(c, k, e, now), s);
    case Disconnected => AbortKept(k, ConnectionLost, s);
    case Closes =>
      AbortKept(k, KernelClosed, s);
      SameClaims(Abort(k, KernelClosed), Close(k), s);
    case Connects => SameClaims(k, Step(c, k, e, now), s);
    case Idles => TrySendNextKept(c, k, s, now);
    case MarksRaw(t) => SameClaims(k, Step(c, k, e, now), s);
    case FinishesRaw(t) => SameClaims(k, Step(c, k, e, now), s);
  }

  lemma CancelKept(c: Config, k: K, t: int, removed: bool, s: int, now: real)
    requires Slot(k)
    ensures Kept(k, CancelCommand(c, k, t, removed, now), s, 0)
  {
    UnqueuedKept(k, t, s);
    var k1 := RemoveQueued(CancelRetry(k, t), t);
    var k2 := if removed then k1.(due := k1.due - multiset{t}) else k1;
    FailKept(k2, t, CancelledByCaller, s);
    CompleteKept(c, FailSeq(k2, t, CancelledByCaller), s, now);
  }

  lemma SubmitKept(c: Config, k: K, x: Item, withFuture: bool, s: int, now: real)
    requires Slot(k)
    ensures var r := Submit(c, k, x, withFuture, now);
      && r.raw == k.raw && (s in r.accepted ==> s in k.accepted || s == x.seqNo)
      && (SeqNumbers.Member(k.raw, s) ==> Claims(r, s) <= Claims(k, s) + One(x, s))
      && (Silent(k, s) && x.seqNo != s ==>
            Silent(r, s) && HandedCount(r.handed, s) == HandedCount(k.handed, s))
  {
    if k.session {
      var y := Prepare(c, x, now);
      var k1 := if withFuture
                then k.(book := Create(k.book, y.seqNo), sentEvents := k.sentEvents + {y.seqNo})
                else k;
      EnqueueKept(c, k1.(accepted := k1.accepted[y.seqNo := y]), y, s, now);
    }
  }

  /** Whenever the number has been submitted, it is tracked as raw. */
  predicate RawThroughout(c: Config, run: seq<Timed>, s: int)
    requires Possible(c, run)
    decreases |run|
  {
    && (s in After(c, run).accepted ==> SeqNumbers.Member(After(c, run).raw, s))
    && (run == [] || RawThroughout(c, run[..|run| - 1], s))
  }

  lemma NoClaims(c: Config, k: K, s: int)
    requires Inv(c, k, []) && s !in k.accepted
    ensures Claims(k, s) == 0
  {
    var v := ViewOf(k, []);
    assert HistoryOk(c, v, s);
    forall y | y in k.high || y in k.normal || y in k.waiting ensures y.seqNo != s {
      assert y in v.idle && IdleOk(c, v, y);
    }
    CountZero(k.high, s);
    CountZero(k.normal, s);
    CountZero(k.waiting, s);
  }

  lemma AcceptedLater(c: Config, run: seq<Timed>, s: int)
    requires Possible(c, run) && s in After(c, run).accepted
    ensures run != []
  {}

  lemma {:induction false} OneClaim(c: Config, run: seq<Timed>, s: int)
    requires Possible(c, run) && RawThroughout(c, run, s)
    ensures Claims(After(c, run), s) <= 1
    decreases |run|, 0
  {
    hide Step, Claims, Inv, Enabled;
    RunKeeps(c, run);
    if s !in After(c, run).accepted {
      NoClaims(c, After(c, run), s);
    } else {
      AcceptedLater(c, run, s);
      OneClaimMore(c, run[..|run| - 1], run[|run| - 1], s);
    }
  }

  lemma {:induction false} OneClaimMore(c: Config, before: seq<Timed>, last: Timed, s: int)
    requires Possible(c, before) && Enabled(After(c, before), last.event) && RawThroughout(c, before, s)
    requires var r := Step(c, After(c, before), last.event, last.at);
      s in r.accepted && SeqNumbers.Member(r.raw, s)
    ensures Claims(Step(c, After(c, before), last.event, last.at), s) <= 1
    decreases |before|, 1
  {
    var k := After(c, before);
    OneClaim(c, before, s);
    RunKeeps(c, before);
    hide Claims, Inv;
    if last.event.Submits? {
      SubmitKept(c, k, last.event.item, last.event.withFuture, s, last.at);
      if s !in k.accepted { NoClaims(c, k, s); }
    } else {
      StepKept(c, k, last.event, s, last.at);
    }
  }

  /** Over every run, a command whose number is tracked as raw for as long as it is accepted is
      handed to the transport at most once. */
  lemma RawAtMostOnce(c: Config, run: seq<Timed>, s: int)
    requires Possible(c, run) && RawThroughout(c, run, s)
    ensures HandedCount(After(c, run).handed, s) <= 1
  {
    OneClaim(c, run, s);
  }

  // ---------------------------------------------------------------- settled commands

  /** A number that is nowhere in the scheduler is not handed over again, whatever happens. */
  lemma {:induction false} SilentForGood(c: Config, before: seq<Timed>, rest: seq<Timed>, s: int)
    requires Possible(c, before + rest) && Possible(c, before)
    requires s in After(c, before).accepted && Silent(After(c, before), s)
    ensures var k := After(c, before + rest);
      && Silent(k, s) && s in k.accepted
      && HandedCount(k.handed, s) == HandedCount(After(c, before).handed, s)
    decreases |rest|
  {
    if rest == [] {
      assert before + rest == before;
    } else {
      var run, last := before + rest[..|rest| - 1], rest[|rest| - 1];
      assert (before + rest)[..|before + rest| - 1] == run && (before + rest)[|before + rest| - 1] == last;
      SilentForGood(c, before, rest[..|rest| - 1], s);
      hide Silent, Claims, Possible;
      var k := After(c, run);
      if last.event.Submits? {
        SubmitKept(c, k, last.event.item, last.event.withFuture, s, last.at);
        SubmitAccepts(c, k, last.event.item, last.event.withFuture, last.at);
      } else {
        StepKept(c, k, last.event, s, last.at);
      }
    }
  }

  lemma SubmitAccepts(c: Config, k: K, x: Item, withFuture: bool, now: real)
    requires Slot(k)
    ensures forall s :: s in k.accepted ==> s in Submit(c, k, x, withFuture, now).accepted
  {
    SubmitKept(c, k, x, withFuture, x.seqNo, now);
    if k.session {
      var y := Prepare(c, x, now);
      var k1 := if withFuture
                then k.(book := Create(k.book, y.seqNo), sentEvents := k.sentEvents + {y.seqNo})
                else k;
      EnqueueKept(c, k1.(accepted := k1.accepted[y.seqNo := y]), y, y.seqNo, now);
    }
  }

  lemma UnqueuedSilent(k: K, s: int)
    requires k.activeSeq != Some(s)
    ensures Silent(RemoveQueued(CancelRetry(k, s), s), s)
  {
    CountWithout(k.waiting, s, s);
    CountWithout(k.high, s, s);
    CountWithout(k.normal, s, s);
  }

  lemma CancelSilences(c: Config, k: K, s: int, removed: bool, now: real)
    requires Slot(k)
    ensures var r := CancelCommand(c, k, s, removed, now);
      Silent(r, s) && HandedCount(r.handed, s) == HandedCount(k.handed, s) && r.accepted == k.accepted
  {
    hide Claims, CompleteActive;
    var k1 := RemoveQueued(CancelRetry(k, s), s);
    var k2 := if removed then k1.(due := k1.due - multiset{s}) else k1;
    var k3 := FailSeq(k2, s, CancelledByCaller);
    if k.activeSeq == Some(s) {
      UnqueuedSilent(Vacate(k), s);
      SameClaims(RemoveQueued(CancelRetry(Vacate(k), s), s), Vacate(k3), s);
      FreedStays(c, k3, s, now);
    } else {
      UnqueuedSilent(k, s);
      SameClaims(k1, k3, s);
    }
  }

  lemma FreedStays(c: Config, k: K, s: int, now: real)
    requires Slot(k) && !k.released && Silent(Vacate(k), s)
    ensures var r := CompleteActive(c, k, now);
      Silent(r, s) && HandedCount(r.handed, s) == HandedCount(k.handed, s) && r.accepted == k.accepted
  {
    hide Claims, Silent, TrySendNext;
    TrySendNextKept(c, Vacate(k), s, now);
  }

  lemma Continued(c: Config, before: seq<Timed>, last: Timed, rest: seq<Timed>)
    requires Possible(c, before + [last] + rest)
    ensures Possible(c, before) && Possible(c, before + [last]) && Enabled(After(c, before), last.event)
    ensures After(c, before + [last]) == Step(c, After(c, before), last.event, last.at)
    decreases |rest|
  {
    var run := before + [last] + rest;
    if rest == [] {
      assert run == before + [last] && run[..|run| - 1] == before;
    } else {
      assert run[..|run| - 1] == before + [last] + rest[..|rest| - 1];
      Continued(c, before, last, rest[..|rest| - 1]);
    }
  }

  /** A cancelled command is not handed over again, by the cancel itself or in any continuation. */
  lemma CancelledStaysOut(c: Config, before: seq<Timed>, s: int, removed: bool, at: real, rest: seq<Timed>)
    requires Possible(c, before + [Timed(Cancels(s, removed), at)] + rest)
    requires Possible(c, before) && s in After(c, before).accepted
    ensures var k := After(c, before + [Timed(Cancels(s, removed), at)] + rest);
      HandedCount(k.handed, s) == HandedCount(After(c, before).handed, s) && Silent(k, s)
  {
    hide Silent, Claims, Step;
    var last := Timed(Cancels(s, removed), at);
    Continued(c, before, last, rest);
    CancelStep(c, After(c, before), s, removed, at);
    SilentForGood(c, before + [last], rest, s);
  }

  lemma CancelStep(c: Config, k: K, s: int, removed: bool, now: real)
    requires Slot(k) && Enabled(k, Cancels(s, removed))
    ensures var r := Step(c, k, Cancels(s, removed), now);
      Silent(r, s) && HandedCount(r.handed, s) == HandedCount(k.handed, s) && r.accepted == k.accepted
  {
    hide Silent, Claims, CancelCommand;
    CancelSilences(c, k, s, removed, now);
  }

  /** A retry that is queued or waits when its reply arrives is not handed over any more. */
  lemma RepliedRetryDropped(c: Config, before: seq<Timed>, s: int, at: real, rest: seq<Timed>)
    requires Possible(c, before + [Timed(Replies(s), at)] + rest)
    requires Possible(c, before) && s in After(c, before).accepted
    requires After(c, before).activeSeq != Some(s)
    ensures var k := After(c, before + [Timed(Replies(s), at)] + rest);
      HandedCount(k.handed, s) == HandedCount(After(c, before).handed, s) && Silent(k, s)
  {
    hide Silent, Claims, Step;
    var last := Timed(Replies(s), at);
    Continued(c, before, last, rest);
    ReplyStep(c, After(c, before), s, at);
    SilentForGood(c, before + [last], rest, s);
  }

  lemma ReplyStep(c: Config, k: K, s: int, now: real)
    requires Slot(k) && Enabled(k, Replies(s)) && k.activeSeq != Some(s)
    ensures var r := Step(c, k, Replies(s), now);
      Silent(r, s) && HandedCount(r.handed, s) == HandedCount(k.handed, s) && r.accepted == k.accepted
  {
    hide Claims;
    UnqueuedSilent(k, s);
    SameClaims(RemoveQueued(CancelRetry(k, s), s), ReplyArrived(k, s), s);
  }

  /** The command in the slot is not handed over again once its reply has been dispatched. */
  lemma DispatchedStaysOut(c: Config, before: seq<Timed>, s: int, at: real, rest: seq<Timed>)
    requires Possible(c, before + [Timed(Dispatched(s), at)] + rest)
    requires Possible(c, before) && s in After(c, before).accepted
    requires After(c, before).activeSeq == Some(s)
    ensures var k := After(c, before + [Timed(Dispatched(s), at)] + rest);
      HandedCount(k.handed, s) == HandedCount(After(c, before).handed, s) && Silent(k, s)
  {
    hide Silent, Claims, Step, Inv;
    var last := Timed(Dispatched(s), at);
    Continued(c, before, last, rest);
    RunKeeps(c, before);
    DispatchStep(c, After(c, before), s, at);
    SilentForGood(c, before + [last], rest, s);
  }

  lemma DispatchStep(c: Config, k: K, s: int, now: real)
    requires Inv(c, k, []) && Enabled(k, Dispatched(s)) && k.activeSeq == Some(s)
    ensures var r := Step(c, k, Dispatched(s), now);
      Silent(r, s) && HandedCount(r.handed, s) == HandedCount(k.handed, s) && r.accepted == k.accepted
  {
    hide Claims, TrySendNext;
    AloneInSlot(c, k, s);
    SameClaims(Vacate(k), Vacate(k.(timer := None)), s);
    FreedStays(c, k.(timer := None), s, now);
  }

  lemma AloneInSlot(c: Config, k: K, s: int)
    requires Inv(c, k, []) && k.activeSeq == Some(s)
    ensures Silent(Vacate(k), s)
  {
    var v := ViewOf(k, []);
    forall y | y in k.high || y in k.normal || y in k.waiting ensures y.seqNo != s {
      assert y in v.idle && IdleOk(c, v, y);
    }
    CountZero(k.high, s);
    CountZero(k.normal, s);
    CountZero(k.waiting, s);
  }
}
