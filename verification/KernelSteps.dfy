/** What single events of the scheduler leave behind, said without the functions that compute it. */
module KernelSteps {
  import opened Prelude
  import opened Pending
  import opened Kernel
  import opened KernelInvariant
  import opened KernelRuns
  import opened KernelRaw
  import opened KernelOrder
  import opened KernelOrderRuns
  import opened KernelOutcomes
  import SeqNumbers

  /** The first retry waits half a second, each further one twice as long, none over the bound. */
  lemma {:induction false} BackoffDoubles(c: Config, n: nat)
    requires c.maxBackoff > 0.0
    ensures Backoff(c, 0) == 0.0 && Backoff(c, 1) == Min(0.5, c.maxBackoff)
    ensures n > 0 ==> Backoff(c, n + 1) == Min(2.0 * Backoff(c, n), c.maxBackoff)
    ensures n > 0 ==> 0.0 < Backoff(c, n) <= c.maxBackoff
  {
    assert Power(0) == 1.0;
    if n > 0 {
      assert Power(n) == 2.0 * Power(n - 1);
      PowerPositive(n - 1);
    }
  }

  lemma {:induction false} PowerPositive(n: nat)
    ensures Power(n) >= 1.0
  {
    if n > 0 { PowerPositive(n - 1); }
  }

  /** A request submitted with a session is accepted at attempt 0, as HIGH if it asks for it or
      disarms, with a deadline of all its attempts and backoffs, or of one timeout if it is a
      keepalive. Without a session nothing changes. */
  lemma Submitted(c: Config, k: K, x: Item, withFuture: bool, now: real)
    requires Slot(k) && Ranked(k) && Enabled(k, Submits(x, withFuture))
    ensures var r := Step(c, k, Submits(x, withFuture), now);
      if !k.session then r == k
      else
        && x.seqNo in r.accepted && r.accepted.Keys == k.accepted.Keys + {x.seqNo}
        && (var y := r.accepted[x.seqNo];
            && y == x.(attempt := 0, high := y.high, deadline := y.deadline)
            && y.high == (x.high || (x.domain == "area" && x.name == "set_arm_state" && x.disarms))
            && (x.domain == "system" && x.name == "r_u_alive" ==> y.deadline == now + x.timeout)
            && (x.domain != "system" || x.name != "r_u_alive" ==>
                  y.deadline == now + (Retries(c) + 1) as real * x.timeout + BackoffSum(c, Retries(c))))
        && (withFuture ==> x.seqNo in r.book.waiting || (x.seqNo in r.book.done && OwnFailure(r.book.done[x.seqNo])))
        && (!withFuture ==> Tidy(k.book, r.book, x.seqNo))
  {
    hide Ranked, Planned, Within, Submit, Push;
    SubmitFollows(c, k, x, withFuture, now);
    SubmitAt(c, k, x, withFuture, x.seqNo, now);
    Prepared(c, x, now);
  }

  lemma Prepared(c: Config, x: Item, now: real)
    ensures var y := Prepare(c, x, now);
      && y == x.(attempt := 0, high := y.high, deadline := y.deadline)
      && y.high == (x.high || (x.domain == "area" && x.name == "set_arm_state" && x.disarms))
      && (x.domain == "system" && x.name == "r_u_alive" ==> y.deadline == now + x.timeout)
      && (x.domain != "system" || x.name != "r_u_alive" ==>
            y.deadline == now + (Retries(c) + 1) as real * x.timeout + BackoffSum(c, Retries(c)))
  {}

  /** A free slot is taken by the head of HIGH, or of NORMAL if HIGH is empty, unless its deadline
      has come; when the session accepts the frame, this is the whole new state. */
  lemma HeadTaken(c: Config, k: K, now: real)
    requires Slot(k) && !k.inFlight && k.session && (k.high != [] || k.normal != [])
    requires var x := if k.high != [] then k.high[0] else k.normal[0];
      (x.deadline <= 0.0 || now < x.deadline) && c.sendJson(x.seqNo, x.attempt) == Queued
    ensures var r, x := TrySendNext(c, k, now), if k.high != [] then k.high[0] else k.normal[0];
      && r.inFlight && r.active == Some(x) && r.activeSeq == Some(x.seqNo) && r.sentAt == None && !r.released
      && r.high == (if k.high != [] then k.high[1..] else [])
      && r.normal == (if k.high != [] then k.normal else k.normal[1..])
      && (forall s :: s in r.correlations <==> s in k.correlations || (x.pending && s == x.seqNo))
      && r.handed == k.handed + [HandOff(x.seqNo, x.attempt, now, x.deadline)]
      && (forall s :: r.due[s] == k.due[s] + if s == x.seqNo then 1 else 0)
      && r.waiting == k.waiting && r.book == k.book && r.timer == k.timer && r.session
      && r.sentEvents == k.sentEvents && r.confirmedSeqs == k.confirmedSeqs && r.confirmed == k.confirmed
      && r.accepted == k.accepted && r.raw == k.raw
  {
    hide SendFailure;
  }

  /** A head whose deadline has come is not handed over: its future fails and the next is tried. */
  lemma LateHeadDropped(c: Config, k: K, now: real)
    requires Slot(k) && !k.inFlight && k.session && (k.high != [] || k.normal != [])
    requires var x := if k.high != [] then k.high[0] else k.normal[0]; x.deadline > 0.0 && now >= x.deadline
    ensures var x := if k.high != [] then k.high[0] else k.normal[0];
      var d := TrySendNext(c, k, now).book;
      x.seqNo in k.book.waiting ==> x.seqNo !in d.waiting && x.seqNo in d.done && d.done[x.seqNo] == Failed(TimedOut)
  {
    hide Launch, Tidy;
    var x := Next(k);
    var k2 := FailQueued(Rest(k), x.seqNo, TimedOut);
    TrySendNextTidy(c, k2, x.seqNo, now);
    FailedStays(k2.book, TrySendNext(c, k2, now).book, x.seqNo);
  }

  lemma FailedStays(b: Book, d: Book, s: int)
    requires Tidy(b, d, s) && s !in b.waiting
    ensures Untouched(b, d, s)
  {}

  /** A confirmed send: the command in the slot gets its send time, the caller waiting for the send
      is told, and a positive timeout starts the reply timer, whatever it was for before. */
  lemma SendConfirmed(c: Config, k: K, s: int, now: real)
    requires Slot(k) && Enabled(k, Sent(s))
    ensures var r := Step(c, k, Sent(s), now);
      && r.sentAt == (if k.activeSeq == Some(s) then Some(now) else k.sentAt)
      && r.timer == (if k.accepted[s].timeout > 0.0 then Some(s) else k.timer)
      && (forall t :: t in r.sentEvents <==> t in k.sentEvents && t != s)
      && (forall t :: t in r.confirmedSeqs <==> t in k.confirmedSeqs || (t == s && s in k.sentEvents))
      && r.confirmed == k.confirmed + [s] && r.due[s] + 1 == k.due[s]
      && r.inFlight == k.inFlight && r.active == k.active && r.high == k.high && r.normal == k.normal
      && r.waiting == k.waiting && r.book == k.book && r.handed == k.handed && r.session == k.session
  {}

  /** The routes that are never retried. */
  lemma NoRetryRoutes(route: (string, string))
    ensures route in RETRIES_DISABLED <==>
      || route == ("barrier", "set_status")
      || (route.1 == "get_attribs" && route.0 in
            ["area", "zone", "output", "light", "barrier", "lock", "tstat", "user", "keypad"])
  {}

  /** The reply timer of the command in the slot fires. The command gets another attempt if and
      only if it is no keepalive, its deadline has not come, its route is not one that is never
      retried, it has attempts left, it may be repeated after a confirmed send if there was one,
      and its number is not tracked as raw. A disarm is then handed over at once, any other command
      waits out its backoff; without another attempt the future fails and the number is gone. */
  lemma TimeoutDecides(c: Config, k: K, s: int, now: real)
    requires Inv(c, k, []) && Ranked(k) && Enabled(k, TimerFires(s)) && k.activeSeq == Some(s)
    ensures var x, r := k.active.value, Step(c, k, TimerFires(s), now);
      var disarm := x.domain == "area" && x.name == "set_arm_state" && x.disarms;
      var again :=
        && !(x.domain == "system" && x.name == "r_u_alive") && x.route != Some(("system", "r_u_alive"))
        && (x.deadline <= 0.0 || now < x.deadline)
        && x.route != Some(("barrier", "set_status"))
        && !(x.route.Some? && x.route.value.1 == "get_attribs" && x.route.value.0 in
               ["area", "zone", "output", "light", "barrier", "lock", "tstat", "user", "keypad"])
        && x.attempt < c.maxRetries
        && (k.sentAt.Some? ==> disarm || (x.route.Some? && "get_" <= x.route.value.1))
        && s !in k.raw.inflight && s !in k.raw.recent;
      && (!again ==>
            Silent(r, s) && (s in k.book.waiting ==> s in r.book.done && r.book.done[s] == Failed(TimedOut)))
      && (again && disarm && k.session ==>
            k.handed + [HandOff(s, x.attempt + 1, now, x.deadline)] <= r.handed)
      && (again && !disarm && c.maxBackoff > 0.0 ==> x.(attempt := x.attempt + 1) in r.waiting)
  {
    hide Ranked, TransportFailure, RetryAllowed, RETRIES_DISABLED, Silent, InvView;
    AgainIs(c, k.raw, k.active.value, k.sentAt.Some?, now);
    TimeoutGoesOn(c, k, s, now);
  }

  lemma AgainIs(c: Config, raw: SeqNumbers.Tracker, x: Item, sent: bool, now: real)
    ensures RetryAllowed(c, raw, x, sent, now) <==>
        && !(x.domain == "system" && x.name == "r_u_alive") && x.route != Some(("system", "r_u_alive"))
        && (x.deadline <= 0.0 || now < x.deadline)
        && x.route != Some(("barrier", "set_status"))
        && !(x.route.Some? && x.route.value.1 == "get_attribs" && x.route.value.0 in
               ["area", "zone", "output", "light", "barrier", "lock", "tstat", "user", "keypad"])
        && x.attempt < c.maxRetries
        && (sent ==> (x.domain == "area" && x.name == "set_arm_state" && x.disarms)
                     || (x.route.Some? && "get_" <= x.route.value.1))
        && x.seqNo !in raw.inflight && x.seqNo !in raw.recent
  {
    hide RETRIES_DISABLED;
    if x.route.Some? { NoRetryRoutes(x.route.value); }
  }

  lemma TimeoutGoesOn(c: Config, k: K, s: int, now: real)
    requires Inv(c, k, []) && Ranked(k) && Enabled(k, TimerFires(s)) && k.activeSeq == Some(s)
    ensures var x, r := k.active.value, Step(c, k, TimerFires(s), now);
      var again := RetryAllowed(c, k.raw, x, k.sentAt.Some?, now);
      && (!again ==>
            Silent(r, s) && (s in k.book.waiting ==> s in r.book.done && r.book.done[s] == Failed(TimedOut)))
      && (again && IsDisarm(x) && k.session ==>
            k.handed + [HandOff(s, x.attempt + 1, now, x.deadline)] <= r.handed)
      && (again && !IsDisarm(x) && c.maxBackoff > 0.0 ==> x.(attempt := x.attempt + 1) in r.waiting)
  {
    hide Ranked, TransportFailure, RetryAllowed, Silent, InvView, IsDisarm, Planned, Within;
    var x, k1 := k.active.value, k.(timer := None);
    QuietFollows(k, k1);
    if !RetryAllowed(c, k.raw, x, k.sentAt.Some?, now) {
      GivesUp(c, k, s, now);
    } else {
      if IsDisarm(x) && k.session {
        DisarmRetriedNext(c, k1, TimedOut, k.sentAt.Some?, now);
      }
      if !IsDisarm(x) && c.maxBackoff > 0.0 {
        WaitsAgain(c, k1, k.sentAt.Some?, now);
      }
    }
  }

  lemma GivesUp(c: Config, k: K, s: int, now: real)
    requires Inv(c, k, []) && k.activeSeq == Some(s)
    requires !RetryAllowed(c, k.raw, k.active.value, k.sentAt.Some?, now)
    ensures var r := TransportFailure(c, k.(timer := None), TimedOut, k.sentAt.Some?, now);
      Silent(r, s) && (s in k.book.waiting ==> s in r.book.done && r.book.done[s] == Failed(TimedOut))
  {
    hide Silent, Claims, CompleteActive, Tidy, Inv;
    var k1 := FailSeq(k.(timer := None), s, TimedOut);
    AloneInSlot(c, k, s);
    SlotOf(c, k);
    SameClaims(Vacate(k), Vacate(k1), s);
    FreedStays(c, k1, s, now);
    CompleteTidy(c, k1, s, now);
    FailedStays(k1.book, CompleteActive(c, k1, now).book, s);
  }

  lemma SlotOf(c: Config, k: K)
    requires Inv(c, k, [])
    ensures Slot(k)
  {}

  lemma WaitsAgain(c: Config, k: K, sent: bool, now: real)
    requires Slot(k) && k.inFlight && !IsDisarm(k.active.value) && c.maxBackoff > 0.0
    requires RetryAllowed(c, k.raw, k.active.value, sent, now)
    ensures var x := k.active.value;
      x.(attempt := x.attempt + 1) in TransportFailure(c, k, TimedOut, sent, now).waiting
  {
    hide CompleteActive, Enqueue, TrySendNext, Backoff;
    var x := k.active.value;
    var k1, y := k.(correlations := k.correlations - {x.seqNo}), x.(attempt := x.attempt + 1);
    BackoffDoubles(c, y.attempt);
    var k2 := CompleteActive(c, k1, now);
    assert !PastDeadline(y, now) && !IsDisarm(y);
    assert ScheduleRequeue(c, k2, y, now).waiting == CancelRetry(k2, y.seqNo).waiting + [y];
    assert Resend(c, k, now) == ScheduleRequeue(c, k2, y, now);
  }

  lemma {:induction false} WithoutIs(q: seq<Item>, s: int, x: Item)
    ensures x in Without(q, s) <==> x in q && x.seqNo != s
  {
    if q != [] { WithoutIs(q[1..], s, x); }
  }

  /** A reply completes its future, drops its correlation and every queued or waiting attempt of
      its command, and nothing else; the slot is freed later. */
  lemma ReplyTaken(c: Config, k: K, s: int, now: real, x: Item, t: int)
    requires Slot(k) && Enabled(k, Replies(s))
    ensures var r := Step(c, k, Replies(s), now);
      && (x in r.high <==> x in k.high && x.seqNo != s)
      && (x in r.normal <==> x in k.normal && x.seqNo != s)
      && (x in r.waiting <==> x in k.waiting && x.seqNo != s)
      && (t in r.correlations <==> t in k.correlations && t != s)
      && (s in k.book.waiting ==> s !in r.book.waiting && s in r.book.done && r.book.done[s] == Replied)
      && (t != s ==> Untouched(k.book, r.book, t))
      && r.inFlight == k.inFlight && r.active == k.active && r.timer == k.timer && r.sentAt == k.sentAt
      && r.handed == k.handed && r.due == k.due && r.accepted == k.accepted && r.session == k.session
      && r.sentEvents == k.sentEvents
  {
    WithoutIs(k.high, s, x);
    WithoutIs(k.normal, s, x);
    WithoutIs(k.waiting, s, x);
  }

  /** A send that breaks the connection, or that fails for a command no longer in the slot, fails
      the future for good; only a broken connection ends the session. */
  lemma SendFailureDecides(c: Config, k: K, s: int, io: bool, now: real)
    requires Slot(k) && Enabled(k, SendFails(s, io)) && (io || k.activeSeq != Some(s))
    ensures var r := Step(c, k, SendFails(s, io), now);
      && r.session == (k.session && !io) && r.handed == k.handed && r.due == k.due - multiset{s}
      && s !in r.book.waiting && s !in r.sentEvents
      && (s in k.book.waiting ==> s in r.book.done && r.book.done[s] == Failed(SendError))
      && r.activeSeq == (if k.activeSeq == Some(s) then None else k.activeSeq)
      && r.high == k.high && r.normal == k.normal && r.waiting == k.waiting
  {
    hide Launch, TransportFailure;
    var k1 := Disconnect(FailSeq(k.(due := k.due - multiset{s}), s, SendError), io);
    if k.activeSeq == Some(s) {
      assert TrySendNext(c, Vacate(k1), now) == Vacate(k1);
      assert CompleteActive(c, k1, now) == Vacate(k1);
    }
    assert Step(c, k, SendFails(s, io), now) == if k.activeSeq == Some(s) then Vacate(k1) else k1;
  }

  /** A closed scheduler has no session and nobody waits for a send; it refuses every request. */
  lemma ClosedRefuses(c: Config, k: K, now: real, x: Item, withFuture: bool)
    requires Slot(k)
    ensures var r := Step(c, k, Closes, now);
      !r.session && r.sentEvents == {} && Step(c, k.(session := false), Idles, now) == k.(session := false)
    ensures var r := Step(c, k, Closes, now);
      Enabled(r, Submits(x, withFuture)) ==> Step(c, r, Submits(x, withFuture), now) == r
  {}
}
