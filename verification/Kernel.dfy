/** The request scheduler on values: one command in flight, two priority queues, commands
    waiting out a backoff, and the future of each command.

    `K` holds the scheduler's fields and a record of what it did with the transport. The
    scheduler calls itself: filling the slot may fail at once, and a failure frees the slot
    and fills it again, so the functions below are mutually recursive. */
module Kernel {
  import opened Prelude
  import opened Pending
  import SeqNumbers

  datatype Item = Item(
    seqNo: int, domain: string, name: string, disarms: bool, pending: bool,
    route: Option<(string, string)>, high: bool, timeout: real, attempt: nat, deadline: real)

  /** How `send_json` behaves for one attempt of a command: it queues the frame or raises. */
  datatype HandOffResult = Queued | Raises(io: bool)

  datatype Config = Config(
    maxRetries: int, maxBackoff: real, sendJson: (int, nat) -> HandOffResult)

  datatype HandOff = HandOff(seqNo: int, attempt: nat, at: real, deadline: real)

  datatype K = K(
    session: bool,
    inFlight: bool, activeSeq: Option<int>, active: Option<Item>, released: bool,
    sentAt: Option<real>, timer: Option<int>,
    high: seq<Item>, normal: seq<Item>, waiting: seq<Item>,
    book: Book, correlations: set<int>, sentEvents: set<int>, confirmedSeqs: set<int>,
    raw: SeqNumbers.Tracker,
    // what the transport saw: accepted commands, hand-offs, confirmations, callbacks still due
    accepted: map<int, Item>, handed: seq<HandOff>, confirmed: seq<int>, due: multiset<int>)

  const START := K(false, false, None, None, false, None, None, [], [], [], NO_FUTURES,
                   {}, {}, {}, SeqNumbers.EMPTY, map[], [], [], multiset{})

  // ---------------------------------------------------------------- policy

  const RETRIES_DISABLED: set<(string, string)> :=
    {("barrier", "set_status"), ("area", "get_attribs"), ("zone", "get_attribs"),
     ("output", "get_attribs"), ("light", "get_attribs"), ("barrier", "get_attribs"),
     ("lock", "get_attribs"), ("tstat", "get_attribs"), ("user", "get_attribs"),
     ("keypad", "get_attribs")}

  predicate IsKeepalive(x: Item) {
    (x.domain == "system" && x.name == "r_u_alive") || x.route == Some(("system", "r_u_alive"))
  }

  predicate IsDisarm(x: Item) { x.domain == "area" && x.name == "set_arm_state" && x.disarms }

  predicate RetryAfterSendAllowed(x: Item) {
    IsDisarm(x) || (x.route.Some? && "get_" <= x.route.value.1)
  }

  predicate PastDeadline(x: Item, now: real) { x.deadline > 0.0 && now >= x.deadline }

  predicate RetryAllowed(c: Config, raw: SeqNumbers.Tracker, x: Item, sent: bool, now: real) {
    && !IsKeepalive(x)
    && !PastDeadline(x, now)
    && (x.route.None? || x.route.value !in RETRIES_DISABLED)
    && x.attempt < c.maxRetries
    && (sent ==> RetryAfterSendAllowed(x))
    && !SeqNumbers.Member(raw, x.seqNo)
  }

  function Power(n: nat): real { if n == 0 then 1.0 else 2.0 * Power(n - 1) }

  /** Delay before attempt number `attempt` (the first retry is attempt 1). */
  function Backoff(c: Config, attempt: nat): real {
    if attempt == 0 then 0.0 else Min(0.5 * Power(attempt - 1), c.maxBackoff)
  }

  function BackoffSum(c: Config, retries: nat): real {
    if retries == 0 then 0.0 else BackoffSum(c, retries - 1) + Backoff(c, retries)
  }

  function Retries(c: Config): nat { if c.maxRetries > 0 then c.maxRetries else 0 }

  /** Worst-case wait for all attempts: their timeouts and the backoffs between them. */
  function Budget(c: Config, timeout: real): real {
    (Retries(c) + 1) as real * timeout + BackoffSum(c, Retries(c))
  }

  method TransportWaitBudget(c: Config, timeout: real) returns (budget: real)
    ensures budget == Budget(c, timeout)
  {
    var attempts := if c.maxRetries + 1 > 1 then c.maxRetries + 1 else 1;
    var backoffTotal := 0.0;
    var power := 1.0;
    var attempt := 1;
    while attempt < c.maxRetries + 1
      invariant 1 <= attempt <= Retries(c) + 1
      invariant power == Power(attempt - 1)
      invariant backoffTotal == BackoffSum(c, attempt - 1)
    {
      backoffTotal := backoffTotal + Min(0.5 * power, c.maxBackoff);
      power := 2.0 * power;
      attempt := attempt + 1;
    }
    budget := attempts as real * timeout + backoffTotal;
  }

  // ---------------------------------------------------------------- small steps

  function Without(q: seq<Item>, s: int): (r: seq<Item>)
    ensures forall x :: x in r ==> x in q && x.seqNo != s
  {
    if q == [] then []
    else (if q[0].seqNo == s then [] else [q[0]]) + Without(q[1..], s)
  }

  function CancelRetry(k: K, s: int): K { k.(waiting := Without(k.waiting, s)) }

  function RemoveQueued(k: K, s: int): K {
    k.(high := Without(k.high, s), normal := Without(k.normal, s))
  }

  /** Drop the correlation, fail the future, wake whoever waits for the send. */
  function FailSeq(k: K, s: int, why: Reason): K {
    k.(book := Complete(k.book, s, Failed(why)),
       correlations := k.correlations - {s}, sentEvents := k.sentEvents - {s})
  }

  function FailQueued(k: K, s: int, why: Reason): K { FailSeq(CancelRetry(k, s), s, why) }

  function Disconnect(k: K, io: bool): K { if io then k.(session := false) else k }

  function Vacate(k: K): K {
    k.(released := true, timer := None, activeSeq := None, sentAt := None,
       active := None, inFlight := false)
  }

  function Fill(k: K, x: Item, now: real): K {
    k.(inFlight := true, activeSeq := Some(x.seqNo), released := false, active := Some(x),
       correlations := if x.pending then k.correlations + {x.seqNo} else k.correlations,
       handed := k.handed + [HandOff(x.seqNo, x.attempt, now, x.deadline)])
  }

  function Push(k: K, x: Item): K {
    if x.high then k.(high := k.high + [x]) else k.(normal := k.normal + [x])
  }

  // ---------------------------------------------------------------- the slot

  /** The slot is filled exactly while the state is IN_FLIGHT. */
  predicate Slot(k: K) {
    && (k.inFlight ==> k.active.Some? && k.activeSeq == Some(k.active.value.seqNo) && !k.released)
    && (!k.inFlight ==> k.active.None? && k.activeSeq.None? && k.sentAt.None?)
  }

  function Weight(c: Config, x: Item): nat {
    if x.attempt < c.maxRetries then c.maxRetries - x.attempt + 1 else 1
  }

  function Weights(c: Config, q: seq<Item>): nat {
    if q == [] then 0 else Weight(c, q[0]) + Weights(c, q[1..])
  }

  lemma {:induction false} WeightsAppend(c: Config, q: seq<Item>, x: Item)
    ensures Weights(c, q + [x]) == Weights(c, q) + Weight(c, x)
  {
    if q == [] {
      assert q + [x] == [x] && [x][1..] == [];
    } else {
      assert (q + [x])[0] == q[0] && (q + [x])[1..] == q[1..] + [x];
      WeightsAppend(c, q[1..], x);
    }
  }

  lemma WeightsPush(c: Config, q: seq<Item>, x: Item)
    ensures Weights(c, [x] + q) == Weight(c, x) + Weights(c, q)
  {}

  function QueueWork(c: Config, k: K): nat { Weights(c, k.high) + Weights(c, k.normal) }

  /** Attempts still possible without another external event; it bounds the self-calls. */
  function Work(c: Config, k: K): nat {
    QueueWork(c, k) + (if k.active.Some? then Weight(c, k.active.value) - 1 else 0)
  }

  function Next(k: K): Item
    requires k.high != [] || k.normal != []
  {
    if k.high != [] then k.high[0] else k.normal[0]
  }

  function Rest(k: K): K
    requires k.high != [] || k.normal != []
  {
    if k.high != [] then k.(high := k.high[1..]) else k.(normal := k.normal[1..])
  }

  /** Fill the slot from the queues, HIGH first, dropping commands past their deadline. */
  function TrySendNext(c: Config, k: K, now: real): (r: K)
    requires Slot(k)
    ensures Slot(r) && Work(c, r) <= Work(c, k)
    ensures k.sentAt.None? ==> r.sentAt.None?
    decreases Work(c, k), 0
  {
    if k.inFlight || (k.high == [] && k.normal == []) || !k.session then k
    else
      var x, k1 := Next(k), Rest(k);
      if PastDeadline(x, now) then TrySendNext(c, FailQueued(k1, x.seqNo, TimedOut), now)
      else Launch(c, k1, x, now)
  }

  /** Put a command in the free slot and hand it to the session. */
  function Launch(c: Config, k: K, x: Item, now: real): (r: K)
    requires Slot(k) && !k.inFlight
    ensures Slot(r) && Work(c, r) < QueueWork(c, k) + Weight(c, x) && r.sentAt.None?
    decreases QueueWork(c, k) + Weight(c, x) - 1, 6
  {
    var k1 := Fill(k, x, now);
    match c.sendJson(x.seqNo, x.attempt)
    case Queued => k1.(due := k1.due + multiset{x.seqNo})
    case Raises(io) => SendFailure(c, k1, x.seqNo, io, now)
  }

  function CompleteActive(c: Config, k: K, now: real): (r: K)
    requires Slot(k)
    ensures Slot(r) && (!k.released ==> Work(c, r) <= QueueWork(c, k) && r.sentAt.None?)
    decreases QueueWork(c, k), 1
  {
    if k.released then k else TrySendNext(c, Vacate(k), now)
  }

  function Enqueue(c: Config, k: K, x: Item, now: real): (r: K)
    requires Slot(k)
    ensures Slot(r) && Work(c, r) <= Work(c, k) + Weight(c, x)
    ensures k.sentAt.None? ==> r.sentAt.None?
    decreases Work(c, k) + Weight(c, x), 1
  {
    WeightsAppend(c, k.high, x);
    WeightsAppend(c, k.normal, x);
    TrySendNext(c, Push(k, x), now)
  }

  function ScheduleRequeue(c: Config, k: K, x: Item, now: real): (r: K)
    requires Slot(k)
    ensures Slot(r) && Work(c, r) <= Work(c, k) + Weight(c, x)
    ensures k.sentAt.None? ==> r.sentAt.None?
    decreases Work(c, k) + Weight(c, x), 2
  {
    if PastDeadline(x, now) then FailQueued(k, x.seqNo, TimedOut)
    else
      var k1 := CancelRetry(k, x.seqNo);
      if IsDisarm(x) then
        var y := x.(high := true);
        WeightsPush(c, k1.high, y);
        TrySendNext(c, k1.(high := [y] + k1.high), now)
      else if Backoff(c, x.attempt) <= 0.0 then Enqueue(c, k1, x, now)
      else k1.(waiting := k1.waiting + [x])
  }

  /** The command in the slot is tried again. A disarm goes to the head of the HIGH queue before
      the slot is freed; any other command is put away after, when the slot may be taken. */
  function Resend(c: Config, k: K, now: real): (r: K)
    requires Slot(k) && k.inFlight && k.active.value.attempt < c.maxRetries
    ensures Slot(r) && Work(c, r) <= Work(c, k) && r.sentAt.None?
    decreases Work(c, k), 3
  {
    var x := k.active.value;
    var k1 := k.(correlations := k.correlations - {x.seqNo});
    var y := x.(attempt := x.attempt + 1);
    if IsDisarm(y) then
      var z := y.(high := true);
      WeightsPush(c, k1.high, z);
      CompleteActive(c, CancelRetry(k1, y.seqNo).(high := [z] + k1.high), now)
    else
      ScheduleRequeue(c, CompleteActive(c, k1, now), y, now)
  }

  /** The command in the slot failed: by a reply timeout (`sent` says whether its send had been
      confirmed) or by its send. It is retried or its future fails; the slot is freed. */
  function TransportFailure(c: Config, k: K, why: Reason, sent: bool, now: real): (r: K)
    requires Slot(k) && k.inFlight
    ensures Slot(r) && Work(c, r) <= Work(c, k) && r.sentAt.None?
    decreases Work(c, k), 4
  {
    var x := k.active.value;
    if RetryAllowed(c, k.raw, x, sent, now) then Resend(c, k, now)
    else CompleteActive(c, FailSeq(k, x.seqNo, why), now)
  }

  function SendFailure(c: Config, k: K, s: int, io: bool, now: real): (r: K)
    requires Slot(k)
    ensures Slot(r) && Work(c, r) <= Work(c, k)
    ensures k.sentAt.None? || k.activeSeq == Some(s) ==> r.sentAt.None?
    decreases Work(c, k), 5
  {
    if k.activeSeq != Some(s) then Disconnect(FailSeq(k, s, SendError), io)
    else if io then CompleteActive(c, Disconnect(FailSeq(k, s, SendError), io), now)
    else TransportFailure(c, k, SendError, false, now)
  }

  // ---------------------------------------------------------------- entry points

  /** The queued form of a request: a disarm always goes HIGH, and the deadline is the
      worst-case transport wait, or one timeout for a keepalive. */
  function Prepare(c: Config, x: Item, now: real): Item {
    x.(attempt := 0, high := x.high || IsDisarm(x),
       deadline := now + (if x.domain == "system" && x.name == "r_u_alive" then x.timeout
                          else Budget(c, x.timeout)))
  }

  /** `withFuture`: the caller created a future for the number and waits for the send.
      Without an active session the request is refused and the caller drops the future. */
  function Submit(c: Config, k: K, x: Item, withFuture: bool, now: real): K
    requires Slot(k)
  {
    if !k.session then k
    else
      var y := Prepare(c, x, now);
      var k1 := if withFuture
                then k.(book := Create(k.book, y.seqNo), sentEvents := k.sentEvents + {y.seqNo})
                else k;
      Enqueue(c, k1.(accepted := k1.accepted[y.seqNo := y]), y, now)
  }

  /** The outbound queue reports a send. The reply timer is re-armed whatever it was for. */
  function RequestSent(k: K, s: int, timeout: real, now: real): K {
    k.(sentAt := if k.activeSeq == Some(s) then Some(now) else k.sentAt,
       confirmedSeqs := if s in k.sentEvents then k.confirmedSeqs + {s} else k.confirmedSeqs,
       sentEvents := k.sentEvents - {s},
       timer := if timeout > 0.0 then Some(s) else k.timer,
       confirmed := k.confirmed + [s], due := k.due - multiset{s})
  }

  /** First half of an inbound message: its future, its queued retries, its correlation. */
  function ReplyArrived(k: K, s: int): K {
    var k1 := RemoveQueued(CancelRetry(k, s), s);
    k1.(book := Complete(k.book, s, Replied), correlations := k.correlations - {s})
  }

  /** Second half, after the handlers ran: the slot. */
  function ReplyDispatched(c: Config, k: K, s: int, now: real): K
    requires Slot(k)
  {
    if k.inFlight && k.activeSeq == Some(s) then CompleteActive(c, k.(timer := None), now) else k
  }

  function ReplyTimeout(c: Config, k: K, s: int, now: real): K
    requires Slot(k)
  {
    var k1 := k.(timer := None);
    if !k.inFlight || k.released || k.activeSeq != Some(s) then k1
    else TransportFailure(c, k1, TimedOut, k.sentAt.Some?, now)
  }

  function ReleaseRetry(c: Config, k: K, x: Item, now: real): K
    requires Slot(k)
  {
    var k1 := CancelRetry(k, x.seqNo);
    if PastDeadline(x, now) then FailQueued(k1, x.seqNo, TimedOut) else Enqueue(c, k1, x, now)
  }

  /** `removed`: the outbound queue still held the frame and dropped it. */
  function CancelCommand(c: Config, k: K, s: int, removed: bool, now: real): K
    requires Slot(k)
  {
    var k1 := RemoveQueued(CancelRetry(k, s), s);
    var k2 := if removed then k1.(due := k1.due - multiset{s}) else k1;
    var k3 := FailSeq(k2, s, CancelledByCaller);
    if k.inFlight && k.activeSeq == Some(s) && !k.released then CompleteActive(c, k3, now) else k3
  }

  function FailItems(k: K, items: seq<Item>, why: Reason): K
    decreases |items|
  {
    if items == [] then k else FailItems(FailSeq(k, items[0].seqNo, why), items[1..], why)
  }

  /** Session loss: everything fails at once, nothing is retried, the slot is not refilled. */
  function Abort(k: K, why: Reason): K {
    var items := k.waiting + k.high + k.normal;
    var k1 := k.(waiting := [], high := [], normal := []);
    var k2 := if k.inFlight && k.activeSeq.Some? && !k.released
              then Vacate(FailSeq(k1, k.activeSeq.value, why)) else k1;
    var k3 := FailItems(k2, items, why);
    k3.(book := FailAll(k3.book, why))
  }

  function Close(k: K): K {
    Abort(k, KernelClosed).(sentEvents := {}, session := false)
  }

  // ---------------------------------------------------------------- runs

  datatype Event =
    | Submits(item: Item, withFuture: bool)
    | Sent(seqNo: int)
    | SendFails(seqNo: int, io: bool)
    | Replies(seqNo: int)
    | Dispatched(seqNo: int)
    | TimerFires(seqNo: int)
    | RetryReleases(waiter: Item)
    | Cancels(seqNo: int, removed: bool)
    | LinkLost | Disconnected | Closes | Connects | Idles
    | MarksRaw(seqNo: int) | FinishesRaw(seqNo: int)

  /** What the surroundings may do: message numbers are fresh, the outbound queue answers each
      hand-off at most once, and only armed timers fire. */
  predicate Enabled(k: K, e: Event) {
    match e
    case Submits(x, _) => x.seqNo !in k.accepted
    case Sent(s) => s in k.due && s in k.accepted
    case SendFails(s, _) => s in k.due
    case Replies(s) => s > 0
    // the second half of an inbound message comes after the first
    case Dispatched(s) => s !in k.book.waiting && s !in k.correlations
    case TimerFires(s) => k.timer == Some(s)
    case RetryReleases(x) => x in k.waiting
    case Cancels(s, removed) => removed ==> s in k.due
    case _ => true
  }

  function Step(c: Config, k: K, e: Event, now: real): (r: K)
    requires Slot(k) && Enabled(k, e)
    ensures Slot(r)
  {
    match e
    case Submits(x, withFuture) => Submit(c, k, x, withFuture, now)
    case Sent(s) => RequestSent(k, s, k.accepted[s].timeout, now)
    case SendFails(s, io) => SendFailure(c, k.(due := k.due - multiset{s}), s, io, now)
    case Replies(s) => ReplyArrived(k, s)
    case Dispatched(s) => ReplyDispatched(c, k, s, now)
    case TimerFires(s) => ReplyTimeout(c, k, s, now)
    case RetryReleases(x) => ReleaseRetry(c, k, x, now)
    case Cancels(s, removed) => CancelCommand(c, k, s, removed, now)
    case LinkLost => k.(session := false)
    case Disconnected => AbortSlot(k, ConnectionLost); Abort(k, ConnectionLost)
    case Closes => AbortSlot(k, KernelClosed); Close(k)
    case Connects => k.(session := true)
    case Idles => TrySendNext(c, k, now)
    case MarksRaw(s) => k.(raw := SeqNumbers.Mark(k.raw, s))
    case FinishesRaw(s) => k.(raw := SeqNumbers.Finish(k.raw, s, 256))
  }

  lemma {:induction false} FailItemsFrame(k: K, items: seq<Item>, why: Reason)
    ensures var r := FailItems(k, items, why);
      r == k.(book := r.book, correlations := r.correlations, sentEvents := r.sentEvents)
    decreases |items|
  {
    if items != [] {
      FailItemsFrame(FailSeq(k, items[0].seqNo, why), items[1..], why);
    }
  }

  lemma AbortSlot(k: K, why: Reason)
    requires Slot(k)
    ensures Slot(Abort(k, why))
  {
    var items := k.waiting + k.high + k.normal;
    var k1 := k.(waiting := [], high := [], normal := []);
    var k2 := if k.inFlight && k.activeSeq.Some? && !k.released
              then Vacate(FailSeq(k1, k.activeSeq.value, why)) else k1;
    FailItemsFrame(k2, items, why);
  }
}
