/** The scheduler in place: the kernel's fields and the methods that change them, each proved
    against the step function of module Kernel. */
module KernelMachine {
  import opened Prelude
  import opened Pending
  import K = Kernel
  import SeqNumbers

  type Item = K.Item

  class E27Kernel {
    const cfg: K.Config
    var session: bool
    var inFlight: bool
    var activeSeq: Option<int>
    var active: Option<Item>
    var released: bool
    var sentAt: Option<real>
    var timer: Option<int>
    var high: seq<Item>
    var normal: seq<Item>
    var waiting: seq<Item>
    var book: Book
    var correlations: set<int>
    var sentEvents: set<int>
    var confirmedSeqs: set<int>
    var raw: SeqNumbers.Tracker
    ghost var accepted: map<int, Item>
    ghost var handed: seq<K.HandOff>
    ghost var confirmed: seq<int>
    ghost var due: multiset<int>

    ghost function Abs(): K.K
      reads this
    {
      K.K(session, inFlight, activeSeq, active, released, sentAt, timer, high, normal, waiting,
          book, correlations, sentEvents, confirmedSeqs, raw, accepted, handed, confirmed, due)
    }

    constructor (cfg: K.Config)
      ensures this.cfg == cfg && Abs() == K.START
    {
      this.cfg := cfg;
      session, inFlight, activeSeq, active, released := false, false, None, None, false;
      sentAt, timer, high, normal, waiting := None, None, [], [], [];
      book, correlations, sentEvents, confirmedSeqs := NO_FUTURES, {}, {}, {};
      raw := SeqNumbers.EMPTY;
      accepted, handed, confirmed, due := map[], [], [], multiset{};
    }

    // ---------------------------------------------------------------- small steps

    method CancelTransportRetryTimer(s: int)
      modifies this`waiting
      ensures Abs() == K.CancelRetry(old(Abs()), s)
    {
      waiting := Filter(waiting, s);
    }

    method RemoveQueuedSeq(s: int)
      modifies this`high, this`normal
      ensures Abs() == K.RemoveQueued(old(Abs()), s)
    {
      high := Filter(high, s);
      normal := Filter(normal, s);
    }

    /** A queue is emptied from the left and refilled with what is kept. */
    static method Filter(q: seq<Item>, s: int) returns (kept: seq<Item>)
      ensures kept == K.Without(q, s)
    {
      kept := [];
      var rest := q;
      while rest != []
        invariant kept + K.Without(rest, s) == K.Without(q, s)
        decreases |rest|
      {
        var item := rest[0];
        assert rest == [item] + rest[1..];
        rest := rest[1..];
        FilterStep(kept, item, rest, s);
        if item.seqNo != s {
          kept := kept + [item];
        }
      }
    }

    static lemma FilterStep(kept: seq<Item>, item: Item, rest: seq<Item>, s: int)
      ensures kept + K.Without([item] + rest, s)
           == (if item.seqNo != s then kept + [item] else kept) + K.Without(rest, s)
    {}

    method FailSeq(s: int, why: Reason)
      modifies this`book, this`correlations, this`sentEvents
      ensures Abs() == K.FailSeq(old(Abs()), s, why)
    {
      correlations := correlations - {s};
      book := Complete(book, s, Failed(why));
      sentEvents := sentEvents - {s};
    }

    method FailQueuedCommand(s: int, why: Reason)
      modifies this
      ensures Abs() == K.FailQueued(old(Abs()), s, why)
    {
      CancelTransportRetryTimer(s);
      FailSeq(s, why);
    }

    method DisconnectOnIoError(io: bool)
      modifies this`session
      ensures Abs() == K.Disconnect(old(Abs()), io)
    {
      if io {
        session := false;
      }
    }

    // ---------------------------------------------------------------- the slot

    method TrySendNext(now: real)
      requires K.Slot(Abs())
      modifies this
      ensures Abs() == K.TrySendNext(cfg, old(Abs()), now)
      decreases K.Work(cfg, Abs()), 0
    {
      hide K.SendFailure;
      if inFlight {
        return;
      }
      if high == [] && normal == [] {
        return;
      }
      if !session {
        return;
      }
      var item;
      if high != [] {
        item := high[0];
        high := high[1..];
      } else {
        item := normal[0];
        normal := normal[1..];
      }
      if K.PastDeadline(item, now) {
        FailQueuedCommand(item.seqNo, TimedOut);
        TrySendNext(now);
        return;
      }
      Launch(item, now);
    }

    method Launch(item: Item, now: real)
      requires K.Slot(Abs()) && !inFlight
      modifies this
      ensures Abs() == K.Launch(cfg, old(Abs()), item, now)
      decreases K.QueueWork(cfg, Abs()) + K.Weight(cfg, item) - 1, 6
    {
      hide K.SendFailure;
      FillSlot(item, now);
      var result := cfg.sendJson(item.seqNo, item.attempt);
      match result
      case Queued => due := due + multiset{item.seqNo};
      case Raises(io) => HandleSendFailure(item.seqNo, io, now);
    }

    method FillSlot(item: Item, now: real)
      modifies this
      ensures Abs() == K.Fill(old(Abs()), item, now)
    {
      Occupy(item);
      Record(item, now);
    }

    method Occupy(item: Item)
      modifies this`inFlight, this`activeSeq, this`released, this`active
      ensures inFlight && activeSeq == Some(item.seqNo) && !released && active == Some(item)
    {
      inFlight := true;
      activeSeq := Some(item.seqNo);
      released := false;
      active := Some(item);
    }

    method Record(item: Item, now: real)
      modifies this`correlations, this`handed
      ensures correlations == if item.pending then old(correlations) + {item.seqNo} else old(correlations)
      ensures handed == old(handed) + [K.HandOff(item.seqNo, item.attempt, now, item.deadline)]
    {
      if item.pending {
        correlations := correlations + {item.seqNo};
      }
      handed := handed + [K.HandOff(item.seqNo, item.attempt, now, item.deadline)];
    }

    method VacateSlot()
      modifies this
      ensures Abs() == K.Vacate(old(Abs()))
    {
      Release();
    }

    method Release()
      modifies this`released, this`timer, this`activeSeq, this`sentAt, this`active, this`inFlight
      ensures released && timer == None && activeSeq == None && sentAt == None && active == None && !inFlight
    {
      released := true;
      timer := None;
      activeSeq := None;
      sentAt := None;
      active := None;
      inFlight := false;
    }

    method DropCorrelation(s: int)
      modifies this`correlations
      ensures Abs() == old(Abs()).(correlations := old(correlations) - {s})
    {
      correlations := correlations - {s};
    }

    method PushFront(item: Item)
      modifies this`high
      ensures Abs() == old(Abs()).(high := [item] + old(high))
    {
      high := [item] + high;
    }

    method CompleteActive(kick: bool, now: real)
      requires K.Slot(Abs())
      modifies this
      ensures kick ==> Abs() == K.CompleteActive(cfg, old(Abs()), now)
      ensures !kick ==> Abs() == if old(released) then old(Abs()) else K.Vacate(old(Abs()))
      decreases K.QueueWork(cfg, Abs()), 1
    {
      hide K.TrySendNext;
      if released {
        return;
      }
      VacateSlot();
      if kick {
        TrySendNext(now);
      }
    }

    method EnqueueRequest(item: Item, now: real)
      requires K.Slot(Abs())
      modifies this
      ensures Abs() == K.Enqueue(cfg, old(Abs()), item, now)
      decreases K.Work(cfg, Abs()) + K.Weight(cfg, item), 1
    {
      hide K.TrySendNext;
      K.WeightsAppend(cfg, high, item);
      K.WeightsAppend(cfg, normal, item);
      if item.high {
        high := high + [item];
      } else {
        normal := normal + [item];
      }
      TrySendNext(now);
    }

    method ScheduleTransportRequeue(item: Item, now: real)
      requires K.Slot(Abs())
      modifies this
      ensures Abs() == K.ScheduleRequeue(cfg, old(Abs()), item, now)
      decreases K.Work(cfg, Abs()) + K.Weight(cfg, item), 2
    {
      hide K.TrySendNext, K.Enqueue;
      if K.PastDeadline(item, now) {
        FailQueuedCommand(item.seqNo, TimedOut);
        return;
      }
      CancelTransportRetryTimer(item.seqNo);
      if K.IsDisarm(item) {
        var front := item.(high := true);
        K.WeightsPush(cfg, high, front);
        PushFront(front);
        TrySendNext(now);
        return;
      }
      var delay := K.Backoff(cfg, item.attempt);
      if delay <= 0.0 {
        EnqueueRequest(item, now);
        return;
      }
      waiting := waiting + [item];
    }

    method TransportRetryAllowed(x: Item, sent: bool, now: real) returns (r: bool)
      ensures r == K.RetryAllowed(cfg, raw, x, sent, now)
    {
      if K.IsKeepalive(x) {
        return false;
      }
      if K.PastDeadline(x, now) {
        return false;
      }
      if x.route.Some? && x.route.value in K.RETRIES_DISABLED {
        return false;
      }
      if x.attempt >= cfg.maxRetries {
        return false;
      }
      if sent && !K.RetryAfterSendAllowed(x) {
        return false;
      }
      return !SeqNumbers.Member(raw, x.seqNo);
    }

    method Resend(now: real)
      requires K.Slot(Abs()) && inFlight && active.value.attempt < cfg.maxRetries
      modifies this
      ensures Abs() == K.Resend(cfg, old(Abs()), now)
      decreases K.Work(cfg, Abs()), 3
    {
      hide K.CompleteActive, K.ScheduleRequeue;
      var retry := active.value.(attempt := active.value.attempt + 1);
      DropCorrelation(retry.seqNo);
      if K.IsDisarm(retry) {
        CancelTransportRetryTimer(retry.seqNo);
        var front := retry.(high := true);
        K.WeightsPush(cfg, high, front);
        PushFront(front);
        CompleteActive(true, now);
        return;
      }
      CompleteActive(true, now);
      ScheduleTransportRequeue(retry, now);
    }

    method HandleTransportFailure(why: Reason, sent: bool, now: real)
      requires K.Slot(Abs()) && inFlight
      modifies this
      ensures Abs() == K.TransportFailure(cfg, old(Abs()), why, sent, now)
      decreases K.Work(cfg, Abs()), 4
    {
      hide K.CompleteActive, K.Resend;
      var item := active.value;
      var again := TransportRetryAllowed(item, sent, now);
      if again {
        Resend(now);
        return;
      }
      FailSeq(item.seqNo, why);
      CompleteActive(true, now);
    }

    method HandleSendFailure(s: int, io: bool, now: real)
      requires K.Slot(Abs())
      modifies this
      ensures Abs() == K.SendFailure(cfg, old(Abs()), s, io, now)
      decreases K.Work(cfg, Abs()), 5
    {
      hide K.CompleteActive, K.TransportFailure;
      if activeSeq != Some(s) {
        FailSeq(s, SendError);
        DisconnectOnIoError(io);
        return;
      }
      if io {
        FailSeq(s, SendError);
        DisconnectOnIoError(io);
        CompleteActive(true, now);
        return;
      }
      HandleTransportFailure(SendError, false, now);
    }

    // ---------------------------------------------------------------- entry points

    method SendRequestWithSeq(x: Item, withFuture: bool, now: real) returns (refused: bool)
      requires K.Slot(Abs())
      modifies this
      ensures refused == !old(session)
      ensures Abs() == K.Submit(cfg, old(Abs()), x, withFuture, now)
    {
      hide K.Enqueue;
      refused := !session;
      if refused {
        return;
      }
      var budget := K.TransportWaitBudget(cfg, x.timeout);
      var deadline := now + if x.domain == "system" && x.name == "r_u_alive" then x.timeout else budget;
      var item := x.(attempt := 0, high := x.high || K.IsDisarm(x), deadline := deadline);
      if withFuture {
        book := Create(book, item.seqNo);
        sentEvents := sentEvents + {item.seqNo};
      }
      accepted := accepted[item.seqNo := item];
      EnqueueRequest(item, now);
    }

    method OnRequestSent(s: int, timeout: real, now: real)
      modifies this
      ensures Abs() == K.RequestSent(old(Abs()), s, timeout, now)
    {
      MarkSent(s, timeout, now);
      confirmed := confirmed + [s];
      due := due - multiset{s};
    }

    method MarkSent(s: int, timeout: real, now: real)
      modifies this`sentAt, this`confirmedSeqs, this`sentEvents, this`timer
      ensures sentAt == if activeSeq == Some(s) then Some(now) else old(sentAt)
      ensures confirmedSeqs == if s in old(sentEvents) then old(confirmedSeqs) + {s} else old(confirmedSeqs)
      ensures sentEvents == old(sentEvents) - {s}
      ensures timer == if timeout > 0.0 then Some(s) else old(timer)
    {
      if activeSeq == Some(s) {
        sentAt := Some(now);
      }
      if s in sentEvents {
        confirmedSeqs := confirmedSeqs + {s};
      }
      sentEvents := sentEvents - {s};
      if timeout > 0.0 {
        timer := Some(s);
      }
    }

    method OnMessageArrives(s: int)
      modifies this
      ensures Abs() == K.ReplyArrived(old(Abs()), s)
    {
      book := Complete(book, s, Replied);
      CancelTransportRetryTimer(s);
      RemoveQueuedSeq(s);
      correlations := correlations - {s};
    }

    method OnMessageDispatched(s: int, now: real)
      requires K.Slot(Abs())
      modifies this
      ensures Abs() == K.ReplyDispatched(cfg, old(Abs()), s, now)
    {
      hide K.CompleteActive;
      if inFlight && activeSeq == Some(s) {
        timer := None;
        CompleteActive(true, now);
      }
    }

    method OnReplyTimeout(s: int, now: real)
      requires K.Slot(Abs())
      modifies this
      ensures Abs() == K.ReplyTimeout(cfg, old(Abs()), s, now)
    {
      hide K.TransportFailure;
      timer := None;
      if !inFlight {
        return;
      }
      if released || activeSeq != Some(s) {
        return;
      }
      HandleTransportFailure(TimedOut, sentAt.Some?, now);
    }

    method ReleaseRetry(item: Item, now: real)
      requires K.Slot(Abs())
      modifies this
      ensures Abs() == K.ReleaseRetry(cfg, old(Abs()), item, now)
    {
      hide K.Enqueue;
      CancelTransportRetryTimer(item.seqNo);
      if K.PastDeadline(item, now) {
        FailQueuedCommand(item.seqNo, TimedOut);
        return;
      }
      EnqueueRequest(item, now);
    }

    method CancelCommandTransport(s: int, removed: bool, now: real)
      requires K.Slot(Abs())
      modifies this
      ensures Abs() == K.CancelCommand(cfg, old(Abs()), s, removed, now)
    {
      hide K.CompleteActive;
      CancelTransportRetryTimer(s);
      RemoveQueuedSeq(s);
      if removed {
        due := due - multiset{s};
      }
      FailSeq(s, CancelledByCaller);
      if inFlight && activeSeq == Some(s) && !released {
        CompleteActive(true, now);
      }
    }

    method AbortRequests(why: Reason, now: real)
      requires K.Slot(Abs())
      modifies this
      ensures Abs() == K.Abort(old(Abs()), why)
    {
      hide K.FailSeq, K.Vacate, K.FailItems;
      var queued := EmptyQueues();
      if inFlight && activeSeq.Some? && !released {
        AbortActive(why, now);
      }
      FailDrained(queued, why);
      FailRest(why);
    }

    method FailRest(why: Reason)
      modifies this`book
      ensures Abs() == old(Abs()).(book := FailAll(old(book), why))
    {
      book := FailAll(book, why);
    }

    method EmptyQueues() returns (items: seq<Item>)
      modifies this`waiting, this`high, this`normal
      ensures items == old(waiting) + old(high) + old(normal)
      ensures Abs() == old(Abs()).(waiting := [], high := [], normal := [])
    {
      items := DrainQueues();
    }

    method DrainQueues() returns (items: seq<Item>)
      modifies this`waiting, this`high, this`normal
      ensures items == old(waiting) + old(high) + old(normal)
      ensures waiting == [] && high == [] && normal == []
    {
      items := waiting;
      waiting := [];
      while high != []
        invariant items + high == old(waiting) + old(high) && normal == old(normal) && waiting == []
        decreases |high|
      {
        assert high == [high[0]] + high[1..];
        items := items + [high[0]];
        high := high[1..];
      }
      while normal != []
        invariant items + normal == old(waiting) + old(high) + old(normal) && high == [] && waiting == []
        decreases |normal|
      {
        assert normal == [normal[0]] + normal[1..];
        items := items + [normal[0]];
        normal := normal[1..];
      }
    }

    method AbortActive(why: Reason, now: real)
      requires K.Slot(Abs()) && inFlight && activeSeq.Some? && !released
      modifies this
      ensures Abs() == K.Vacate(K.FailSeq(old(Abs()), old(activeSeq.value), why))
    {
      hide K.Vacate;
      FailSeq(activeSeq.value, why);
      CompleteActive(false, now);
    }

    method FailDrained(items: seq<Item>, why: Reason)
      modifies this
      ensures Abs() == K.FailItems(old(Abs()), items, why)
    {
      hide K.FailSeq;
      var queued := items;
      while queued != []
        invariant K.FailItems(Abs(), queued, why) == K.FailItems(old(Abs()), items, why)
        decreases |queued|
      {
        var item := queued[0];
        queued := queued[1..];
        FailSeq(item.seqNo, why);
      }
    }

    method Close(now: real)
      requires K.Slot(Abs())
      modifies this
      ensures Abs() == K.Close(old(Abs()))
    {
      hide K.Abort;
      AbortRequests(KernelClosed, now);
      sentEvents := {};
      session := false;
    }
  }
}
