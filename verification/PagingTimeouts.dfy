/** Expiry and reassembly together: every dispatch first drops the stale transfers, and a reply
    whose new blocks come less than the timeout apart is still assembled. */
module PagingTimeouts {
  import opened Prelude
  import opened Paging
  import opened PagingTheorems

  /** A dispatched message: a block of a matched reply on a paged route, or anything else. */
  datatype Delivery =
    | Reply(key: Key, payload: Payload, now: real, canRequest: bool, raises: bool)
    | Other(now: real)

  /** The timeouts of the paged routes, and the one of every other route. */
  datatype Timeouts = Timeouts(routes: map<Route, real>, default: real)

  function TimeoutFor(ts: Timeouts, key: Key): real {
    if key.route in ts.routes then ts.routes[key.route] else ts.default
  }

  /** What expiry keeps: the transfers less than their timeout old, as they are. */
  lemma ExpireKeeps(m: Transfers, ts: Timeouts, now: real, key: Key)
    ensures var r := Expire(m, ts.routes, ts.default, now);
      && (key in r <==> key in m && now - m[key].updated < TimeoutFor(ts, key))
      && (key in r ==> r[key] == m[key])
  {}

  function Sweep(ts: Timeouts, d: Delivery): Event { Expires(ts.routes, ts.default, d.now) }

  function Arrival(d: Delivery): Event
    requires d.Reply?
  {
    Arrives(d.key, d.payload, d.now, d.canRequest, d.raises)
  }

  /** Each dispatch is a sweep, then the block if it is one. */
  function EventsOf(ts: Timeouts, ds: seq<Delivery>): seq<Event> {
    if ds == [] then []
    else
      var d := ds[|ds| - 1];
      EventsOf(ts, ds[..|ds| - 1]) + [Sweep(ts, d)] + if d.Reply? then [Arrival(d)] else []
  }

  /** When the last new block of the transfer came. */
  function LastNew(ts: Timeouts, ds: seq<Delivery>, key: Key): Option<real> {
    if ds == [] then None
    else
      var before, d := ds[..|ds| - 1], ds[|ds| - 1];
      if d.Reply? && d.key == key && d.payload.blockId.Some?
         && d.payload.blockId.value !in Seen(EventsOf(ts, before), key)
      then Some(d.now)
      else LastNew(ts, before, key)
  }

  /** Every message of the run comes less than the timeout after the last new block before it. */
  predicate Timely(ts: Timeouts, ds: seq<Delivery>, key: Key) {
    forall i :: 0 <= i < |ds| ==>
      LastNew(ts, ds[..i], key).Some? ==> ds[i].now - LastNew(ts, ds[..i], key).value < TimeoutFor(ts, key)
  }

  predicate OneTransfer(ds: seq<Delivery>, key: Key, n: int) {
    forall i :: 0 <= i < |ds| && ds[i].Reply? && ds[i].key == key ==> BlockOf(ds[i].payload, n)
  }

  /** The stored transfer was last updated when its last new block came. */
  predicate Clock(ts: Timeouts, s: Transfers, ds: seq<Delivery>, key: Key) {
    match Lookup(s, key)
    case None => LastNew(ts, ds, key) == None
    case Some(t) => LastNew(ts, ds, key) == Some(t.updated)
  }

  lemma SteadyMore(m: Transfers, run: seq<Event>, e: Event, key: Key, n: nat)
    requires Steady(m, run, key, n) && SteadyAt(After(m, run), e, key, n)
    ensures Steady(m, run + [e], key, n) && After(m, run + [e]) == Step(After(m, run), e).transfers
  {
    hide SteadyAt, Step;
    var more := run + [e];
    assert more[..|run|] == run;
    forall i | 0 <= i < |more| ensures SteadyAt(After(m, more[..i]), more[i], key, n) {
      if i < |run| { assert more[..i] == run[..i] && more[i] == run[i]; }
    }
  }

  /** A timely sweep keeps the transfer. */
  lemma SweepKeeps(ts: Timeouts, s: Transfers, ds: seq<Delivery>, d: Delivery, key: Key, n: nat)
    requires Clock(ts, s, ds, key)
    requires LastNew(ts, ds, key).Some? ==> d.now - LastNew(ts, ds, key).value < TimeoutFor(ts, key)
    ensures SteadyAt(s, Sweep(ts, d), key, n)
    ensures Lookup(Step(s, Sweep(ts, d)).transfers, key) == Lookup(s, key)
  {
    hide LastNew;
    ExpireKeeps(s, ts, d.now, key);
  }

  /** A block of the transfer that does not complete it: a new one sets the clock. */
  lemma BlockClock(s: Transfers, d: Delivery, n: nat, received: set<int>)
    requires d.Reply? && BlockOf(d.payload, n)
    requires d.key in s ==> s[d.key].total == n && s[d.key].received.Keys == received
    requires d.key !in s ==> received == {}
    requires received + {d.payload.blockId.value} != Range(n) && received <= Range(n)
    ensures var r := Step(s, Arrival(d)).transfers;
      && d.key in r
      && (d.payload.blockId.value in received ==> r == s)
      && (d.payload.blockId.value !in received ==> r[d.key].updated == d.now)
  {
    var b := d.payload.blockId.value;
    var t := Stored(s, d.key, n, d.now);
    if b !in received {
      var t1 := Ask(Store(t, b, d.payload, d.now), d.canRequest, d.raises).0;
      assert t1.received.Keys == received + {b} && t1.updated == d.now;
      assert |t1.received| == |t1.received.Keys|;
      SubsetOfRange(t1.received.Keys, n);
    }
  }

  lemma NothingYet(ts: Timeouts, m: Transfers, key: Key, n: nat)
    requires key !in m
    ensures Steady(m, EventsOf(ts, []), key, n) && Clock(ts, After(m, EventsOf(ts, [])), [], key)
  {}

  lemma {:induction false} Steadily(ts: Timeouts, m: Transfers, ds: seq<Delivery>, key: Key, n: nat)
    requires key !in m && Timely(ts, ds, key) && OneTransfer(ds, key, n)
    requires Seen(EventsOf(ts, ds), key) != Range(n)
    ensures Steady(m, EventsOf(ts, ds), key, n)
    ensures Clock(ts, After(m, EventsOf(ts, ds)), ds, key)
    decreases |ds|
  {
    hide Steady, EventsOf, Seen, After, Clock, LastNew, Timely, OneTransfer, BlockOf;
    if ds == [] {
      NothingYet(ts, m, key, n);
    } else {
      var before, d := ds[..|ds| - 1], ds[|ds| - 1];
      Prefix(ts, ds, key, n);
      Steadily(ts, m, before, key, n);
      assert before + [d] == ds;
      OneDispatch(ts, m, before, d, key, n);
    }
  }

  /** One more dispatch: its events, what has been seen, and the clock. */
  lemma OneMore(ts: Timeouts, before: seq<Delivery>, d: Delivery, key: Key)
    ensures EventsOf(ts, before + [d])
         == EventsOf(ts, before) + [Sweep(ts, d)] + (if d.Reply? then [Arrival(d)] else [])
    ensures Seen(EventsOf(ts, before + [d]), key)
         == Seen(EventsOf(ts, before), key)
            + if d.Reply? && d.key == key && d.payload.blockId.Some? then {d.payload.blockId.value} else {}
    ensures LastNew(ts, before + [d], key)
         == if d.Reply? && d.key == key && d.payload.blockId.Some?
               && d.payload.blockId.value !in Seen(EventsOf(ts, before), key)
            then Some(d.now) else LastNew(ts, before, key)
  {
    assert (before + [d])[..|before|] == before;
    var run := EventsOf(ts, before);
    var run1 := run + [Sweep(ts, d)];
    assert run1[..|run|] == run;
    if d.Reply? {
      assert (run1 + [Arrival(d)])[..|run1|] == run1;
    } else {
      assert run1 + [] == run1;
    }
  }

  lemma {:induction false} SeenRange(ts: Timeouts, ds: seq<Delivery>, key: Key, n: nat)
    requires OneTransfer(ds, key, n)
    ensures Seen(EventsOf(ts, ds), key) <= Range(n)
  {
    if ds != [] {
      hide EventsOf, Seen;
      var before, d := ds[..|ds| - 1], ds[|ds| - 1];
      assert before + [d] == ds;
      OneMore(ts, before, d, key);
      assert forall i :: 0 <= i < |before| ==> before[i] == ds[i];
      SeenRange(ts, before, key, n);
    } else {
      NothingSeen(ts, key);
    }
  }

  lemma NothingSeen(ts: Timeouts, key: Key)
    ensures Seen(EventsOf(ts, []), key) == {}
  {}

  lemma Prefix(ts: Timeouts, ds: seq<Delivery>, key: Key, n: nat)
    requires ds != [] && Timely(ts, ds, key) && OneTransfer(ds, key, n)
    ensures var before, d := ds[..|ds| - 1], ds[|ds| - 1];
      && Timely(ts, before, key) && OneTransfer(before, key, n)
      && (LastNew(ts, before, key).Some? ==> d.now - LastNew(ts, before, key).value < TimeoutFor(ts, key))
      && (d.Reply? && d.key == key ==> BlockOf(d.payload, n))
      && (Seen(EventsOf(ts, before), key) == Range(n) ==> Seen(EventsOf(ts, ds), key) == Range(n))
  {
    hide EventsOf, Seen, LastNew;
    var before, d := ds[..|ds| - 1], ds[|ds| - 1];
    assert before + [d] == ds;
    OneMore(ts, before, d, key);
    SeenRange(ts, ds, key, n);
    forall i | 0 <= i < |before| ensures before[..i] == ds[..i] && before[i] == ds[i] {}
  }

  lemma OneDispatch(ts: Timeouts, m: Transfers, before: seq<Delivery>, d: Delivery, key: Key, n: nat)
    requires key !in m && Steady(m, EventsOf(ts, before), key, n)
    requires Clock(ts, After(m, EventsOf(ts, before)), before, key)
    requires LastNew(ts, before, key).Some? ==> d.now - LastNew(ts, before, key).value < TimeoutFor(ts, key)
    requires d.Reply? && d.key == key ==> BlockOf(d.payload, n)
    requires Seen(EventsOf(ts, before + [d]), key) != Range(n) && Seen(EventsOf(ts, before), key) != Range(n)
    ensures Steady(m, EventsOf(ts, before + [d]), key, n)
    ensures Clock(ts, After(m, EventsOf(ts, before + [d])), before + [d], key)
  {
    hide EventsOf, Seen, LastNew, Step, After, Steady, SteadyAt, BlockOf;
    var run := EventsOf(ts, before);
    OneMore(ts, before, d, key);
    SweepKeeps(ts, After(m, run), before, d, key, n);
    SteadyMore(m, run, Sweep(ts, d), key, n);
    var run1 := run + [Sweep(ts, d)];
    if !d.Reply? {
      assert run1 + [] == run1;
    } else {
      ArrivalSteady(After(m, run1), d, key, n);
      SteadyMore(m, run1, Arrival(d), key, n);
      if d.key == key {
        OwnArrival(ts, m, before, d, n);
      } else {
        ArrivesElsewhere(After(m, run1), Arrival(d), key);
      }
    }
  }

  lemma ArrivalSteady(s: Transfers, d: Delivery, key: Key, n: nat)
    requires d.Reply? && (d.key == key ==> BlockOf(d.payload, n))
    ensures SteadyAt(s, Arrival(d), key, n)
  {}

  lemma OwnArrival(ts: Timeouts, m: Transfers, before: seq<Delivery>, d: Delivery, n: nat)
    requires d.Reply? && d.key !in m && BlockOf(d.payload, n)
    requires Steady(m, EventsOf(ts, before), d.key, n)
    requires Steady(m, EventsOf(ts, before + [d]), d.key, n)
    requires Seen(EventsOf(ts, before + [d]), d.key) != Range(n) && Seen(EventsOf(ts, before), d.key) != Range(n)
    requires Clock(ts, After(m, EventsOf(ts, before)), before, d.key)
    requires Lookup(After(m, EventsOf(ts, before) + [Sweep(ts, d)]), d.key)
          == Lookup(After(m, EventsOf(ts, before)), d.key)
    ensures var s1 := After(m, EventsOf(ts, before) + [Sweep(ts, d)]);
      Clock(ts, Step(s1, Arrival(d)).transfers, before + [d], d.key)
  {
    hide EventsOf, Seen, LastNew, Step, After, Steady;
    var run := EventsOf(ts, before);
    var s1 := After(m, run + [Sweep(ts, d)]);
    OneMore(ts, before, d, d.key);
    SeenInRange(m, EventsOf(ts, before + [d]), d.key, n);
    Collects(m, run, d.key, n);
    BlockClock(s1, d, n, Seen(run, d.key));
  }

  /** Blocks 1..n of a reply, dispatched in any order with duplicates and any other messages in
      between, each less than the timeout after the last new block before it: nothing is released
      until the last of them is in, and then the message is made of blocks 1..n in ascending
      order, each its first copy. */
  lemma TimelyReplyAssembled(ts: Timeouts, m: Transfers, ds: seq<Delivery>, last: Delivery, key: Key, n: nat)
    requires key !in m && last.Reply? && last.key == key
    requires Timely(ts, ds + [last], key) && OneTransfer(ds + [last], key, n)
    requires Seen(EventsOf(ts, ds), key) != Range(n)
    ensures var run, all := EventsOf(ts, ds) + [Sweep(ts, last)], EventsOf(ts, ds + [last]);
      var out := Step(After(m, run), Arrival(last));
      if Seen(all, key) != Range(n) then out.handling == Consumed
      else
        && key !in out.transfers
        && out.handling.Assembled? && out.handling.total == n && |out.handling.blocks| == n
        && forall i :: 1 <= i <= n ==>
             i in Seen(all, key) && out.handling.blocks[i - 1] == Block(i, FirstCopy(all, key, i))
  {
    hide EventsOf, Seen, LastNew, Step, After, Steady, SteadyAt, FirstCopy;
    var all := ds + [last];
    assert all[..|all| - 1] == ds && all[|all| - 1] == last;
    Prefix(ts, all, key, n);
    Steadily(ts, m, ds, key, n);
    OneMore(ts, ds, last, key);
    var run := EventsOf(ts, ds);
    SweepKeeps(ts, After(m, run), ds, last, key, n);
    SteadyMore(m, run, Sweep(ts, last), key, n);
    ArrivalSteady(After(m, run + [Sweep(ts, last)]), last, key, n);
    SteadyMore(m, run + [Sweep(ts, last)], Arrival(last), key, n);
    SweepSeen(ts, run, last, key);
    Reassembled(m, run + [Sweep(ts, last)], Arrival(last), key, n);
  }

  lemma SweepSeen(ts: Timeouts, run: seq<Event>, d: Delivery, key: Key)
    ensures Seen(run + [Sweep(ts, d)], key) == Seen(run, key)
  {
    assert (run + [Sweep(ts, d)])[..|run|] == run;
  }

  /** And a late one is not: a transfer whose timeout has passed is gone after the sweep, and the
      block that comes with it opens a new one. */
  lemma LateReplyDropped(ts: Timeouts, m: Transfers, d: Delivery)
    requires d.Reply? && d.key in m && d.now - m[d.key].updated >= TimeoutFor(ts, d.key)
    ensures d.key !in Step(m, Sweep(ts, d)).transfers
  {
    ExpireKeeps(m, ts, d.now, d.key);
  }

  // ---------------------------------------------------------------- keys and outcomes

  /** Which transfer a matched reply belongs to: the one its request carries; without one, replies
      belong together exactly if session, number and route agree. */
  lemma KeysApart(a: Message, b: Message, r: PendingRequest, q: PendingRequest)
    requires r.context.None? && q.context.None?
    ensures TransferKey(a, Some(r)) == TransferKey(b, Some(q))
            <==> a.session == b.session && r.seqNo == q.seqNo && a.route == b.route
    ensures TransferKey(a, None) == None
    ensures forall k :: TransferKey(a, Some(r.(context := Some(k)))) == Some(k)
  {}

  /** Which blocks are passed on raw, their transfer dropped, and which are consumed unseen. */
  lemma PassedOn(m: Transfers, key: Key, p: Payload, now: real, canRequest: bool, raises: bool)
    ensures var out := Accept(m, key, p, now, canRequest, raises);
      && (out.handling == PassThrough
          <==> p.errorCode == Some(11008) || (ValidIds(p) && key in m && m[key].total != p.blockCount.value))
      && (out.handling == PassThrough ==> out.transfers == m - {key} && out.asked == None)
      && (out.handling != PassThrough && (!ValidIds(p) || (key in m && p.blockId.value in m[key].received))
          ==> out == Out(m, Consumed, None))
  {}
}
