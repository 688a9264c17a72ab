/** What reassembly delivers over whole runs of arrivals. */
module PagingTheorems {
  import opened Prelude
  import opened Paging

  datatype Event =
    | Arrives(key: Key, payload: Payload, now: real, canRequest: bool, raises: bool)
    | Expires(timeouts: map<Route, real>, default: real, now: real)
    | Aborts

  function Step(m: Transfers, e: Event): Out {
    match e
    case Arrives(key, p, now, canRequest, raises) => Accept(m, key, p, now, canRequest, raises)
    case Expires(timeouts, default, now) => Out(Expire(m, timeouts, default, now), Consumed, None)
    case Aborts => Out(map[], Consumed, None)
  }

  function After(m: Transfers, run: seq<Event>): Transfers {
    if run == [] then m else Step(After(m, run[..|run| - 1]), run[|run| - 1]).transfers
  }

  function Lookup(m: Transfers, key: Key): Option<Transfer> { if key in m then Some(m[key]) else None }

  // ---------------------------------------------------------------- transfers do not mix

  function OnlyFor(run: seq<Event>, key: Key): seq<Event> {
    if run == [] then []
    else
      var rest, e := OnlyFor(run[..|run| - 1], key), run[|run| - 1];
      if e.Arrives? && e.key != key then rest else rest + [e]
  }

  /** A step reads and changes nothing but its own transfer: what it does to `key`, and how the
      message is handled, is settled by what is stored under `key`. */
  lemma StepIsLocal(m: Transfers, m': Transfers, e: Event, key: Key)
    requires Lookup(m, key) == Lookup(m', key)
    ensures e.Arrives? && e.key != key ==> Lookup(Step(m, e).transfers, key) == Lookup(m, key)
    ensures !(e.Arrives? && e.key != key) ==>
              Lookup(Step(m, e).transfers, key) == Lookup(Step(m', e).transfers, key)
    ensures e.Arrives? && e.key == key ==>
              Step(m, e).handling == Step(m', e).handling && Step(m, e).asked == Step(m', e).asked
  {
    hide Accept, Expire;
    if e.Arrives? {
      if e.key != key { ArrivesElsewhere(m, e, key); } else { ArrivesHere(m, m', e); }
    } else if e.Expires? {
      ExpiresAlike(m, m', e, key);
    }
  }

  lemma ArrivesElsewhere(m: Transfers, e: Event, key: Key)
    requires e.Arrives? && e.key != key
    ensures Lookup(Step(m, e).transfers, key) == Lookup(m, key)
  {}

  lemma ArrivesHere(m: Transfers, m': Transfers, e: Event)
    requires e.Arrives? && Lookup(m, e.key) == Lookup(m', e.key)
    ensures Lookup(Step(m, e).transfers, e.key) == Lookup(Step(m', e).transfers, e.key)
    ensures Step(m, e).handling == Step(m', e).handling && Step(m, e).asked == Step(m', e).asked
  {}

  lemma ExpiresAlike(m: Transfers, m': Transfers, e: Event, key: Key)
    requires e.Expires? && Lookup(m, key) == Lookup(m', key)
    ensures Lookup(Step(m, e).transfers, key) == Lookup(Step(m', e).transfers, key)
  {}

  /** Over every run, with expiry and aborts, a transfer is what its own messages make it. */
  lemma {:induction false} TransfersDoNotMix(m: Transfers, run: seq<Event>, key: Key)
    ensures Lookup(After(m, run), key) == Lookup(After(m, OnlyFor(run, key)), key)
  {
    if run != [] {
      var before, e := run[..|run| - 1], run[|run| - 1];
      TransfersDoNotMix(m, before, key);
      StepIsLocal(After(m, before), After(m, OnlyFor(before, key)), e, key);
      if !(e.Arrives? && e.key != key) {
        var kept := OnlyFor(before, key);
        assert (kept + [e])[..|kept|] == kept;
      }
    }
  }

  // ---------------------------------------------------------------- reassembly

  /** A matched, well-formed block of a transfer of `n` blocks. */
  predicate BlockOf(p: Payload, n: int) {
    ValidIds(p) && p.blockCount == Some(n) && p.errorCode != Some(AUTH_REQUIRED)
  }

  /** The arrivals under `key` are blocks of a transfer of `n`, and it is neither expired nor
      aborted while it is stored; other keys may do anything. */
  predicate SteadyAt(m: Transfers, e: Event, key: Key, n: int) {
    if e.Arrives? then e.key == key ==> BlockOf(e.payload, n)
    else key in m ==> key in Step(m, e).transfers
  }

  predicate Steady(m: Transfers, run: seq<Event>, key: Key, n: int) {
    forall i :: 0 <= i < |run| ==> SteadyAt(After(m, run[..i]), run[i], key, n)
  }

  predicate IsBlock(e: Event, key: Key, id: int) {
    e.Arrives? && e.key == key && e.payload.blockId == Some(id)
  }

  /** The block numbers that have arrived under `key`. */
  function Seen(run: seq<Event>, key: Key): set<int> {
    if run == [] then {}
    else
      var e := run[|run| - 1];
      Seen(run[..|run| - 1], key)
      + if e.Arrives? && e.key == key && e.payload.blockId.Some? then {e.payload.blockId.value} else {}
  }

  /** The first copy of a block that has arrived. */
  function FirstCopy(run: seq<Event>, key: Key, id: int): Payload
    requires id in Seen(run, key)
  {
    if id in Seen(run[..|run| - 1], key) then FirstCopy(run[..|run| - 1], key, id)
    else run[|run| - 1].payload
  }

  /** `FirstCopy` is the payload of an arrival before which the block had not arrived. */
  lemma {:induction false} FirstCopyIsFirst(run: seq<Event>, key: Key, id: int)
    requires id in Seen(run, key)
    ensures exists i :: 0 <= i < |run| && IsBlock(run[i], key, id) && run[i].payload == FirstCopy(run, key, id)
                        && forall j :: 0 <= j < i ==> !IsBlock(run[j], key, id)
  {
    var before := run[..|run| - 1];
    if id in Seen(before, key) {
      FirstCopyIsFirst(before, key, id);
      var i :| 0 <= i < |before| && IsBlock(before[i], key, id)
               && before[i].payload == FirstCopy(before, key, id)
               && forall j :: 0 <= j < i ==> !IsBlock(before[j], key, id);
      assert run[i] == before[i] && forall j :: 0 <= j < i ==> run[j] == before[j];
    } else {
      NotSeen(before, key, id);
      assert IsBlock(run[|run| - 1], key, id);
      assert forall j :: 0 <= j < |run| - 1 ==> run[j] == before[j];
    }
  }

  lemma {:induction false} NotSeen(run: seq<Event>, key: Key, id: int)
    requires id !in Seen(run, key)
    ensures forall j :: 0 <= j < |run| ==> !IsBlock(run[j], key, id)
  {
    if run != [] {
      var before := run[..|run| - 1];
      NotSeen(before, key, id);
      forall j | 0 <= j < |run| ensures !IsBlock(run[j], key, id) {
        if j < |before| { assert run[j] == before[j]; }
      }
    }
  }

  function Range(n: nat): (r: set<int>)
    ensures forall i :: i in r <==> 1 <= i <= n
  {
    if n == 0 then {} else Range(n - 1) + {n}
  }

  lemma {:induction false} RangeSize(n: nat)
    ensures |Range(n)| == n
  {
    if n == 0 {
      assert Range(0) == {};
    } else {
      RangeSize(n - 1);
      assert Range(n) == Range(n - 1) + {n};
    }
  }

  lemma {:induction false} SubsetOfRange(s: set<int>, n: nat)
    requires s <= Range(n)
    ensures |s| <= n && (|s| == n <==> s == Range(n))
  {
    RangeSize(n);
    if n == 0 {
      assert s == {};
    } else if n in s {
      assert s - {n} <= Range(n - 1) && s == s - {n} + {n} && Range(n) == Range(n - 1) + {n};
      SubsetOfRange(s - {n}, n - 1);
    } else {
      assert s <= Range(n - 1) && n in Range(n);
      SubsetOfRange(s, n - 1);
    }
  }

  /** What is stored for a transfer: its block count, and the first copy of each block seen. */
  ghost predicate Holds(t: Option<Transfer>, run: seq<Event>, key: Key, n: int) {
    match t
    case None => Seen(run, key) == {}
    case Some(t) =>
      && t.total == n && t.received.Keys == Seen(run, key) != {}
      && (forall id :: id in t.received ==> t.received[id] == FirstCopy(run, key, id))
      && t.received.Keys <= t.requested
  }

  lemma {:induction false} SeenInRange(m: Transfers, run: seq<Event>, key: Key, n: nat)
    requires Steady(m, run, key, n)
    ensures Seen(run, key) <= Range(n)
  {
    if run != [] {
      SteadyPrefix(m, run, key, n);
      SeenInRange(m, run[..|run| - 1], key, n);
    }
  }

  lemma SteadyPrefix(m: Transfers, run: seq<Event>, key: Key, n: nat)
    requires run != [] && Steady(m, run, key, n)
    ensures var before := run[..|run| - 1];
      Steady(m, before, key, n) && SteadyAt(After(m, before), run[|run| - 1], key, n)
  {
    hide SteadyAt, After;
    var before := run[..|run| - 1];
    forall i | 0 <= i < |before| ensures SteadyAt(After(m, before[..i]), before[i], key, n) {
      assert before[..i] == run[..i];
    }
  }

  /** Nothing but a block of its own changes a steady transfer. */
  lemma OthersLeaveAlone(m: Transfers, e: Event, key: Key, n: nat)
    requires SteadyAt(m, e, key, n) && !(e.Arrives? && e.key == key)
    ensures Lookup(Step(m, e).transfers, key) == Lookup(m, key)
  {
    if e.Arrives? { ArrivesElsewhere(m, e, key); }
  }

  lemma {:induction false} Collects(m: Transfers, run: seq<Event>, key: Key, n: nat)
    requires key !in m && Steady(m, run, key, n) && Seen(run, key) != Range(n)
    ensures Holds(Lookup(After(m, run), key), run, key, n)
  {
    if run != [] {
      hide Step, Holds, Steady;
      var before, e := run[..|run| - 1], run[|run| - 1];
      assert before + [e] == run;
      SteadyPrefix(m, run, key, n);
      SeenInRange(m, run, key, n);
      Collects(m, before, key, n);
      if e.Arrives? && e.key == key {
        CollectsOne(After(m, before), before, e, key, n);
      } else {
        OthersLeaveAlone(After(m, before), e, key, n);
        HoldsBeside(Lookup(After(m, before), key), before, e, key, n);
      }
    }
  }

  lemma SeenOne(before: seq<Event>, e: Event, key: Key)
    ensures Seen(before + [e], key)
         == Seen(before, key)
            + if e.Arrives? && e.key == key && e.payload.blockId.Some? then {e.payload.blockId.value} else {}
    ensures forall id :: id in Seen(before, key) ==>
              FirstCopy(before + [e], key, id) == FirstCopy(before, key, id)
    ensures forall id :: id in Seen(before + [e], key) && id !in Seen(before, key) ==>
              FirstCopy(before + [e], key, id) == e.payload
  {}

  lemma HoldsBeside(t: Option<Transfer>, before: seq<Event>, e: Event, key: Key, n: nat)
    requires Holds(t, before, key, n)
    requires !(e.Arrives? && e.key == key) || e.payload.blockId.None? || e.payload.blockId.value in Seen(before, key)
    ensures Holds(t, before + [e], key, n)
  {}

  function Stored(m: Transfers, key: Key, n: int, now: real): Transfer {
    if key in m then m[key] else Transfer(n, now, map[], {})
  }

  lemma HoldsMore(m: Transfers, t1: Transfer, before: seq<Event>, e: Event, key: Key, n: nat)
    requires Holds(Lookup(m, key), before, key, n) && e.Arrives? && e.key == key && BlockOf(e.payload, n)
    requires var t, b := Stored(m, key, n, e.now), e.payload.blockId.value;
      && b !in t.received && t1.received == t.received[b := e.payload] && t1.total == n
      && t.requested + {b} <= t1.requested
    ensures Holds(Some(t1), before + [e], key, n)
  {}

  /** The three ways a well-formed block of a known or new transfer goes. */
  lemma AcceptShape(m: Transfers, e: Event, n: int) returns (t1: Transfer)
    requires e.Arrives? && BlockOf(e.payload, n) && (e.key in m ==> m[e.key].total == n)
    ensures var t, b, out := Stored(m, e.key, n, e.now), e.payload.blockId.value, Step(m, e);
      if b in t.received then out == Out(m, Consumed, None)
      else
        && t1.received == t.received[b := e.payload] && t1.total == n && t.requested + {b} <= t1.requested
        && out.transfers == (if |t1.received| < n then m[e.key := t1] else m - {e.key})
        && out.handling == if |t1.received| < n then Consumed
                           else Assembled(BlocksFrom(t1.received, 1, n), n)
  {
    var t := Stored(m, e.key, n, e.now);
    t1 := Ask(Store(t, e.payload.blockId.value, e.payload, e.now), e.canRequest, e.raises).0;
  }

  lemma CollectsOne(m: Transfers, before: seq<Event>, e: Event, key: Key, n: nat)
    requires Holds(Lookup(m, key), before, key, n)
    requires e.Arrives? && e.key == key && BlockOf(e.payload, n)
    requires Seen(before + [e], key) <= Range(n) && Seen(before, key) != Range(n)
    ensures Seen(before + [e], key) != Range(n) ==>
      && Step(m, e).handling == Consumed
      && Holds(Lookup(Step(m, e).transfers, key), before + [e], key, n)
    ensures Seen(before + [e], key) == Range(n) ==>
      && key !in Step(m, e).transfers
      && exists t: Transfer :: Holds(Some(t), before + [e], key, n)
           && Step(m, e).handling == Assembled(BlocksFrom(t.received, 1, n), n)
  {
    hide Step;
    var t, b := Stored(m, key, n, e.now), e.payload.blockId.value;
    SeenOne(before, e, key);
    var t1 := AcceptShape(m, e, n);
    if b in t.received {
      HoldsBeside(Lookup(m, key), before, e, key, n);
    } else {
      HoldsMore(m, t1, before, e, key, n);
      assert |t1.received| == |t1.received.Keys|;
      SubsetOfRange(t1.received.Keys, n);
    }
  }

  lemma {:induction false} BlocksAscending(received: map<int, Payload>, lo: int, hi: int)
    requires lo <= hi + 1 && forall i :: lo <= i <= hi ==> i in received
    ensures var blocks := BlocksFrom(received, lo, hi);
      |blocks| == hi - lo + 1
      && forall i :: 0 <= i < |blocks| ==> blocks[i] == Block(lo + i, received[lo + i])
    decreases hi - lo
  {
    if lo <= hi {
      BlocksAscending(received, lo + 1, hi);
    }
  }

  /** Any order, any duplicates, any other transfers in between, as long as the transfer is not
      expired or aborted: until the last of the blocks
      1..n is in, every block is consumed; the block that completes the set releases the
      message, made of blocks 1..n in ascending order, each the first copy that arrived, and
      the transfer is gone. */
  lemma Reassembled(m: Transfers, run: seq<Event>, last: Event, key: Key, n: nat)
    requires key !in m && Steady(m, run + [last], key, n) && last.Arrives? && last.key == key
    requires Seen(run, key) != Range(n)
    ensures var all, out := run + [last], Step(After(m, run), last);
      if Seen(all, key) != Range(n) then out.handling == Consumed
      else
        && key !in out.transfers
        && out.handling.Assembled? && out.handling.total == n && |out.handling.blocks| == n
        && forall i :: 1 <= i <= n ==>
             i in Seen(all, key) && out.handling.blocks[i - 1] == Block(i, FirstCopy(all, key, i))
  {
    hide Step, After, Seen, FirstCopy, Steady, Holds;
    var all := run + [last];
    assert all[..|run|] == run && all[|run|] == last;
    SteadyPrefix(m, all, key, n);
    SeenInRange(m, all, key, n);
    Collects(m, run, key, n);
    CollectsOne(After(m, run), run, last, key, n);
    if Seen(all, key) == Range(n) {
      var t: Transfer :| Holds(Some(t), all, key, n)
           && Step(After(m, run), last).handling == Assembled(BlocksFrom(t.received, 1, n), n);
      CompleteBlocks(t, all, key, n);
    }
  }

  lemma CompleteBlocks(t: Transfer, run: seq<Event>, key: Key, n: nat)
    requires Holds(Some(t), run, key, n) && Seen(run, key) == Range(n)
    ensures var blocks := BlocksFrom(t.received, 1, n);
      |blocks| == n
      && forall i :: 1 <= i <= n ==> i in Seen(run, key) && blocks[i - 1] == Block(i, FirstCopy(run, key, i))
  {
    hide Seen, FirstCopy;
    BlocksAscending(t.received, 1, n);
    var blocks := BlocksFrom(t.received, 1, n);
    forall i | 1 <= i <= n ensures i in Seen(run, key) && blocks[i - 1] == Block(i, FirstCopy(run, key, i)) {
      assert i in t.received;
    }
  }

  // ---------------------------------------------------------------- requests

  lemma {:induction false} NextMissingIs(t: Transfer, lo: int, hi: int)
    ensures match NextMissing(t, lo, hi)
      case None => forall b :: lo <= b <= hi ==> b in t.received || b in t.requested
      case Some(b) => lo <= b <= hi && b !in t.received && b !in t.requested
    decreases hi - lo
  {
    if lo <= hi && (lo in t.received || lo in t.requested) {
      NextMissingIs(t, lo + 1, hi);
    }
  }

  /** Requested and not yet received. */
  function Outstanding(t: Transfer): set<int> { t.requested - t.received.Keys }

  /** A transfer never stalls by itself: after an accepted block that does not complete it, a
      block is outstanding, unless the callback raised and nothing else was outstanding. */
  lemma NeverStalls(m: Transfers, key: Key, p: Payload, n: int, now: real, raises: bool)
    requires BlockOf(p, n)
    requires var t := Stored(m, key, n, now);
      t.total == n && t.received.Keys <= Range(n) && p.blockId.value !in t.received
    ensures var out := Accept(m, key, p, now, true, raises);
      out.handling == Consumed ==>
        && key in out.transfers
        && (Outstanding(out.transfers[key]) == {}
            <==> raises && Outstanding(Stored(m, key, n, now)) <= {p.blockId.value})
  {
    var b, t := p.blockId.value, Stored(m, key, n, now);
    var t0 := Store(t, b, p, now);
    var (t1, asked) := Ask(t0, true, raises);
    if |t0.received| < n {
      assert t0.received.Keys == t.received.Keys + {b};
      AskLeavesOne(t0, n, raises);
      assert Outstanding(t0) == Outstanding(t) - {b};
    }
  }

  lemma AskLeavesOne(t: Transfer, n: nat, raises: bool)
    requires t.total == n && t.received.Keys <= Range(n) && |t.received| < n
    ensures var (t1, asked) := Ask(t, true, raises);
      t1.received == t.received
      && (Outstanding(t1) == {} <==> raises && Outstanding(t) == {})
  {
    NextMissingIs(t, 1, n);
    assert |t.received| == |t.received.Keys|;
    SubsetOfRange(t.received.Keys, n);
    var missing :| missing in Range(n) && missing !in t.received;
    var (t1, asked) := Ask(t, true, raises);
    if asked == None {
      assert missing in Outstanding(t1);
    } else if !raises {
      assert asked.value in Outstanding(t1);
    }
  }

  /** The blocks successfully requested for a transfer, in order. */
  function Requests(m: Transfers, run: seq<Event>, key: Key): seq<int> {
    if run == [] then []
    else
      var before, e := run[..|run| - 1], run[|run| - 1];
      var asked := Step(After(m, before), e).asked;
      Requests(m, before, key)
      + if e.Arrives? && e.key == key && asked.Some? && !e.raises then [asked.value] else []
  }

  ghost predicate AllRequested(r: seq<int>, t: Option<Transfer>) {
    && (forall i, j :: 0 <= i < j < |r| ==> r[i] != r[j])
    && (forall b :: b in r ==> t.Some? && b in t.value.requested)
  }

  /** Within a transfer no block is successfully requested twice, nor after it has arrived. */
  lemma {:induction false} RequestedOnce(m: Transfers, run: seq<Event>, key: Key, n: nat)
    requires key !in m && Steady(m, run, key, n) && Seen(run, key) != Range(n)
    ensures AllRequested(Requests(m, run, key), Lookup(After(m, run), key))
    decreases |run|
  {
    hide Step, AllRequested, Steady, SteadyAt;
    if run == [] {
      NoneRequested(Lookup(After(m, run), key));
    } else {
      var before, e := run[..|run| - 1], run[|run| - 1];
      assert before + [e] == run;
      SteadyPrefix(m, run, key, n);
      SeenInRange(m, run, key, n);
      SeenOne(before, e, key);
      RequestedOnce(m, before, key, n);
      if e.Arrives? && e.key == key {
        OwnBlock(After(m, before), e, key, n);
        KeyStored(m, before, key, n);
        KeyStored(m, run, key, n);
        RequestsMore(After(m, before), e, n, Requests(m, before, key));
      } else {
        OthersLeaveAlone(After(m, before), e, key, n);
        assert Requests(m, before, key) + [] == Requests(m, before, key);
      }
    }
  }

  lemma NoneRequested(t: Option<Transfer>)
    ensures AllRequested([], t)
  {}

  lemma RequestsMore(m: Transfers, e: Event, n: nat, r: seq<int>)
    requires e.Arrives? && BlockOf(e.payload, n) && AllRequested(r, Lookup(m, e.key))
    requires (e.key in m ==> m[e.key].total == n) && e.key in Step(m, e).transfers
    ensures var asked := Step(m, e).asked;
      AllRequested(r + (if asked.Some? && !e.raises then [asked.value] else []), Lookup(Step(m, e).transfers, e.key))
  {
    hide Step, AllRequested;
    RequestsOne(m, e, e.key, n);
    var asked := Step(m, e).asked;
    RequestsAppend(r, Lookup(m, e.key), Step(m, e).transfers[e.key], if asked.Some? && !e.raises then asked else None);
  }

  lemma KeyStored(m: Transfers, run: seq<Event>, key: Key, n: nat)
    requires key !in m && Steady(m, run, key, n) && Seen(run, key) != Range(n)
    ensures key in After(m, run) <==> Seen(run, key) != {}
    ensures key in After(m, run) ==> After(m, run)[key].total == n
  {
    Collects(m, run, key, n);
  }

  lemma OwnBlock(m: Transfers, e: Event, key: Key, n: nat)
    requires SteadyAt(m, e, key, n) && e.Arrives? && e.key == key
    ensures BlockOf(e.payload, n)
  {}

  lemma RequestsAppend(r: seq<int>, t: Option<Transfer>, t1: Transfer, b: Option<int>)
    requires AllRequested(r, t) && (t.Some? ==> t.value.requested <= t1.requested)
    requires b.Some? ==> b.value in t1.requested && (t.Some? ==> b.value !in t.value.requested)
    ensures AllRequested(r + if b.Some? then [b.value] else [], Some(t1))
  {
    if b.Some? {
      var r' := r + [b.value];
      forall i, j | 0 <= i < j < |r'| ensures r'[i] != r'[j] {
        assert r[i] in r;
      }
      forall c | c in r' ensures c in t1.requested {
        if c in r { assert t.Some?; }
      }
    } else {
      assert r + [] == r;
    }
  }

  lemma RequestsOne(m: Transfers, e: Event, key: Key, n: nat)
    requires e.Arrives? && e.key == key && BlockOf(e.payload, n)
    requires key in m ==> m[key].total == n
    requires key in Step(m, e).transfers
    ensures key in m ==> m[key].requested <= Step(m, e).transfers[key].requested
    ensures var asked := Step(m, e).asked;
      asked.Some? && !e.raises ==>
        (key in m ==> asked.value !in m[key].requested) && asked.value in Step(m, e).transfers[key].requested
  {
    var t := if key in m then m[key] else Transfer(n, e.now, map[], {});
    NextMissingIs(Store(t, e.payload.blockId.value, e.payload, e.now), 1, n);
  }
}
