/** Message sequence numbers: their allocation, and the tracker of raw pass-through numbers. */
module SeqNumbers {
  import opened Prelude

  const PERIOD := 2_147_483_638

  // ---------------------------------------------------------------- allocation

  /** The number the next call hands out when the counter field holds `counter`. */
  function Issue(counter: int): int {
    if counter <= 0 || counter > MAX_SEQ then 10 else counter
  }

  function Advance(counter: int): int {
    if Issue(counter) + 1 > MAX_SEQ then 10 else Issue(counter) + 1
  }

  /** The counter after `n` calls on a new kernel. */
  function Counter(n: nat): int {
    if n == 0 then 1 else Advance(Counter(n - 1))
  }

  function Issued(n: nat): int { Issue(Counter(n)) }

  lemma {:induction false} CounterClosedForm(n: nat)
    ensures Counter(n) == if n < MAX_SEQ then n + 1 else 10 + (n - MAX_SEQ) % PERIOD
  {
    if n > 0 {
      CounterClosedForm(n - 1);
      if n > MAX_SEQ {
        ModStep(n - 1 - MAX_SEQ);
      }
    }
  }

  lemma ModStep(k: nat)
    ensures (k + 1) % PERIOD == if k % PERIOD == PERIOD - 1 then 0 else k % PERIOD + 1
  {
    var q, r := k / PERIOD, k % PERIOD;
    assert k + 1 == PERIOD * q + (r + 1);
    if r == PERIOD - 1 {
      assert k + 1 == PERIOD * (q + 1);
    }
  }

  /** Any `PERIOD` consecutive numbers are distinct and lie in 1..2^31-1. */
  lemma WindowDistinct(i: nat, j: nat)
    requires i < j < i + PERIOD
    ensures 1 <= Issued(i) <= MAX_SEQ && Issued(i) != Issued(j)
  {
    CounterClosedForm(i);
    CounterClosedForm(j);
    if i >= MAX_SEQ {
      var a, b := i - MAX_SEQ, j - MAX_SEQ;
      if a % PERIOD == b % PERIOD {
        assert b - a == PERIOD * (b / PERIOD - a / PERIOD);
        NoMultipleBetween(b / PERIOD - a / PERIOD);
      }
    } else if j >= MAX_SEQ {
      assert j - MAX_SEQ < PERIOD;
      assert (j - MAX_SEQ) % PERIOD == j - MAX_SEQ;
    }
  }

  lemma NoMultipleBetween(q: int)
    ensures !(0 < PERIOD * q < PERIOD)
  {}

  /** The window cannot be longer: past the first nine numbers, every number comes back after
      exactly `PERIOD` calls. */
  lemma ReusedAfterPeriod(i: nat)
    requires i >= 9
    ensures Issued(i + PERIOD) == Issued(i)
  {
    CounterClosedForm(i);
    CounterClosedForm(i + PERIOD);
    if i >= MAX_SEQ {
      var a := i - MAX_SEQ;
      assert (a + PERIOD) % PERIOD == a % PERIOD by {
        assert a + PERIOD == PERIOD * (a / PERIOD + 1) + a % PERIOD;
      }
    }
  }

  // ---------------------------------------------------------------- the raw tracker

  datatype Tracker = Tracker(inflight: set<int>, recent: set<int>, order: seq<int>)

  const EMPTY := Tracker({}, {}, [])

  function Mark(t: Tracker, s: int): Tracker { t.(inflight := t.inflight + {s}) }

  function Trim(t: Tracker, window: nat): Tracker
    decreases |t.order|
  {
    if |t.order| <= window then t
    else
      var gone := t.order[0];
      Trim(t.(order := t.order[1..],
              recent := if gone in t.inflight then t.recent else t.recent - {gone}), window)
  }

  function Finish(t: Tracker, s: int, window: nat): Tracker {
    if s !in t.inflight then t
    else if s in t.recent then t.(inflight := t.inflight - {s})
    else Trim(Tracker(t.inflight - {s}, t.recent + {s}, t.order + [s]), window)
  }

  predicate Member(t: Tracker, s: int) { s in t.inflight || s in t.recent }

  class RawSeqTracker {
    const lateWindow: nat
    var inflight: set<int>
    var recent: set<int>
    var recentOrder: seq<int>

    ghost function Abs(): Tracker
      reads this
    {
      Tracker(inflight, recent, recentOrder)
    }

    constructor (lateWindow: nat := 256)
      ensures Abs() == EMPTY && this.lateWindow == lateWindow
    {
      this.lateWindow := lateWindow;
      inflight, recent, recentOrder := {}, {}, [];
    }

    method MarkSeq(s: int)
      modifies this
      ensures Abs() == Mark(old(Abs()), s)
    {
      inflight := inflight + {s};
    }

    method FinishSeq(s: int)
      modifies this
      ensures Abs() == Finish(old(Abs()), s, lateWindow)
    {
      if s !in inflight {
        return;
      }
      inflight := inflight - {s};
      if s in recent {
        return;
      }
      recent := recent + {s};
      recentOrder := recentOrder + [s];
      while |recentOrder| > lateWindow
        invariant Trim(Abs(), lateWindow) == Finish(old(Abs()), s, lateWindow)
        decreases |recentOrder|
      {
        var oldest := recentOrder[0];
        recentOrder := recentOrder[1..];
        if oldest !in inflight {
          recent := recent - {oldest};
        }
      }
    }

    method Contains(s: int) returns (b: bool)
      ensures b == Member(Abs(), s)
    {
      b := s in inflight || s in recent;
    }
  }

  datatype Op = MarkOp(s: int) | FinishOp(s: int)

  function Apply(t: Tracker, op: Op, window: nat): Tracker {
    match op case MarkOp(s) => Mark(t, s) case FinishOp(s) => Finish(t, s, window)
  }

  function Run(ops: seq<Op>, window: nat): Tracker {
    if ops == [] then EMPTY else Apply(Run(ops[..|ops| - 1], window), ops[|ops| - 1], window)
  }

  /** The numbers marked and not finished since. */
  function Unfinished(ops: seq<Op>): set<int> {
    if ops == [] then {}
    else
      var before := Unfinished(ops[..|ops| - 1]);
      match ops[|ops| - 1] case MarkOp(s) => before + {s} case FinishOp(s) => before - {s}
  }

  /** The numbers finished while in flight, oldest first. */
  function Finished(ops: seq<Op>): seq<int> {
    if ops == [] then []
    else
      var before := ops[..|ops| - 1];
      match ops[|ops| - 1]
      case MarkOp(_) => Finished(before)
      case FinishOp(s) => if s in Unfinished(before) then Finished(before) + [s] else Finished(before)
  }

  function LastN<T>(s: seq<T>, n: nat): seq<T> { if |s| <= n then s else s[|s| - n..] }

  /** No number is marked again while the late-reply window still remembers it. */
  predicate NeverRemarked(ops: seq<Op>, window: nat) {
    ops == []
    || (var before := ops[..|ops| - 1];
        && NeverRemarked(before, window)
        && (ops[|ops| - 1].MarkOp? ==> ops[|ops| - 1].s !in LastN(Finished(before), window)))
  }

  lemma {:induction false} TrimKeepsInflight(t: Tracker, window: nat)
    ensures Trim(t, window).inflight == t.inflight
    ensures t.recent * t.inflight <= Trim(t, window).recent <= t.recent
    decreases |t.order|
  {
    if |t.order| > window {
      var gone := t.order[0];
      TrimKeepsInflight(t.(order := t.order[1..],
        recent := if gone in t.inflight then t.recent else t.recent - {gone}), window);
    }
  }

  /** In-flight numbers are never evicted: over every run the in-flight set is exactly the
      marked, unfinished numbers, each of them a member. */
  lemma {:induction false} UnfinishedAreMembers(ops: seq<Op>, window: nat)
    ensures Run(ops, window).inflight == Unfinished(ops)
    ensures forall s :: s in Unfinished(ops) ==> Member(Run(ops, window), s)
  {
    if ops != [] {
      var before, op := ops[..|ops| - 1], ops[|ops| - 1];
      UnfinishedAreMembers(before, window);
      var t := Run(before, window);
      if op.FinishOp? && op.s in t.inflight && op.s !in t.recent {
        TrimKeepsInflight(Tracker(t.inflight - {op.s}, t.recent + {op.s}, t.order + [op.s]), window);
      }
    }
  }

  ghost predicate Exact(t: Tracker) {
    && Distinct(t.order)
    && (forall s :: s in t.recent <==> s in t.order)
    && t.inflight !! t.recent
  }

  lemma TrimExact(t: Tracker, window: nat)
    requires Exact(t)
    ensures Exact(Trim(t, window)) && Trim(t, window).order == LastN(t.order, window)
    decreases |t.order|
  {
    if |t.order| > window {
      var gone := t.order[0];
      var t1 := t.(order := t.order[1..], recent := t.recent - {gone});
      assert gone in t.order;
      forall s ensures s in t1.recent <==> s in t1.order {
        if s in t.order && s != gone {
          var i :| 0 <= i < |t.order| && t.order[i] == s;
          assert t1.order[i - 1] == s;
        }
      }
      assert Distinct(t1.order);
      TrimExact(t1, window);
    }
  }

  /** Without re-marking, the members are the in-flight numbers and the last `window` finished. */
  lemma {:induction false} MembersExact(ops: seq<Op>, window: nat)
    requires NeverRemarked(ops, window)
    ensures Exact(Run(ops, window))
    ensures Run(ops, window).order == LastN(Finished(ops), window)
    ensures forall s :: Member(Run(ops, window), s)
                   <==> s in Unfinished(ops) || s in LastN(Finished(ops), window)
  {
    UnfinishedAreMembers(ops, window);
    if ops != [] {
      var before, op := ops[..|ops| - 1], ops[|ops| - 1];
      MembersExact(before, window);
      UnfinishedAreMembers(before, window);
      var t := Run(before, window);
      if op.FinishOp? && op.s in t.inflight {
        var t1 := Tracker(t.inflight - {op.s}, t.recent + {op.s}, t.order + [op.s]);
        forall s ensures s in t1.recent <==> s in t1.order {
          assert s in t1.order <==> s in t.order || s == op.s;
        }
        TrimExact(t1, window);
        LastOfLast(Finished(before), op.s, window);
      }
    }
  }

  lemma LastOfLast(s: seq<int>, x: int, n: nat)
    ensures LastN(LastN(s, n) + [x], n) == LastN(s + [x], n)
  {}

  // ---------------------------------------------------------------- the leak

  /** Some number is remembered without being in the eviction order. */
  predicate Leaked(t: Tracker) { exists s :: s in t.recent && s !in t.order }

  /** Without a leak the window is exactly what the order says, and no longer than it may be. */
  ghost predicate Sound(t: Tracker, window: nat) {
    Distinct(t.order) && (forall s :: s in t.recent <==> s in t.order) && |t.order| <= window
  }

  /** A first finish of a number, with the window full and its oldest number in flight again. */
  predicate Leaks(t: Tracker, op: Op, window: nat) {
    && op.FinishOp? && op.s in t.inflight && op.s !in t.recent
    && |t.order| == window > 0 && t.order[0] in t.inflight
  }

  /** One step leaks exactly then. */
  lemma StepLeaks(t: Tracker, op: Op, window: nat)
    requires Sound(t, window)
    ensures Leaked(Apply(t, op, window)) <==> Leaks(t, op, window)
    ensures !Leaks(t, op, window) ==> Sound(Apply(t, op, window), window)
  {
    if op.FinishOp? && op.s in t.inflight && op.s !in t.recent {
      var t1 := Tracker(t.inflight - {op.s}, t.recent + {op.s}, t.order + [op.s]);
      forall s ensures s in t1.order <==> s in t.order || s == op.s {}
      if |t.order| == window {
        DropFirst(t1, window);
      } else {
        assert Apply(t, op, window) == t1;
      }
    }
  }

  /** One number too many: the oldest goes, from the window too unless it is in flight. */
  lemma DropFirst(t: Tracker, window: nat)
    requires Distinct(t.order) && (forall s :: s in t.recent <==> s in t.order) && |t.order| == window + 1
    ensures var r := Trim(t, window);
      && (Leaked(r) <==> t.order[0] in t.inflight)
      && (t.order[0] !in t.inflight ==> Sound(r, window))
  {
    var gone, rest := t.order[0], t.order[1..];
    var r := t.(order := rest, recent := if gone in t.inflight then t.recent else t.recent - {gone});
    assert Trim(t, window) == Trim(r, window) == r;
    assert t.order == [gone] + rest;
    assert gone !in rest by { assert forall i :: 0 <= i < |rest| ==> rest[i] == t.order[i + 1]; }
    assert gone in t.inflight ==> gone in r.recent;
  }

  predicate LeaksSomewhere(ops: seq<Op>, window: nat) {
    exists i :: 0 <= i < |ops| && Leaks(Run(ops[..i], window), ops[i], window)
  }

  /** Over every run, a number is remembered for ever exactly if some step of the run leaks. */
  lemma {:induction false} LeakedIff(ops: seq<Op>, window: nat)
    ensures Leaked(Run(ops, window)) <==> LeaksSomewhere(ops, window)
    ensures !LeaksSomewhere(ops, window) ==> Sound(Run(ops, window), window)
  {
    if ops != [] {
      var n := |ops| - 1;
      var before := ops[..n];
      LeakedIff(before, window);
      forall i | 0 <= i < n ensures before[..i] == ops[..i] && before[i] == ops[i] {}
      if LeaksSomewhere(before, window) {
        var i :| 0 <= i < n && Leaks(Run(before[..i], window), before[i], window);
        assert Leaks(Run(ops[..i], window), ops[i], window);
        var s :| s in Run(before, window).recent && s !in Run(before, window).order;
        LeakStays(Run(before, window), s, ops[n], window);
      } else {
        StepLeaks(Run(before, window), ops[n], window);
        forall i | 0 <= i < n ensures !Leaks(Run(ops[..i], window), ops[i], window) {
          assert !Leaks(Run(before[..i], window), before[i], window);
        }
      }
    }
  }

  lemma LeakStays(t: Tracker, s: int, op: Op, window: nat)
    requires s in t.recent && s !in t.order
    ensures s in Apply(t, op, window).recent && s !in Apply(t, op, window).order
  {
    if op.FinishOp? && op.s in t.inflight && op.s !in t.recent {
      TrimKeepsStranger(Tracker(t.inflight - {op.s}, t.recent + {op.s}, t.order + [op.s]), s, window);
    }
  }

  lemma {:induction false} TrimKeepsStranger(t: Tracker, s: int, window: nat)
    requires s in t.recent && s !in t.order
    ensures s in Trim(t, window).recent && s !in Trim(t, window).order
    decreases |t.order|
  {
    if |t.order| > window {
      var gone := t.order[0];
      assert gone in t.order;
      TrimKeepsStranger(t.(order := t.order[1..],
        recent := if gone in t.inflight then t.recent else t.recent - {gone}), s, window);
    }
  }

  /** A number once leaked is a member after every continuation of the run. */
  lemma {:induction false} LeakIsPermanent(ops: seq<Op>, s: int, more: seq<Op>, window: nat)
    requires s in Run(ops, window).recent && s !in Run(ops, window).order
    ensures s in Run(ops + more, window).recent && s !in Run(ops + more, window).order
    decreases |more|
  {
    if more == [] {
      assert ops + more == ops;
    } else {
      var n := |more| - 1;
      LeakIsPermanent(ops, s, more[..n], window);
      assert ops + more == ops + more[..n] + [more[n]];
      assert (ops + more)[..|ops + more| - 1] == ops + more[..n];
      LeakStays(Run(ops + more[..n], window), s, more[n], window);
    }
  }

  /** The numbers 2..n are marked and finished in turn. */
  function Others(n: nat): seq<Op> {
    if n < 2 then [] else Others(n - 1) + [MarkOp(n), FinishOp(n)]
  }

  function From1To(n: nat): seq<int> { if n == 0 then [] else From1To(n - 1) + [n] }

  function Set1To(n: nat): set<int> { if n == 0 then {} else Set1To(n - 1) + {n} }

  lemma {:induction false} From1ToIs(n: nat)
    ensures |From1To(n)| == n && forall i :: 0 <= i < n ==> From1To(n)[i] == i + 1
    ensures forall s :: s in Set1To(n) <==> 1 <= s <= n
  {
    if n > 0 { From1ToIs(n - 1); }
  }

  lemma OneStep(ops: seq<Op>, op: Op, window: nat)
    ensures Run(ops + [op], window) == Apply(Run(ops, window), op, window)
  {
    assert (ops + [op])[..|ops|] == ops;
  }

  /** 1 is marked, finished and marked again; then 2..n pass through a window they fit in. */
  lemma {:induction false} FillWindow(n: nat, window: nat)
    requires 1 <= n <= window
    ensures Run([MarkOp(1), FinishOp(1), MarkOp(1)] + Others(n), window) == Tracker({1}, Set1To(n), From1To(n))
  {
    var start := [MarkOp(1), FinishOp(1), MarkOp(1)];
    if n == 1 {
      OneStep([], MarkOp(1), window);
      OneStep([MarkOp(1)], FinishOp(1), window);
      OneStep([MarkOp(1), FinishOp(1)], MarkOp(1), window);
      assert [] + [MarkOp(1)] == [MarkOp(1)] && [MarkOp(1)] + [FinishOp(1)] == [MarkOp(1), FinishOp(1)];
      assert [MarkOp(1), FinishOp(1)] + [MarkOp(1)] == start && start + Others(1) == start;
      assert Run([MarkOp(1)], window) == Tracker({1}, {}, []);
      assert Run([MarkOp(1), FinishOp(1)], window) == Tracker({}, {1}, [1]);
      assert Set1To(1) == Set1To(0) + {1} == {1} && From1To(1) == [] + [1] == [1];
    } else {
      FillWindow(n - 1, window);
      From1ToIs(n - 1);
      PassThrough(start + Others(n - 1), n, window);
      assert start + Others(n) == start + Others(n - 1) + [MarkOp(n), FinishOp(n)];
      var t := Tracker({1}, Set1To(n), From1To(n));
      From1ToIs(n);
      assert Trim(t, window) == t;
    }
  }

  /** A number that is neither in flight nor remembered is marked and finished. */
  lemma PassThrough(ops: seq<Op>, s: int, window: nat)
    requires s !in Run(ops, window).inflight && s !in Run(ops, window).recent
    ensures var t := Run(ops, window);
      Run(ops + [MarkOp(s), FinishOp(s)], window)
      == Trim(Tracker(t.inflight, t.recent + {s}, t.order + [s]), window)
  {
    var t := Run(ops, window);
    OneStep(ops, MarkOp(s), window);
    OneStep(ops + [MarkOp(s)], FinishOp(s), window);
    assert ops + [MarkOp(s)] + [FinishOp(s)] == ops + [MarkOp(s), FinishOp(s)];
    assert t.inflight + {s} - {s} == t.inflight;
  }

  /** Every window leaks: 1 is marked again while remembered, `window` other numbers are marked
      and finished, and 1 is finished. It is then not in flight, and a member for ever. */
  lemma RemarkedLeaks(window: nat, more: seq<Op>)
    requires window >= 1
    ensures var ops := [MarkOp(1), FinishOp(1), MarkOp(1)] + Others(window + 1) + [FinishOp(1)];
      1 !in Unfinished(ops) && LeaksSomewhere(ops, window) && Member(Run(ops + more, window), 1)
  {
    var start := [MarkOp(1), FinishOp(1), MarkOp(1)];
    var w, n := start + Others(window), window + 1;
    var t := Tracker({1}, Set1To(n), From1To(n));
    FillWindow(window, window);
    From1ToIs(window);
    From1ToIs(n);
    PassThrough(w, n, window);
    assert start + Others(n) == w + [MarkOp(n), FinishOp(n)];
    var u := t.(order := From1To(n)[1..]);
    assert Trim(t, window) == Trim(u, window) == u;
    var ops := start + Others(n) + [FinishOp(1)];
    OneStep(start + Others(n), FinishOp(1), window);
    assert Run(ops, window) == u.(inflight := u.inflight - {1});
    UnfinishedAreMembers(ops, window);
    LeakedIff(ops, window);
    assert 1 !in u.order;
    LeakIsPermanent(ops, 1, more, window);
  }
}
