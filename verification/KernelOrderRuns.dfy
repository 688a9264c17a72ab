/** The order of first attempts over every run of the scheduler, and that it never idles. */
module KernelOrderRuns {
  import opened Prelude
  import opened Pending
  import opened Kernel
  import opened KernelRuns
  import opened KernelOrder

  // ---------------------------------------------------------------- submissions

  /** The state in which a submitted command is queued. */
  function Admit(c: Config, k: K, x: Item, withFuture: bool, now: real): K {
    var y := Prepare(c, x, now);
    var k1 := if withFuture
              then k.(book := Create(k.book, y.seqNo), sentEvents := k.sentEvents + {y.seqNo})
              else k;
    k1.(accepted := k1.accepted[y.seqNo := y])
  }

  lemma AdmitRanked(c: Config, k: K, x: Item, withFuture: bool, now: real)
    requires Ranked(k) && x.seqNo !in k.accepted
    ensures var r, y := Admit(c, k, x, withFuture, now), Prepare(c, x, now);
      Ranked(r) && Placed(r, y) && Planned(r) == Planned(k)
  {
    var r := Admit(c, k, x, withFuture, now);
    forall z | Placed(k, z) ensures Placed(r, z) {}
  }

  lemma SubmitFollows(c: Config, k: K, x: Item, withFuture: bool, now: real)
    requires Slot(k) && Ranked(k) && x.seqNo !in k.accepted
    ensures var r, y := Submit(c, k, x, withFuture, now), Prepare(c, x, now);
      && Ranked(r) && (Busy(k) ==> Busy(r))
      && (!k.session ==> r == k)
      && (k.session ==>
            && r.accepted == k.accepted[y.seqNo := y]
            && Within(Planned(r), Planned(Push(Admit(c, k, x, withFuture, now), y))))
  {
    hide Ranked, Placed, Planned, Within, Enqueue, Push;
    var y := Prepare(c, x, now);
    if k.session {
      var k1 := Admit(c, k, x, withFuture, now);
      AdmitRanked(c, k, x, withFuture, now);
      EnqueueFollows(c, k1, y, now);
    }
  }

  lemma InsertOrder(l: seq<int>, y: int, m: seq<int>, a: int, b: int)
    ensures Before(l + [y] + m, a, b)
       <==> Before(l + m, a, b) || (a == y && b in m) || (a in l && b == y)
  {
    BeforeConcat(l + [y], m, a, b);
    BeforeConcat(l, [y], a, b);
    BeforeConcat(l, m, a, b);
  }

  /** Where a new command enters the plan. */
  lemma PushInserts(k: K, y: Item)
    requires y.attempt == 0
    ensures var f, h, n := FirstsOf(k.handed), Fresh(k.high), Fresh(k.normal);
      && Planned(k) == (if y.high then f + h + n else f + h + n + [])
      && Planned(Push(k, y)) == if y.high then f + h + [y.seqNo] + n else f + h + n + [y.seqNo] + []
  {
    hide Fresh, FirstsOf;
    PushPlan(k, y);
    var f, h, n := FirstsOf(k.handed), Fresh(k.high), Fresh(k.normal);
    assert f + (h + [y.seqNo]) == f + h + [y.seqNo];
    assert f + h + (n + [y.seqNo]) == f + h + n + [y.seqNo];
  }

  lemma {:induction false} FreshRanked(k: K, q: seq<Item>)
    requires forall x :: x in q ==> !x.high && Placed(k, x)
    ensures forall s :: s in Fresh(q) ==> s in k.accepted && !k.accepted[s].high
  {
    if q != [] { FreshRanked(k, q[1..]); }
  }

  /** A new command goes before none of another number, except a HIGH one before NORMAL ones. */
  lemma PushOrder(k: K, y: Item, a: int, b: int)
    requires Ranked(k) && y.attempt == 0 && y.seqNo !in Planned(k) && a != y.seqNo
    requires Before(Planned(Push(k, y)), b, a)
    ensures Before(Planned(k), b, a) || (b == y.seqNo && y.high && a in k.accepted && !k.accepted[a].high)
  {
    var f, h, n := FirstsOf(k.handed), Fresh(k.high), Fresh(k.normal);
    PushInserts(k, y);
    FreshRanked(k, k.normal);
    hide Fresh, FirstsOf, Before, Push, Ranked;
    if y.high {
      InsertOrder(f + h, y.seqNo, n, b, a);
    } else {
      InsertOrder(f + h + n, y.seqNo, [], b, a);
    }
  }

  lemma PushMembers(k: K, y: Item)
    requires y.attempt == 0
    ensures forall s :: s in Planned(Push(k, y)) <==> s in Planned(k) || s == y.seqNo
  {
    hide Fresh, FirstsOf, Push;
    PushInserts(k, y);
  }

  // ---------------------------------------------------------------- runs

  /** The plan consists of accepted commands. */
  ghost predicate Ordered(k: K) { Ranked(k) && forall s :: s in Planned(k) ==> s in k.accepted }

  lemma SubmitOrdered(c: Config, k: K, x: Item, withFuture: bool, now: real)
    requires Slot(k) && Ordered(k) && x.seqNo !in k.accepted
    ensures Ordered(Submit(c, k, x, withFuture, now))
  {
    hide Ranked, Planned, Placed, Enqueue, Push;
    SubmitFollows(c, k, x, withFuture, now);
    if k.session {
      AdmitRanked(c, k, x, withFuture, now);
      PushMembers(Admit(c, k, x, withFuture, now), Prepare(c, x, now));
    }
  }

  lemma StepOrdered(c: Config, k: K, e: Event, now: real)
    requires Slot(k) && Enabled(k, e) && Ordered(k)
    ensures Ordered(Step(c, k, e, now))
  {
    hide Ranked, Planned, Placed, Submit;
    if e.Submits? {
      SubmitOrdered(c, k, e.item, e.withFuture, now);
    } else {
      StepFollows(c, k, e, now);
    }
  }

  lemma {:induction false} RunOrdered(c: Config, run: seq<Timed>)
    requires Possible(c, run)
    ensures Ordered(After(c, run))
    decreases |run|
  {
    if run != [] {
      RunOrdered(c, run[..|run| - 1]);
      hide Step, Ordered;
      StepOrdered(c, After(c, run[..|run| - 1]), run[|run| - 1].event, run[|run| - 1].at);
    }
  }

  lemma StepAccepts(c: Config, k: K, e: Event, now: real)
    requires Slot(k) && Enabled(k, e) && Ranked(k)
    ensures var r := Step(c, k, e, now);
      forall s :: s in k.accepted ==> s in r.accepted && r.accepted[s] == k.accepted[s]
  {
    hide Ranked, Planned, Placed, Within, Submit;
    if e.Submits? {
      SubmitFollows(c, k, e.item, e.withFuture, now);
    } else {
      StepFollows(c, k, e, now);
    }
  }

  /** Of the priority of `a`, or lower. */
  predicate NotAbove(k: K, b: int, a: int) {
    a in k.accepted && b in k.accepted && (k.accepted[b].high ==> k.accepted[a].high)
  }

  /** A step does not put `b` before `a`, unless it submits `b` as HIGH and `a` is NORMAL. */
  lemma StepOrder(c: Config, k: K, e: Event, now: real, a: int, b: int)
    requires Slot(k) && Enabled(k, e) && Ordered(k) && a in k.accepted
    requires b in k.accepted || b !in Step(c, k, e, now).accepted || NotAbove(Step(c, k, e, now), b, a)
    requires Before(Planned(Step(c, k, e, now)), b, a)
    ensures Before(Planned(k), b, a)
  {
    hide Ranked, Planned, Placed, Before, Submit;
    if e.Submits? {
      SubmitOrder(c, k, e.item, e.withFuture, now, a, b);
    } else {
      StepFollows(c, k, e, now);
    }
  }

  lemma SubmitOrder(c: Config, k: K, x: Item, withFuture: bool, now: real, a: int, b: int)
    requires Slot(k) && Ordered(k) && x.seqNo !in k.accepted && a in k.accepted
    requires var r := Submit(c, k, x, withFuture, now);
      (b in k.accepted || b !in r.accepted || NotAbove(r, b, a)) && Before(Planned(r), b, a)
    ensures Before(Planned(k), b, a)
  {
    hide Ranked, Planned, Placed, Before, Submit, Push;
    SubmitFollows(c, k, x, withFuture, now);
    if k.session {
      var k1, y := Admit(c, k, x, withFuture, now), Prepare(c, x, now);
      AdmitRanked(c, k, x, withFuture, now);
      assert y.seqNo !in Planned(k1);
      PushOrder(k1, y, a, b);
    }
  }

  /** What was accepted stays accepted, as it was. */
  ghost predicate Grown(k: K, r: K) {
    forall s :: s in k.accepted ==> s in r.accepted && r.accepted[s] == k.accepted[s]
  }

  lemma LastStep(c: Config, before: seq<Timed>, rest: seq<Timed>)
    requires rest != [] && Possible(c, before + rest)
    ensures var run, last := before + rest[..|rest| - 1], rest[|rest| - 1];
      && Possible(c, run) && Enabled(After(c, run), last.event)
      && After(c, before + rest) == Step(c, After(c, run), last.event, last.at)
  {
    var all := before + rest;
    assert all[..|all| - 1] == before + rest[..|rest| - 1] && all[|all| - 1] == rest[|rest| - 1];
  }

  lemma {:induction false} RunGrown(c: Config, before: seq<Timed>, rest: seq<Timed>)
    requires Possible(c, before) && Possible(c, before + rest)
    ensures Grown(After(c, before), After(c, before + rest))
    decreases |rest|
  {
    hide Step, Ranked, Planned, Enabled;
    if rest == [] {
      assert before + rest == before;
    } else {
      LastStep(c, before, rest);
      RunOrdered(c, before + rest[..|rest| - 1]);
      StepAccepts(c, After(c, before + rest[..|rest| - 1]), rest[|rest| - 1].event, rest[|rest| - 1].at);
      RunGrown(c, before, rest[..|rest| - 1]);
    }
  }

  lemma {:induction false} RunOrder(c: Config, before: seq<Timed>, rest: seq<Timed>, a: int, b: int)
    requires Possible(c, before) && Possible(c, before + rest) && a in After(c, before).accepted
    requires b in After(c, before).accepted || b !in After(c, before + rest).accepted
             || NotAbove(After(c, before + rest), b, a)
    requires Before(Planned(After(c, before + rest)), b, a)
    ensures Before(Planned(After(c, before)), b, a)
    decreases |rest|
  {
    hide Step, Planned, Before, Ordered, Enabled, Grown, NotAbove;
    if rest == [] {
      assert before + rest == before;
    } else {
      var run, last := before + rest[..|rest| - 1], rest[|rest| - 1];
      LastStep(c, before, rest);
      RunOrdered(c, run);
      RunGrown(c, before, run[|before|..]);
      assert before + run[|before|..] == run && run[|before|..] == rest[..|rest| - 1];
      StepGrown(c, After(c, run), last.event, last.at);
      GrownNotAbove(After(c, before), After(c, run), After(c, before + rest), a, b);
      StepOrder(c, After(c, run), last.event, last.at, a, b);
      RunOrder(c, before, rest[..|rest| - 1], a, b);
    }
  }

  lemma StepGrown(c: Config, k: K, e: Event, now: real)
    requires Slot(k) && Enabled(k, e) && Ordered(k)
    ensures Grown(k, Step(c, k, e, now))
  {
    hide Step, Ranked;
    StepAccepts(c, k, e, now);
  }

  lemma GrownNotAbove(k0: K, k: K, r: K, a: int, b: int)
    requires Grown(k0, k) && Grown(k, r) && a in k0.accepted
    requires b in k0.accepted || b !in r.accepted || NotAbove(r, b, a)
    ensures a in k.accepted && (b in k0.accepted ==> b in k.accepted)
    ensures b in k.accepted || b !in r.accepted || NotAbove(r, b, a)
    ensures b in k0.accepted || b !in k.accepted || NotAbove(k, b, a)
  {}

  lemma {:induction false} FirstsBefore(h: seq<HandOff>, i: nat, j: nat)
    requires i < j < |h| && h[i].attempt == 0 && h[j].attempt == 0
    ensures Before(FirstsOf(h), h[i].seqNo, h[j].seqNo)
    decreases |h|
  {
    var h', x := h[..|h| - 1], h[|h| - 1];
    var more := if x.attempt == 0 then [x.seqNo] else [];
    BeforeConcat(FirstsOf(h'), more, h[i].seqNo, h[j].seqNo);
    if j < |h| - 1 {
      FirstsBefore(h', i, j);
    } else {
      FirstIn(h', i);
    }
  }

  lemma {:induction false} FirstIn(h: seq<HandOff>, i: nat)
    requires i < |h| && h[i].attempt == 0
    ensures h[i].seqNo in FirstsOf(h)
    decreases |h|
  {
    if i < |h| - 1 { FirstIn(h[..|h| - 1], i); }
  }

  lemma {:induction false} FirstFrom(h: seq<HandOff>, s: int)
    requires s in FirstsOf(h)
    ensures exists i :: 0 <= i < |h| && h[i].seqNo == s && h[i].attempt == 0
    decreases |h|
  {
    var h', x := h[..|h| - 1], h[|h| - 1];
    if s in FirstsOf(h') {
      FirstFrom(h', s);
      var i :| 0 <= i < |h'| && h'[i].seqNo == s && h'[i].attempt == 0;
      assert h[i] == h'[i];
    } else {
      assert h[|h| - 1].seqNo == s;
    }
  }

  lemma HandedBefore(k: K, i: nat, j: nat)
    requires i < j < |k.handed| && k.handed[i].attempt == 0 && k.handed[j].attempt == 0
    ensures Before(Planned(k), k.handed[i].seqNo, k.handed[j].seqNo)
  {
    var f, h, n := FirstsOf(k.handed), Fresh(k.high), Fresh(k.normal);
    FirstsBefore(k.handed, i, j);
    hide Fresh, FirstsOf, Before;
    BeforeConcat(f, h, k.handed[i].seqNo, k.handed[j].seqNo);
    BeforeConcat(f + h, n, k.handed[i].seqNo, k.handed[j].seqNo);
  }

  /** Of two first attempts, that of the command accepted earlier is made first, unless it is
      NORMAL and the later one HIGH. In particular one priority is served in submission order. */
  lemma FirstInFirstOut(c: Config, before: seq<Timed>, rest: seq<Timed>, i: nat, j: nat)
    requires Possible(c, before) && Possible(c, before + rest)
    requires var h := After(c, before + rest).handed;
      && i < |h| && j < |h| && h[i].attempt == 0 && h[j].attempt == 0
      && h[i].seqNo in After(c, before).accepted && h[j].seqNo !in After(c, before).accepted
      && NotAbove(After(c, before + rest), h[j].seqNo, h[i].seqNo)
    ensures i < j
  {
    hide Step, Possible, Planned, Before, Enabled;
    var k := After(c, before + rest);
    var a, b := k.handed[i].seqNo, k.handed[j].seqNo;
    if j < i {
      HandedBefore(k, j, i);
      RunOrder(c, before, rest, a, b);
      RunOrdered(c, before);
      BeforeIn(Planned(After(c, before)), b, a);
    }
  }

  lemma BeforeIn(l: seq<int>, a: int, b: int)
    requires Before(l, a, b)
    ensures a in l && b in l
  {}

  /** HIGH overtakes: once a HIGH command is accepted, it makes its first attempt before that of
      every NORMAL command whose first attempt was not made by then. */
  lemma HighOvertakes(c: Config, before: seq<Timed>, rest: seq<Timed>, i: nat, j: nat)
    requires Possible(c, before) && Possible(c, before + rest)
    requires var k0, k := After(c, before), After(c, before + rest);
      && i < |k.handed| && j < |k.handed| && k.handed[i].attempt == 0 && k.handed[j].attempt == 0
      && k.handed[i].seqNo in k0.accepted && k0.accepted[k.handed[i].seqNo].high
      && k.handed[j].seqNo in k.accepted && !k.accepted[k.handed[j].seqNo].high
      && forall h :: h in k0.handed && h.attempt == 0 ==> h.seqNo != k.handed[j].seqNo
    ensures i < j
  {
    hide Step, Possible, Planned, Before, Enabled, FirstsOf, Fresh;
    var k0, k := After(c, before), After(c, before + rest);
    var a, b := k.handed[i].seqNo, k.handed[j].seqNo;
    RunGrown(c, before, rest);
    if j < i {
      HandedBefore(k, j, i);
      RunOrder(c, before, rest, a, b);
      RunOrdered(c, before);
      if b in FirstsOf(k0.handed) { FirstFrom(k0.handed, b); }
      NormalLast(k0, a, b);
    }
  }

  /** In the plan a NORMAL command that was not tried stands after every HIGH one. */
  lemma NormalLast(k: K, a: int, b: int)
    requires Ranked(k) && a in k.accepted && k.accepted[a].high && b !in FirstsOf(k.handed)
    requires b in k.accepted ==> !k.accepted[b].high
    requires b in Planned(k) ==> b in k.accepted
    ensures !Before(Planned(k), b, a)
  {
    var f, h, n := FirstsOf(k.handed), Fresh(k.high), Fresh(k.normal);
    FreshRanked(k, k.normal);
    FreshHigh(k, k.high);
    hide Fresh, FirstsOf, Before, Ranked;
    if Before(f + h + n, b, a) {
      BeforeConcat(f + h, n, b, a);
      BeforeConcat(f, h, b, a);
      if Before(f, b, a) { BeforeIn(f, b, a); }
      if Before(h, b, a) { BeforeIn(h, b, a); }
      if Before(n, b, a) { BeforeIn(n, b, a); }
    }
  }

  lemma {:induction false} FreshHigh(k: K, q: seq<Item>)
    requires forall x :: x in q ==> x.high && Placed(k, x)
    ensures forall s :: s in Fresh(q) ==> s in k.accepted && k.accepted[s].high
  {
    if q != [] { FreshHigh(k, q[1..]); }
  }

  /** The slot is never free while a command is queued, from any moment at which that held until
      the session is activated again. */
  lemma {:induction false} NeverIdle(c: Config, before: seq<Timed>, rest: seq<Timed>)
    requires Possible(c, before) && Possible(c, before + rest) && Busy(After(c, before))
    requires forall t :: t in rest ==> !t.event.Connects?
    ensures Busy(After(c, before + rest))
    decreases |rest|
  {
    hide Step, Enabled, Busy, Planned, Ranked, Within;
    if rest == [] {
      assert before + rest == before;
    } else {
      var run, last := before + rest[..|rest| - 1], rest[|rest| - 1];
      LastStep(c, before, rest);
      RunOrdered(c, run);
      NeverIdle(c, before, rest[..|rest| - 1]);
      StepBusy(c, After(c, run), last.event, last.at);
    }
  }

  lemma StepBusy(c: Config, k: K, e: Event, now: real)
    requires Slot(k) && Enabled(k, e) && Ordered(k) && Busy(k) && !e.Connects?
    ensures Busy(Step(c, k, e, now))
  {
    hide Ranked, Planned, Submit, Within;
    if e.Submits? {
      SubmitFollows(c, k, e.item, e.withFuture, now);
    } else {
      StepFollows(c, k, e, now);
    }
  }
}
