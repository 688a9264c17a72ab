/** The area exit-delay state machine: which pending fields survive a partial payload. */
module ExitDelay {
  import opened Prelude

  /** A value under a payload key; `Other` is any value of another type, None included. */
  datatype Value = Absent | Str(s: string) | Int(n: int) | Bool(b: bool) | Other

  datatype Field = ArmState | ArmCmdState | EeTimer | AlarmZone

  datatype Payload = Payload(armState: Value, armCmdState: Value, eeTimer: Value, alarmZone: Value)

  /** The exit-delay part of an area. */
  datatype Area = Area(armState: Option<string>, armCmdState: Option<string>, eeTimer: Option<int>,
                       alarmZone: Option<string>, complete: bool)

  const FRESH := Area(None, None, None, None, false)
  const PENDING := {ArmCmdState, EeTimer, AlarmZone}
  const ALL := {ArmState, ArmCmdState, EeTimer, AlarmZone}

  function At(p: Payload, f: Field): Value {
    match f
    case ArmState => p.armState
    case ArmCmdState => p.armCmdState
    case EeTimer => p.eeTimer
    case AlarmZone => p.alarmZone
  }

  /** A string for three of the keys; an integer, but not a bool, for the timer. */
  predicate Valid(p: Payload, f: Field) {
    if f == EeTimer then p.eeTimer.Int? else At(p, f).Str?
  }

  predicate Touches(p: Payload) {
    !(p.armState.Absent? && p.armCmdState.Absent? && p.eeTimer.Absent? && p.alarmZone.Absent?)
  }

  /** The fields a payload sets. */
  function Applied(p: Payload): set<Field> { set f | f in ALL && Valid(p, f) }

  function Upper(s: string): string {
    seq(|s|, i requires 0 <= i < |s| => if 'a' <= s[i] <= 'z' then s[i] - 'a' + 'A' else s[i])
  }

  /** The arm state is present and is not DISARMED. */
  predicate Armed(a: Area) {
    a.armState.Some? && Upper(a.armState.value) != "DISARMED"
  }

  predicate Idle(a: Area) { a.armCmdState == None && a.eeTimer == None && a.alarmZone == None }

  function Cleared(a: Area): Area { a.(armCmdState := None, eeTimer := None, alarmZone := None) }

  function Patched(a: Area, p: Payload): Area {
    a.(armState := if p.armState.Str? then Some(p.armState.s) else a.armState,
       armCmdState := if p.armCmdState.Str? then Some(p.armCmdState.s) else a.armCmdState,
       eeTimer := if p.eeTimer.Int? then Some(p.eeTimer.n) else a.eeTimer,
       alarmZone := if p.alarmZone.Str? then Some(p.alarmZone.s) else a.alarmZone)
  }

  /** The pending fields the payload did not set are cleared. */
  function OnlyApplied(a: Area, p: Payload): Area {
    a.(armCmdState := if p.armCmdState.Str? then a.armCmdState else None,
       eeTimer := if p.eeTimer.Int? then a.eeTimer else None,
       alarmZone := if p.alarmZone.Str? then a.alarmZone else None)
  }

  /** A payload that sets only the timer, after a complete payload whose timer is still set; 0
      and negative steps down do not count. `b` is the area with the payload applied. */
  predicate Ticks(b: Area, p: Payload, prevTimer: Option<int>, prevComplete: bool) {
    && Applied(p) == {EeTimer} && prevComplete && prevTimer.Some? && b.eeTimer.Some?
    && b.eeTimer.value != 0 && (b.eeTimer.value > prevTimer.value || b.eeTimer.value > 0)
  }

  /** The clearing rules, on an area with the payload already applied. */
  function Ruled(b: Area, p: Payload, prevTimer: Option<int>, prevComplete: bool): Area {
    if !Touches(p) then
      if Armed(b) then Cleared(b).(complete := false) else b
    else if Applied(p) == {} then Cleared(b).(complete := false)
    else if Ticks(b, p, prevTimer, prevComplete) then
      b.(eeTimer := if b.eeTimer.value > prevTimer.value then prevTimer else b.eeTimer, complete := true)
    else
      var c := OnlyApplied(b, p);
      (if Armed(c) then Cleared(c) else c).(complete := Applied(p) == ALL)
  }

  /** The area after a payload. */
  function Reconciled(a: Area, p: Payload): Area {
    Ruled(Patched(a, p), p, a.eeTimer, a.complete)
  }

  function Reset(a: Area): Area { Cleared(a).(complete := false) }

  predicate Differs(a: Area, b: Area, f: Field) {
    match f
    case ArmState => a.armState != b.armState
    case ArmCmdState => a.armCmdState != b.armCmdState
    case EeTimer => a.eeTimer != b.eeTimer
    case AlarmZone => a.alarmZone != b.alarmZone
  }

  predicate Empty(a: Area, f: Field) {
    match f
    case ArmState => a.armState == None
    case ArmCmdState => a.armCmdState == None
    case EeTimer => a.eeTimer == None
    case AlarmZone => a.alarmZone == None
  }

  /** A pending field that was empty, was set by the payload and is empty again. */
  predicate SetAndCleared(a: Area, p: Payload, after: Area, f: Field) {
    f in PENDING && Valid(p, f) && Empty(a, f) && Empty(after, f)
  }

  /** The report after clearing some fields. */
  function Reporting(b: Area, cleared: set<Field>, reported: set<Field>): set<Field> {
    reported + (set f | f in cleared && !Empty(b, f))
  }

  /** What the clearing rules report, given what was reported before them. */
  function Reported(b: Area, p: Payload, prevTimer: Option<int>, prevComplete: bool, before: set<Field>): set<Field> {
    if !Touches(p) then
      if Armed(b) then Reporting(b, PENDING, before) else before
    else if Applied(p) == {} then Reporting(b, PENDING, before)
    else if Ticks(b, p, prevTimer, prevComplete) then
      if b.eeTimer.value > prevTimer.value then before - {EeTimer} else before
    else
      Reporting(b, if Armed(b) then PENDING else PENDING - Applied(p), before)
  }

  /** The final report is exact but for pending fields set and cleared by one payload. */
  lemma ReportExact(a: Area, p: Payload, applied: set<Field>, f: Field)
    requires forall g :: g in applied <==> Differs(a, Patched(a, p), g)
    ensures f in Reported(Patched(a, p), p, a.eeTimer, a.complete, applied) <==>
              Differs(a, Reconciled(a, p), f) || SetAndCleared(a, p, Reconciled(a, p), f)
  {
    assert f in Applied(p) <==> Valid(p, f);
    if Applied(p) == {EeTimer} {
      assert EeTimer in Applied(p);
      assert ArmCmdState !in Applied(p) && AlarmZone !in Applied(p);
    }
  }

  // ---------------------------------------------------------------- in place

  class AreaState {
    var armState: Option<string>
    var armCmdState: Option<string>
    var eeTimer: Option<int>
    var alarmZone: Option<string>
    var complete: bool

    ghost function Abs(): Area
      reads this
    {
      Area(armState, armCmdState, eeTimer, alarmZone, complete)
    }

    constructor ()
      ensures Abs() == FRESH
    {
      armState, armCmdState, eeTimer, alarmZone, complete := None, None, None, None, false;
    }

    /** The reported fields are those that differ, and also a pending field that was empty, was
        set by the payload and was cleared again by the rules. */
    method Reconcile(p: Payload) returns (changed: set<Field>)
      modifies this
      ensures Abs() == Reconciled(old(Abs()), p)
      ensures forall f :: f in changed <==> Differs(old(Abs()), Abs(), f) || SetAndCleared(old(Abs()), p, Abs(), f)
    {
      ghost var a := Abs();
      var prevTimer, prevComplete := eeTimer, complete;
      changed := ApplyFields(p);
      ghost var b, applied := Abs(), changed;
      changed := ClearingRules(p, changed, prevTimer, prevComplete);
      forall f ensures f in changed <==> Differs(a, Abs(), f) || SetAndCleared(a, p, Abs(), f) {
        ReportExact(a, p, applied, f);
      }
    }

    method ApplyFields(p: Payload) returns (changed: set<Field>)
      modifies this`armState, this`armCmdState, this`eeTimer, this`alarmZone
      ensures Abs() == Patched(old(Abs()), p)
      ensures forall f :: f in changed <==> Differs(old(Abs()), Abs(), f)
    {
      changed := {};
      if p.armState.Str? && armState != Some(p.armState.s) {
        armState := Some(p.armState.s);
        changed := changed + {ArmState};
      }
      if p.armCmdState.Str? && armCmdState != Some(p.armCmdState.s) {
        armCmdState := Some(p.armCmdState.s);
        changed := changed + {ArmCmdState};
      }
      if p.alarmZone.Str? && alarmZone != Some(p.alarmZone.s) {
        alarmZone := Some(p.alarmZone.s);
        changed := changed + {AlarmZone};
      }
      if p.eeTimer.Int? && eeTimer != Some(p.eeTimer.n) {
        eeTimer := Some(p.eeTimer.n);
        changed := changed + {EeTimer};
      }
    }

    method ClearingRules(p: Payload, before: set<Field>, prevTimer: Option<int>, prevComplete: bool)
      returns (changed: set<Field>)
      modifies this
      ensures Abs() == Ruled(old(Abs()), p, prevTimer, prevComplete)
      ensures changed == Reported(old(Abs()), p, prevTimer, prevComplete, before)
    {
      hide Upper, Reporting, Applied;
      changed := before;
      if !Touches(p) {
        if armState.Some? && Upper(armState.value) != "DISARMED" {
          changed := ClearPending(changed);
          complete := false;
        }
        return;
      }
      var applied := Applied(p);
      if applied == {} {
        changed := ClearPending(changed);
        complete := false;
        return;
      }
      if applied == {EeTimer} && prevComplete && prevTimer.Some? && eeTimer.Some? {
        var newTimer := eeTimer.value;
        if newTimer == 0 {
        } else if newTimer > prevTimer.value {
          eeTimer := prevTimer;
          changed := changed - {EeTimer};
          complete := true;
          return;
        } else if 0 < newTimer <= prevTimer.value {
          complete := true;
          return;
        }
      }
      changed := ClearUnapplied(p, changed);
      complete := applied == ALL;
    }

    method ClearUnapplied(p: Payload, before: set<Field>) returns (changed: set<Field>)
      modifies this`armCmdState, this`eeTimer, this`alarmZone
      ensures var b := old(Abs());
        && Abs() == (if Armed(b) then Cleared(b) else OnlyApplied(b, p))
        && changed == Reporting(b, if Armed(b) then PENDING else PENDING - Applied(p), before)
    {
      hide Upper;
      changed := before;
      if !Valid(p, ArmCmdState) { changed := ClearArmCmdState(changed); }
      if !Valid(p, EeTimer) { changed := ClearEeTimer(changed); }
      if !Valid(p, AlarmZone) { changed := ClearAlarmZone(changed); }
      assert Abs() == OnlyApplied(old(Abs()), p);
      assert changed == Reporting(old(Abs()), PENDING - Applied(p), before);
      if armState.Some? && Upper(armState.value) != "DISARMED" {
        changed := ClearPending(changed);
      }
    }

    method ClearArmCmdState(before: set<Field>) returns (changed: set<Field>)
      modifies this`armCmdState
      ensures armCmdState == None && changed == Reporting(old(Abs()), {ArmCmdState}, before)
    {
      changed := before;
      if armCmdState != None {
        armCmdState := None;
        changed := changed + {ArmCmdState};
      }
    }

    method ClearEeTimer(before: set<Field>) returns (changed: set<Field>)
      modifies this`eeTimer
      ensures eeTimer == None && changed == Reporting(old(Abs()), {EeTimer}, before)
    {
      changed := before;
      if eeTimer != None {
        eeTimer := None;
        changed := changed + {EeTimer};
      }
    }

    method ClearAlarmZone(before: set<Field>) returns (changed: set<Field>)
      modifies this`alarmZone
      ensures alarmZone == None && changed == Reporting(old(Abs()), {AlarmZone}, before)
    {
      changed := before;
      if alarmZone != None {
        alarmZone := None;
        changed := changed + {AlarmZone};
      }
    }

    method ClearPending(before: set<Field>) returns (changed: set<Field>)
      modifies this`armCmdState, this`eeTimer, this`alarmZone
      ensures Abs() == Cleared(old(Abs())) && changed == Reporting(old(Abs()), PENDING, before)
    {
      changed := ClearArmCmdState(before);
      changed := ClearEeTimer(changed);
      changed := ClearAlarmZone(changed);
    }

    /** On reconnect every area is reset. */
    method ClearAllPending()
      modifies this
      ensures Abs() == Reset(old(Abs()))
    {
      var changed := ClearPending({});
      complete := false;
    }
  }

  // ---------------------------------------------------------------- field by field

  /** The only exit-delay field the payload sets is the timer. */
  predicate OnlyTimer(p: Payload) {
    p.eeTimer.Int? && !p.armState.Str? && !p.armCmdState.Str? && !p.alarmZone.Str?
  }

  /** A timer-only payload that counts: it follows a complete payload whose timer is still there,
      and its timer is positive, or at least above that one and not 0. */
  predicate Counts(a: Area, p: Payload) {
    && OnlyTimer(p) && a.complete && a.eeTimer.Some?
    && p.eeTimer.n != 0 && (p.eeTimer.n > 0 || p.eeTimer.n > a.eeTimer.value)
  }

  function Text(v: Value): Option<string> { if v.Str? then Some(v.s) else None }

  function Number(v: Value): Option<int> { if v.Int? then Some(v.n) else None }

  lemma AppliedIs(p: Payload)
    ensures Applied(p) == {EeTimer} <==> OnlyTimer(p)
    ensures Applied(p) == {} <==> !p.armState.Str? && !p.armCmdState.Str? && !p.eeTimer.Int? && !p.alarmZone.Str?
    ensures Applied(p) == ALL <==> p.armState.Str? && p.armCmdState.Str? && p.eeTimer.Int? && p.alarmZone.Str?
  {
    assert ArmState in Applied(p) <==> p.armState.Str?;
    assert ArmCmdState in Applied(p) <==> p.armCmdState.Str?;
    assert EeTimer in Applied(p) <==> p.eeTimer.Int?;
    assert AlarmZone in Applied(p) <==> p.alarmZone.Str?;
  }

  /** What a payload leaves in each field. The arm state is the payload's string, or stays. An
      area armed then has nothing pending. On any other, an untouched exit delay stays; a
      counting timer takes the smaller of the two values and leaves the rest; and any other
      payload leaves exactly what it carries. */
  lemma FieldsLeft(a: Area, p: Payload)
    requires Coherent(a)
    ensures var b := Reconciled(a, p);
      && b.armState == (if p.armState.Str? then Some(p.armState.s) else a.armState)
      && (Armed(b) ==> b.armCmdState == None && b.eeTimer == None && b.alarmZone == None)
      && (!Armed(b) ==>
            if p.armState.Absent? && p.armCmdState.Absent? && p.eeTimer.Absent? && p.alarmZone.Absent? then b == a
            else if Counts(a, p) then
              && b.armCmdState == a.armCmdState && b.alarmZone == a.alarmZone
              && b.eeTimer == Some(if p.eeTimer.n <= a.eeTimer.value then p.eeTimer.n else a.eeTimer.value)
            else
              && b.armCmdState == Text(p.armCmdState) && b.eeTimer == Number(p.eeTimer)
              && b.alarmZone == Text(p.alarmZone))
  {
    AppliedIs(p);
    hide Applied;
  }

  /** When the complete flag is set afterwards. */
  lemma FlagLeft(a: Area, p: Payload)
    requires Coherent(a)
    ensures Reconciled(a, p).complete <==>
              || (p.armState.Str? && p.armCmdState.Str? && p.eeTimer.Int? && p.alarmZone.Str?)
              || Counts(a, p)
              || (!Touches(p) && a.complete && !Armed(a))
  {
    AppliedIs(p);
    hide Applied;
  }

  /** A countdown of a complete area that is not armed: the step down is taken as it is. */
  lemma CountdownStep(a: Area, p: Payload)
    requires Coherent(a) && OnlyTimer(p) && a.complete && a.eeTimer.Some? && 0 < p.eeTimer.n <= a.eeTimer.value
    ensures Reconciled(a, p) == a.(eeTimer := Some(p.eeTimer.n))
  {
    AppliedIs(p);
    hide Applied;
  }

  /** A reset keeps the arm state alone. */
  lemma ResetLeaves(a: Area)
    ensures Reset(a) == Area(a.armState, None, None, None, false)
  {}

  /** Armed means an arm state that is there and does not spell DISARMED in any case. */
  lemma ArmedStates(a: Area)
    ensures a.armState == None ==> !Armed(a)
    ensures a.armState == Some("DISARMED") || a.armState == Some("disarmed") ==> !Armed(a)
    ensures a.armState == Some("ARMED_AWAY") || a.armState == Some("") ==> Armed(a)
  {
    assert Upper("disarmed") == "DISARMED" && Upper("DISARMED") == "DISARMED";
    assert Upper("ARMED_AWAY")[0] == 'A' && |Upper("")| == 0;
  }

  // ---------------------------------------------------------------- runs

  datatype Event = Payloads(p: Payload) | Resets

  function Next(a: Area, e: Event): Area {
    match e
    case Payloads(p) => Reconciled(a, p)
    case Resets => Reset(a)
  }

  function After(a: Area, run: seq<Event>): Area {
    if run == [] then a else Next(After(a, run[..|run| - 1]), run[|run| - 1])
  }

  /** Armed areas have nothing pending. */
  predicate Coherent(a: Area) { Armed(a) ==> Idle(a) }

  lemma StepCoherent(a: Area, e: Event)
    requires Coherent(a)
    ensures Coherent(Next(a, e))
  {
    if e.Payloads? && Applied(e.p) == {EeTimer} {
      assert ArmState !in Applied(e.p);
    }
  }

  /** After every sequence of payloads and resets, an area whose arm state is present and not
      DISARMED has no pending field. */
  lemma {:induction false} AlwaysCoherent(run: seq<Event>)
    ensures Coherent(After(FRESH, run))
  {
    if run != [] {
      AlwaysCoherent(run[..|run| - 1]);
      StepCoherent(After(FRESH, run[..|run| - 1]), run[|run| - 1]);
    }
  }

  predicate AllPending(a: Area) { a.armCmdState.Some? && a.eeTimer.Some? && a.alarmZone.Some? }

  /** A payload that sets all three pending fields. */
  predicate Carries(e: Event) {
    e.Payloads? && e.p.armCmdState.Str? && e.p.eeTimer.Int? && e.p.alarmZone.Str?
  }

  /** The event is no reset and, if it touches the exit delay, sets only the timer. */
  predicate TimerOnly(e: Event) {
    e.Payloads? && (Touches(e.p) ==> Applied(e.p) == {EeTimer})
  }

  /** The pending fields come from event i: its command state and alarm zone, and a timer that
      has not risen since. */
  predicate From(a: Area, run: seq<Event>, i: nat) {
    && i < |run| && Carries(run[i])
    && (forall k :: i < k < |run| ==> TimerOnly(run[k]))
    && AllPending(a)
    && a.armCmdState.value == run[i].p.armCmdState.s
    && a.alarmZone.value == run[i].p.alarmZone.s
    && a.eeTimer.value <= run[i].p.eeTimer.n
  }

  lemma PendingStep(a: Area, e: Event)
    requires AllPending(Next(a, e))
    ensures var b := Next(a, e);
      || (Carries(e) && b.armCmdState.value == e.p.armCmdState.s && b.alarmZone.value == e.p.alarmZone.s
          && b.eeTimer.value == e.p.eeTimer.n)
      || (TimerOnly(e) && AllPending(a) && b.armCmdState == a.armCmdState && b.alarmZone == a.alarmZone
          && b.eeTimer.value <= a.eeTimer.value)
  {
    if e.Payloads? && Applied(e.p) == {EeTimer} {
      assert ArmCmdState !in Applied(e.p) && AlarmZone !in Applied(e.p);
      assert EeTimer in Applied(e.p);
    }
  }

  /** All three pending fields are set only by one payload that carries all three, kept by
      payloads that set only the timer and never raise it. */
  lemma {:induction false} PendingTogether(run: seq<Event>)
    ensures var a := After(FRESH, run);
      AllPending(a) ==> exists i: nat :: From(a, run, i)
  {
    var a := After(FRESH, run);
    if run != [] && AllPending(a) {
      var n := |run| - 1;
      var before := After(FRESH, run[..n]);
      PendingStep(before, run[n]);
      if Carries(run[n]) && a.eeTimer.value == run[n].p.eeTimer.n && a.armCmdState.value == run[n].p.armCmdState.s
         && a.alarmZone.value == run[n].p.alarmZone.s {
        assert From(a, run, n);
      } else {
        PendingTogether(run[..n]);
        var i: nat :| From(before, run[..n], i);
        assert run[..n][i] == run[i];
        forall k | i < k < |run| ensures TimerOnly(run[k]) {
          if k < n { assert run[..n][k] == run[k]; }
        }
        assert From(a, run, i);
      }
    }
  }

  /** The timer has not risen: it was cleared, or is at most what it was. */
  predicate NotRisen(a: Area, b: Area) {
    b.eeTimer == None || (a.eeTimer.Some? && b.eeTimer.value <= a.eeTimer.value)
  }

  /** A payload that sets all four fields, disarmed, with a timer above the one there was. */
  predicate Raises(a: Area, e: Event) {
    && e.Payloads? && Applied(e.p) == ALL && Upper(e.p.armState.s) == "DISARMED"
    && (a.eeTimer == None || e.p.eeTimer.n > a.eeTimer.value)
  }

  /** From one complete state to the next the timer rises on exactly these payloads. */
  lemma TimerStep(a: Area, e: Event)
    requires a.complete && Next(a, e).complete
    ensures NotRisen(a, Next(a, e)) <==> !Raises(a, e)
  {
    if e.Payloads? {
      assert ArmState in Applied(e.p) <==> Valid(e.p, ArmState);
      assert ArmCmdState in Applied(e.p) <==> Valid(e.p, ArmCmdState);
      assert EeTimer in Applied(e.p) <==> Valid(e.p, EeTimer);
      assert AlarmZone in Applied(e.p) <==> Valid(e.p, AlarmZone);
    }
  }

  predicate StaysComplete(a: Area, run: seq<Event>) {
    forall i :: 0 <= i <= |run| ==> After(a, run[..i]).complete
  }

  /** The timer rises at no step of the run. */
  predicate NeverRises(a: Area, run: seq<Event>) {
    forall i :: 0 <= i < |run| ==> NotRisen(After(a, run[..i]), Next(After(a, run[..i]), run[i]))
  }

  predicate RaisesSomewhere(a: Area, run: seq<Event>) {
    exists i :: 0 <= i < |run| && Raises(After(a, run[..i]), run[i])
  }

  /** Over every run on which the complete flag holds, the timer never rises exactly if no
      payload of the run raises it. */
  lemma TimerRisesIff(a: Area, run: seq<Event>)
    requires StaysComplete(a, run)
    ensures NeverRises(a, run) <==> !RaisesSomewhere(a, run)
  {
    forall i | 0 <= i < |run|
      ensures NotRisen(After(a, run[..i]), Next(After(a, run[..i]), run[i]))
              <==> !Raises(After(a, run[..i]), run[i])
    {
      AfterNext(a, run, i);
      TimerStep(After(a, run[..i]), run[i]);
    }
  }

  lemma AfterNext(a: Area, run: seq<Event>, i: nat)
    requires i < |run|
    ensures After(a, run[..i + 1]) == Next(After(a, run[..i]), run[i])
  {
    assert run[..i + 1][..i] == run[..i];
  }

  /** And then it is at the end no higher than at the start. */
  lemma {:induction false} TimerNeverRises(a: Area, run: seq<Event>)
    requires StaysComplete(a, run) && !RaisesSomewhere(a, run)
    ensures NotRisen(a, After(a, run))
  {
    assert run[..|run|] == run && run[..0] == [];
    if run != [] {
      var n := |run| - 1;
      var before := run[..n];
      forall i | 0 <= i <= n ensures before[..i] == run[..i] {}
      forall i | 0 <= i < n ensures !Raises(After(a, before[..i]), before[i]) { assert before[i] == run[i]; }
      TimerNeverRises(a, before);
      TimerStep(After(a, before), run[n]);
    }
  }

  /** It does rise: two payloads in a row that set all four fields of a disarmed area, the
      second with the higher timer. */
  lemma SecondPayloadRaises(s: string, low: int, high: int, cmd: string, zone: string)
    requires Upper(s) == "DISARMED" && low < high
    ensures var p, q := Payload(Str(s), Str(cmd), Int(low), Str(zone)), Payload(Str(s), Str(cmd), Int(high), Str(zone));
      var run := [Payloads(p), Payloads(q)];
      && StaysComplete(After(FRESH, run[..1]), run[1..])
      && After(FRESH, run[..1]).eeTimer == Some(low) && After(FRESH, run).eeTimer == Some(high)
  {
    var p, q := Payload(Str(s), Str(cmd), Int(low), Str(zone)), Payload(Str(s), Str(cmd), Int(high), Str(zone));
    var run := [Payloads(p), Payloads(q)];
    assert Applied(p) == ALL && Applied(q) == ALL;
    assert run[..1] == [Payloads(p)] && run[..1][..0] == [];
    var a := Reconciled(FRESH, p);
    assert After(FRESH, run[..1]) == a;
    assert run[1..] == [Payloads(q)] && run[1..][..0] == [] && run[1..][..1] == run[1..];
  }

  // ---------------------------------------------------------------- the complete flag

  /** What the flag means: nothing is pending on an armed area, everything on any other. */
  predicate Meant(a: Area) { a.complete ==> if Armed(a) then Idle(a) else AllPending(a) }

  lemma StepMeant(a: Area, e: Event)
    requires Meant(a) && Coherent(a)
    ensures Meant(Next(a, e))
  {
    if e.Payloads? {
      assert ArmState in Applied(e.p) <==> Valid(e.p, ArmState);
      assert ArmCmdState in Applied(e.p) <==> Valid(e.p, ArmCmdState);
      assert EeTimer in Applied(e.p) <==> Valid(e.p, EeTimer);
      assert AlarmZone in Applied(e.p) <==> Valid(e.p, AlarmZone);
    }
  }

  /** After every run, the complete flag means that all three fields are pending if and only if
      the area is not armed, and that none is if it is. */
  lemma {:induction false} CompleteMeans(run: seq<Event>)
    ensures Meant(After(FRESH, run))
    ensures var a := After(FRESH, run); a.complete ==> (AllPending(a) <==> !Armed(a)) && (Idle(a) <==> Armed(a))
  {
    if run != [] {
      CompleteMeans(run[..|run| - 1]);
      AlwaysCoherent(run[..|run| - 1]);
      StepMeant(After(FRESH, run[..|run| - 1]), run[|run| - 1]);
    }
  }

  /** Any complete payload that arms the area leaves the flag set with nothing pending. */
  lemma CompleteButIdle(a: Area, p: Payload)
    requires Applied(p) == ALL && Upper(p.armState.s) != "DISARMED"
    ensures var b := Reconciled(a, p); b.complete && Idle(b) && Armed(b)
  {
    assert ArmState in Applied(p);
    assert EeTimer in Applied(p);
  }
}
