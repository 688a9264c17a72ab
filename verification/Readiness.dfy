/** When the client counts as bootstrapped: inventories first, then one status for each id. */
module Readiness {
  import opened Prelude

  datatype Domain = Areas | Zones | Outputs

  const DOMAINS := {Areas, Zones, Outputs}

  lemma Known(d: Domain)
    ensures d in DOMAINS
  {}

  datatype Progress = Progress(inventory: bool, pending: set<int>, status: bool)

  /** `linked` is the kernel's own readiness: an active session and known tables. */
  datatype State = State(areas: Progress, zones: Progress, outputs: Progress, linked: bool, event: bool)

  const RESET := Progress(false, {}, false)

  function Of(s: State, d: Domain): Progress {
    match d
    case Areas => s.areas
    case Zones => s.zones
    case Outputs => s.outputs
  }

  function With(s: State, d: Domain, p: Progress): State {
    match d
    case Areas => s.(areas := p)
    case Zones => s.(zones := p)
    case Outputs => s.(outputs := p)
  }

  predicate Ready(s: State) {
    s.areas.inventory && s.zones.inventory && s.outputs.inventory
    && s.areas.status && s.zones.status && s.outputs.status
  }

  function Recheck(s: State): State { s.(event := s.event || (s.linked && Ready(s))) }

  function InventoryReady(s: State, d: Domain, configured: set<int>): State {
    if Of(s, d).inventory then s
    else if configured == {} then Recheck(With(s, d, Progress(true, {}, true)))
    else With(s, d, Progress(true, configured, false))
  }

  function StatusSeen(s: State, d: Domain, ids: set<int>): State {
    var left := Of(s, d).pending - ids;
    Recheck(With(s, d, Of(s, d).(pending := left, status := left == {} || Of(s, d).status)))
  }

  function Resetting(s: State): State { State(RESET, RESET, RESET, s.linked, false) }

  // ---------------------------------------------------------------- in place

  class Bootstrap {
    var inventoryReady: map<Domain, bool>
    var statusPending: map<Domain, set<int>>
    var statusReady: map<Domain, bool>
    var linked: bool
    var readyEvent: bool

    ghost predicate Valid()
      reads this
    {
      inventoryReady.Keys == DOMAINS && statusPending.Keys == DOMAINS && statusReady.Keys == DOMAINS
    }

    ghost function Abs(): State
      requires Valid()
      reads this
    {
      State(One(Areas), One(Zones), One(Outputs), linked, readyEvent)
    }

    ghost function One(d: Domain): Progress
      requires Valid()
      reads this
    {
      Known(d);
      Progress(inventoryReady[d], statusPending[d], statusReady[d])
    }

    constructor ()
      ensures Valid() && Abs() == State(RESET, RESET, RESET, false, false)
    {
      inventoryReady := map[Areas := false, Zones := false, Outputs := false];
      statusPending := map[Areas := {}, Zones := {}, Outputs := {}];
      statusReady := map[Areas := false, Zones := false, Outputs := false];
      linked, readyEvent := false, false;
    }

    method MaybeSetReady()
      requires Valid()
      modifies this`readyEvent
      ensures Abs() == Recheck(old(Abs()))
    {
      var bootstrapped := (forall d :: d in inventoryReady ==> inventoryReady[d])
                          && (forall d :: d in statusReady ==> statusReady[d]);
      assert bootstrapped <==> Ready(Abs());
      if linked && bootstrapped && !readyEvent {
        readyEvent := true;
      }
    }

    /** `configured` is the domain's inventory at this moment. */
    method MarkInventoryReady(d: Domain, configured: set<int>)
      requires Valid()
      modifies this
      ensures Valid() && Abs() == InventoryReady(old(Abs()), d, configured)
    {
      Known(d);
      if inventoryReady[d] {
        return;
      }
      inventoryReady := inventoryReady[d := true];
      statusPending := statusPending[d := configured];
      if configured == {} {
        statusReady := statusReady[d := true];
        MaybeSetReady();
        return;
      }
      statusReady := statusReady[d := false];
    }

    method MarkStatusSeen(d: Domain, ids: set<int>)
      requires Valid()
      modifies this
      ensures Valid() && Abs() == StatusSeen(old(Abs()), d, ids)
    {
      Known(d);
      statusPending := statusPending[d := statusPending[d] - ids];
      if statusPending[d] == {} {
        statusReady := statusReady[d := true];
      }
      MaybeSetReady();
    }

    method ResetBootstrapState()
      requires Valid()
      modifies this
      ensures Valid() && Abs() == Resetting(old(Abs()))
    {
      inventoryReady := map[Areas := false, Zones := false, Outputs := false];
      statusPending := map[Areas := {}, Zones := {}, Outputs := {}];
      statusReady := map[Areas := false, Zones := false, Outputs := false];
      readyEvent := false;
    }
  }

  // ---------------------------------------------------------------- runs

  /** Links: the kernel becomes ready or not; Rechecks: an event that marks nothing. */
  datatype Event =
    | Inventory(domain: Domain, configured: set<int>) | Status(domain: Domain, ids: set<int>)
    | Links(up: bool) | Rechecks | Resets

  const FRESH := State(RESET, RESET, RESET, false, false)

  function Next(s: State, e: Event): State {
    match e
    case Inventory(d, configured) => InventoryReady(s, d, configured)
    case Status(d, ids) => StatusSeen(s, d, ids)
    case Links(up) => s.(linked := up)
    case Rechecks => Recheck(s)
    case Resets => Resetting(s)
  }

  function After(s: State, run: seq<Event>): State {
    if run == [] then s else Next(After(s, run[..|run| - 1]), run[|run| - 1])
  }

  /** The first inventory event of the domain since the last reset. */
  function First(run: seq<Event>, d: Domain): (i: Option<nat>)
    ensures i.Some? ==> i.value < |run| && run[i.value].Inventory? && run[i.value].domain == d
  {
    if run == [] then None
    else
      var n := |run| - 1;
      var before := First(run[..n], d);
      if run[n].Resets? then None
      else if before == None && run[n].Inventory? && run[n].domain == d then Some(n)
      else before
  }

  /** Event i is an inventory of the domain, no reset comes after it, and every earlier one is
      separated from it by a reset. */
  predicate FirstInventory(run: seq<Event>, d: Domain, i: nat) {
    && i < |run| && run[i].Inventory? && run[i].domain == d
    && (forall k :: i < k < |run| ==> !run[k].Resets?)
    && (forall k :: 0 <= k < i && run[k].Inventory? && run[k].domain == d ==> ResetBetween(run, k, i))
  }

  predicate ResetBetween(run: seq<Event>, k: nat, i: nat)
    requires i <= |run|
  {
    exists m :: k < m < i && run[m].Resets?
  }

  /** Some status event after event i names the id. */
  predicate SeenAfter(run: seq<Event>, d: Domain, i: nat, id: int) {
    exists j :: i < j < |run| && run[j].Status? && run[j].domain == d && id in run[j].ids
  }

  lemma {:induction false} FirstIsFirst(run: seq<Event>, d: Domain)
    ensures First(run, d).Some? ==> FirstInventory(run, d, First(run, d).value)
    ensures First(run, d) == None ==>
              forall k :: 0 <= k < |run| && run[k].Inventory? && run[k].domain == d ==> ResetBetween(run, k, |run|)
  {
    if run != [] {
      var n := |run| - 1;
      var before := run[..n];
      FirstIsFirst(before, d);
      forall k | 0 <= k < n ensures run[k] == before[k] {}
      if First(run, d) == None {
        forall k | 0 <= k < |run| && run[k].Inventory? && run[k].domain == d ensures ResetBetween(run, k, |run|) {
          if !run[n].Resets? {
            assert ResetBetween(before, k, n);
            var m :| k < m < n && before[m].Resets?;
            assert run[m].Resets?;
          }
        }
      } else {
        var i := First(run, d).value;
        forall k | 0 <= k < i && run[k].Inventory? && run[k].domain == d ensures ResetBetween(run, k, i) {
          assert ResetBetween(before, k, i);
          var m :| k < m < i && before[m].Resets?;
          assert run[m].Resets?;
        }
      }
    }
  }

  /** How far the bookkeeping for one domain agrees with the run: the ids still pending are
      those of the first inventory that no status has named since. */
  predicate Tracks(run: seq<Event>, d: Domain, p: Progress) {
    match First(run, d)
    case None => !p.inventory && p.pending == {}
    case Some(i) =>
      && p.inventory
      && p.pending == (set id | id in run[i].configured && !SeenAfter(run, d, i, id))
      && (p.status <==> p.pending == {})
  }

  lemma SeenLater(run: seq<Event>, e: Event, d: Domain, i: nat, id: int)
    requires i < |run|
    ensures SeenAfter(run + [e], d, i, id) <==>
              SeenAfter(run, d, i, id) || (e.Status? && e.domain == d && id in e.ids)
  {
    var more := run + [e];
    if e.Status? && e.domain == d && id in e.ids {
      assert more[|run|] == e;
    }
    if SeenAfter(run, d, i, id) {
      var j :| i < j < |run| && run[j].Status? && run[j].domain == d && id in run[j].ids;
      assert more[j] == run[j];
    }
  }

  lemma FirstStep(run: seq<Event>, e: Event, d: Domain)
    ensures First(run + [e], d) ==
            if e.Resets? then None
            else if First(run, d) == None && e.Inventory? && e.domain == d then Some(|run|)
            else First(run, d)
  {
    assert (run + [e])[..|run|] == run;
  }

  /** One step of one domain. */
  function NextOf(p: Progress, e: Event, d: Domain): Progress {
    if e.Resets? then RESET
    else if e.Inventory? && e.domain == d && !p.inventory then Progress(true, e.configured, e.configured == {})
    else if e.Status? && e.domain == d then
      Progress(p.inventory, p.pending - e.ids, p.pending - e.ids == {} || p.status)
    else p
  }

  lemma NextIsLocal(s: State, e: Event, d: Domain)
    ensures Of(Next(s, e), d) == NextOf(Of(s, d), e, d)
  {}

  lemma TracksStep(run: seq<Event>, p: Progress, e: Event, d: Domain)
    requires Tracks(run, d, p)
    ensures Tracks(run + [e], d, NextOf(p, e, d))
  {
    hide First, SeenAfter;
    FirstStep(run, e, d);
    var more := run + [e];
    if First(run, d).Some? && !e.Resets? {
      var i := First(run, d).value;
      assert more[i] == run[i];
      forall id ensures SeenAfter(more, d, i, id) <==>
                          SeenAfter(run, d, i, id) || (e.Status? && e.domain == d && id in e.ids) {
        SeenLater(run, e, d, i, id);
      }
    } else if First(more, d).Some? {
      forall id | id in more[|run|].configured ensures !SeenAfter(more, d, |run|, id) {
        Unseen(more, d, id);
      }
    }
  }

  lemma Unseen(run: seq<Event>, d: Domain, id: int)
    requires run != []
    ensures !SeenAfter(run, d, |run| - 1, id)
  {}

  lemma {:induction false} RunTracks(run: seq<Event>, d: Domain)
    ensures Tracks(run, d, Of(After(FRESH, run), d))
  {
    if run != [] {
      var n := |run| - 1;
      RunTracks(run[..n], d);
      var s := After(FRESH, run[..n]);
      NextIsLocal(s, run[n], d);
      TracksStep(run[..n], Of(s, d), run[n], d);
      assert run[..n] + [run[n]] == run;
    }
  }

  /** The domain's inventory has come, and since then a status for every id it configured. */
  predicate Covered(run: seq<Event>, d: Domain) {
    First(run, d).Some? &&
    forall id :: id in run[First(run, d).value].configured ==> SeenAfter(run, d, First(run, d).value, id)
  }

  /** Over every run, the client is bootstrapped exactly when all three domains are covered. */
  lemma ReadyIffCovered(run: seq<Event>)
    ensures Ready(After(FRESH, run)) <==> Covered(run, Areas) && Covered(run, Zones) && Covered(run, Outputs)
  {
    CoveredIff(run, Areas);
    CoveredIff(run, Zones);
    CoveredIff(run, Outputs);
  }

  lemma CoveredIff(run: seq<Event>, d: Domain)
    ensures var p := Of(After(FRESH, run), d); Covered(run, d) <==> p.inventory && p.status
  {
    RunTracks(run, d);
    var p := Of(After(FRESH, run), d);
    if First(run, d).Some? {
      var i := First(run, d).value;
      var missing := set id | id in run[i].configured && !SeenAfter(run, d, i, id);
      assert missing == {} <==> forall id :: id in run[i].configured ==> SeenAfter(run, d, i, id) by {
        if id :| id in run[i].configured && !SeenAfter(run, d, i, id) { assert id in missing; }
      }
    }
  }

  lemma CoveredStays(run: seq<Event>, e: Event, d: Domain)
    requires Covered(run, d) && !e.Resets?
    ensures Covered(run + [e], d)
  {
    var more := run + [e];
    assert more[..|run|] == run && more[|run|] == e;
    var i := First(run, d).value;
    assert more[i] == run[i];
    forall id | id in run[i].configured ensures SeenAfter(more, d, i, id) { SeenLater(run, e, d, i, id); }
  }

  /** Once bootstrapped, the client stays so until a reset, whatever events come. */
  lemma {:induction false} ReadyStays(run: seq<Event>, more: seq<Event>)
    requires Ready(After(FRESH, run)) && forall k :: 0 <= k < |more| ==> !more[k].Resets?
    ensures Ready(After(FRESH, run + more))
    decreases |more|
  {
    if more == [] {
      assert run + more == run;
    } else {
      var n := |more| - 1;
      ReadyStays(run, more[..n]);
      ReadyIffCovered(run + more[..n]);
      CoveredStays(run + more[..n], more[n], Areas);
      CoveredStays(run + more[..n], more[n], Zones);
      CoveredStays(run + more[..n], more[n], Outputs);
      assert run + more[..n] + [more[n]] == run + more;
      ReadyIffCovered(run + more);
    }
  }

  // ---------------------------------------------------------------- the event

  /** The events that look whether the client is ready: every status, every recheck, and the
      first inventory of a domain if it is empty. */
  predicate Looks(s: State, e: Event) {
    e.Status? || e.Rechecks? || (e.Inventory? && e.configured == {} && !Of(s, e.domain).inventory)
  }

  /** The look finds the kernel ready and the client bootstrapped. */
  predicate Finds(s: State, e: Event) { Looks(s, e) && s.linked && Ready(Next(s, e)) }

  lemma EventStep(s: State, e: Event)
    ensures Next(s, e).event <==> !e.Resets? && (s.event || Finds(s, e))
  {}

  /** Event i finds the client ready, and no reset comes after it. */
  predicate FoundAt(run: seq<Event>, i: nat) {
    i < |run| && Finds(After(FRESH, run[..i]), run[i]) && forall k :: i <= k < |run| ==> !run[k].Resets?
  }

  /** Over every run, the event that wakes `wait_ready` is set exactly if, since the last reset,
      some look found the kernel ready and the client bootstrapped. */
  lemma {:induction false} EventIffFound(run: seq<Event>)
    ensures After(FRESH, run).event <==> exists i: nat :: FoundAt(run, i)
  {
    if run != [] {
      var n := |run| - 1;
      var before := run[..n];
      EventIffFound(before);
      EventStep(After(FRESH, before), run[n]);
      forall i: nat | i < n ensures before[..i] == run[..i] && before[i] == run[i] {}
      forall i: nat | i < n ensures FoundAt(run, i) <==> FoundAt(before, i) && !run[n].Resets? {
        if FoundAt(before, i) && !run[n].Resets? {
          forall k | i <= k < |run| ensures !run[k].Resets? { assert k < n ==> before[k] == run[k]; }
        }
        if FoundAt(run, i) {
          forall k | i <= k < n ensures !before[k].Resets? { assert before[k] == run[k]; }
        }
      }
      assert FoundAt(run, n) <==> Finds(After(FRESH, before), run[n]);
    }
  }

  /** So it is only ever set while the client is bootstrapped. */
  lemma {:induction false} EventHonest(run: seq<Event>)
    ensures After(FRESH, run).event ==> Ready(After(FRESH, run))
  {
    if run != [] {
      var n := |run| - 1;
      EventHonest(run[..n]);
      if After(FRESH, run[..n]).event && !run[n].Resets? {
        assert run == run[..n] + [run[n]];
        ReadyStays(run[..n], [run[n]]);
      }
    }
  }

  lemma AfterOne(run: seq<Event>, e: Event)
    ensures After(FRESH, run + [e]) == Next(After(FRESH, run), e)
  {
    assert (run + [e])[..|run|] == run;
  }

  /** It can lag behind: a panel with nothing configured whose kernel becomes ready last leaves
      the client ready with the event unset, until whatever event comes next. */
  lemma EventLags()
    ensures var run := [Inventory(Areas, {}), Inventory(Zones, {}), Inventory(Outputs, {}), Links(true)];
      && (var s := After(FRESH, run); s.linked && Ready(s) && !s.event)
      && After(FRESH, run + [Rechecks]).event
  {
    hide After;
    var a, z, o := Inventory(Areas, {}), Inventory(Zones, {}), Inventory(Outputs, {});
    AfterNone();
    AfterOne([], a);
    AfterOne([a], z);
    AfterOne([a, z], o);
    AfterOne([a, z, o], Links(true));
    AfterOne([a, z, o, Links(true)], Rechecks);
    assert [] + [a] == [a] && [a] + [z] == [a, z] && [a, z] + [o] == [a, z, o];
    assert [a, z, o] + [Links(true)] == [a, z, o, Links(true)];
  }

  lemma AfterNone()
    ensures After(FRESH, []) == FRESH
  {}
}
