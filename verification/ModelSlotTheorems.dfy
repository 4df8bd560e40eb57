/** The lifetime of every delegate of the model slot, over every interleaving of calls, activations and shutdown. */
module ModelSlotTheorems {
  import opened Common
  import opened ModelSlot

  // ---------------------------------------------------------------------------
  // The invariant

  ghost function CallsOn(calls: map<nat, nat>, i: nat): set<nat> {
    set c | c in calls && calls[c] == i
  }

  /** How often an entry is on its way to the reaper. */
  ghost function OnTheWay(s: Slot, i: nat): nat {
    multiset(s.owed)[i] + multiset(s.queue)[i]
  }

  /** An entry that is retired and out of calls is on its way or was closed: once in all, and no earlier. */
  ghost predicate EntryHolds(s: Slot, i: nat)
    requires i < |s.entries| && |s.attempts| == |s.closed| == |s.entries|
  {
    && OnTheWay(s, i) + s.attempts[i] == (if s.entries[i].retired && s.entries[i].inFlight == 0 then 1 else 0)
    && s.closed[i] + (if s.reaper == Closing(i) then 1 else 0) == s.attempts[i]
    && (s.entries[i].retired <==> s.active != Some(i))
  }

  ghost predicate EntriesInv(s: Slot) {
    && |s.attempts| == |s.closed| == |s.entries|
    && (s.active.Some? ==> s.active.value + 1 == |s.entries|)
    && (forall i :: 0 <= i < |s.entries| ==> EntryHolds(s, i))
    && (forall i :: i in s.owed || i in s.queue ==> i < |s.entries|)
    && (s.reaper.Closing? ==> s.reaper.entry < |s.entries|)
  }

  ghost predicate CallsInv(s: Slot) {
    && (forall c :: c in s.calls ==> c < s.callCount && s.calls[c] < |s.entries|)
    && (forall i :: 0 <= i < |s.entries| ==> s.entries[i].inFlight == |CallsOn(s.calls, i)|)
  }

  ghost predicate VersionsInv(s: Slot) {
    forall i, j :: 0 <= i < j < |s.entries| ==> s.entries[i].version < s.entries[j].version
  }

  ghost function Pending(s: Slot): set<nat>
    requires |s.closed| == |s.entries|
  {
    set i | 0 <= i < |s.entries| && s.entries[i].retired && s.closed[i] == 0
  }

  ghost predicate ShutdownInv(s: Slot) {
    && (s.reaper.Absent? <==> !s.started)
    && (!s.started ==> s.shutdown.NotRequested? && s.entries == [])
    && (s.reaper.Gone? ==> s.shutdown.Stopping? || s.shutdown.Finished?)
    && (s.shutdown.Finished? ==> s.reaper.Gone?)
    && (!s.shutdown.NotRequested? && !s.shutdown.Requested? ==> s.active.None?)
    && (s.shutdown.Draining? ==> (s.drained || !s.shutdown.waits <==> s.pendingRetired == 0))
    && (s.shutdown.Joining? || s.shutdown.Stopping? || s.shutdown == Finished(false) ==> s.pendingRetired == 0)
  }

  ghost predicate Inv(s: Slot) {
    (
      && EntriesInv(s)
      && CallsInv(s)
      && VersionsInv(s)
      && s.pendingRetired == |Pending(s)|
      && ShutdownInv(s)
    ) == true
  }

  // ---------------------------------------------------------------------------
  // Counting

  lemma AddsCall(calls: map<nat, nat>, c: nat, i: nat)
    requires c !in calls
    ensures |CallsOn(calls[c := i], i)| == |CallsOn(calls, i)| + 1
    ensures forall j :: j != i ==> CallsOn(calls[c := i], j) == CallsOn(calls, j)
  {
    assert CallsOn(calls[c := i], i) == CallsOn(calls, i) + {c};
  }

  lemma DropsCall(calls: map<nat, nat>, c: nat)
    requires c in calls
    ensures |CallsOn(calls - {c}, calls[c])| + 1 == |CallsOn(calls, calls[c])|
    ensures forall j :: j != calls[c] ==> CallsOn(calls - {c}, j) == CallsOn(calls, j)
  {
    assert CallsOn(calls, calls[c]) == CallsOn(calls - {c}, calls[c]) + {c};
  }

  lemma TakesOut(owed: seq<nat>, position: nat)
    requires position < |owed|
    ensures multiset(owed[..position] + owed[position + 1..]) + multiset{owed[position]} == multiset(owed)
  {
    assert owed == owed[..position] + [owed[position]] + owed[position + 1..];
  }

  /** A retirement adds one pending entry. */
  lemma RetireKeepsPending(s: Slot, i: nat)
    requires EntriesInv(s) && s.active == Some(i)
    ensures Pending(Retire(s, i)) == Pending(s) + {i} && i !in Pending(s)
  {
    assert EntryHolds(s, i);
  }

  // ---------------------------------------------------------------------------
  // Every step keeps it

  lemma RetireKeepsEntries(s: Slot, i: nat)
    requires EntriesInv(s) && CallsInv(s) && VersionsInv(s) && s.active == Some(i)
    ensures
      var t := Retire(s, i).(active := None);
      EntriesInv(t) && CallsInv(t) && VersionsInv(t)
  {
    hide CallsOn;
    assert EntryHolds(s, i);
    var t := Retire(s, i).(active := None);
    forall j | 0 <= j < |t.entries|
      ensures EntryHolds(t, j)
    {
      assert EntryHolds(s, j);
    }
  }

  lemma RetireActiveKeeps(s: Slot)
    requires Inv(s)
    ensures EntriesInv(RetireActive(s)) && CallsInv(RetireActive(s)) && VersionsInv(RetireActive(s))
    ensures RetireActive(s).pendingRetired == |Pending(RetireActive(s))|
    ensures RetireActive(s).active.None?
  {
    if s.active.Some? {
      var i := s.active.value;
      RetireKeepsPending(s, i);
      RetireKeepsEntries(s, i);
      ActiveIsServing(s, i);
      assert Pending(RetireActive(s)) == Pending(Retire(s, i));
    }
    hide EntriesInv, CallsInv, VersionsInv, Pending;
  }

  lemma ActiveIsServing(s: Slot, i: nat)
    requires EntriesInv(s) && s.active == Some(i)
    ensures i < |s.entries| && !s.entries[i].retired
  {
    assert EntryHolds(s, i);
  }

  lemma ActivateKeeps(s: Slot, version: nat)
    requires Inv(s)
    ensures Inv(OrSame(ActivateStep(s, version), s))
  {
    if Serving(s) && version > LastVersion(s) {
      RetireActiveKeeps(s);
      var t := RetireActive(s);
      assert LastVersion(t) == LastVersion(s) && t.shutdown == s.shutdown && t.started && t.reaper == s.reaper;
      assert ShutdownInv(s);
      hide RetireActive, CallsOn, Pending, EntriesInv, CallsInv, VersionsInv;
      InstallKeeps(t, version);
    }
  }

  lemma InstallKeeps(s: Slot, version: nat)
    requires EntriesInv(s) && CallsInv(s) && VersionsInv(s) && s.pendingRetired == |Pending(s)|
    requires s.active.None? && version > LastVersion(s)
    ensures
      var t := Install(s, version);
      EntriesInv(t) && CallsInv(t) && VersionsInv(t) && t.pendingRetired == |Pending(t)|
  {
    var t := Install(s, version);
    var n := |s.entries|;
    NoCallsAhead(s);
    assert Pending(t) == Pending(s);
    hide CallsOn, Pending;
    assert n !in s.owed && n !in s.queue;
    forall j | 0 <= j < |t.entries|
      ensures EntryHolds(t, j)
    {
      if j < n {
        assert EntryHolds(s, j);
      }
    }
  }

  lemma NoCallsAhead(s: Slot)
    requires CallsInv(s)
    ensures CallsOn(s.calls, |s.entries|) == {}
  {
  }

  lemma CaptureKeeps(s: Slot)
    requires Inv(s)
    ensures Inv(OrSame(CaptureStep(s), s))
  {
    if CaptureStep(s).Some? {
      var i := s.active.value;
      var t := CaptureStep(s).value;
      AddsCall(s.calls, s.callCount, i);
      hide CallsOn;
      forall j | 0 <= j < |t.entries|
        ensures EntryHolds(t, j)
      {
        assert EntryHolds(s, j);
      }
      assert Pending(t) == Pending(s);
    }
  }

  lemma ReleaseKeeps(s: Slot, call: nat)
    requires Inv(s) && ReleaseStep(s, call).Some?
    ensures Inv(ReleaseStep(s, call).value)
  {
    var i := s.calls[call];
    var t := ReleaseStep(s, call).value;
    DropsCall(s.calls, call);
    hide CallsOn;
    forall j | 0 <= j < |t.entries|
      ensures EntryHolds(t, j)
    {
      assert EntryHolds(s, j);
    }
    assert Pending(t) == Pending(s);
  }

  lemma EnqueuesOwed(s: Slot, position: nat)
    requires EnqueueStep(s, position).Some?
    ensures
      var t := EnqueueStep(s, position).value;
      forall i :: i in t.owed || i in t.queue ==> i in s.owed || i in s.queue
  {
    var t := EnqueueStep(s, position).value;
    assert s.owed[position] in s.owed;
    assert forall i :: i in s.owed[..position] ==> i in s.owed;
    assert forall i :: i in s.owed[position + 1..] ==> i in s.owed;
  }

  lemma EnqueueKeeps(s: Slot, position: nat)
    requires Inv(s) && EnqueueStep(s, position).Some?
    ensures Inv(EnqueueStep(s, position).value)
  {
    var t := EnqueueStep(s, position).value;
    TakesOut(s.owed, position);
    assert multiset(t.queue) == multiset(s.queue) + multiset{s.owed[position]};
    EnqueuesOwed(s, position);
    hide CallsOn;
    forall j | 0 <= j < |t.entries|
      ensures EntryHolds(t, j)
    {
      assert EntryHolds(s, j);
    }
    assert Pending(t) == Pending(s);
    OwedIsPending(s, position);
  }

  lemma OwedIsPending(s: Slot, position: nat)
    requires EntriesInv(s) && position < |s.owed|
    ensures s.owed[position] in Pending(s) && |Pending(s)| > 0
  {
    var i := s.owed[position];
    assert i in s.owed && EntryHolds(s, i);
    assert multiset(s.owed)[i] > 0;
    assert i in Pending(s);
  }

  lemma TakeKeeps(s: Slot)
    requires Inv(s) && TakeStep(s).Some?
    ensures Inv(TakeStep(s).value)
  {
    var t := TakeStep(s).value;
    var i := s.queue[0];
    assert s.queue == [i] + s.queue[1..];
    assert multiset(s.queue) == multiset{i} + multiset(t.queue);
    assert forall k :: k in t.queue ==> k in s.queue;
    assert EntryHolds(s, i);
    assert Pending(t) == Pending(s);
    hide CallsOn, Pending;
    forall j | 0 <= j < |t.entries|
      ensures EntryHolds(t, j)
    {
      assert EntryHolds(s, j);
    }
  }

  /** A close that comes back takes its entry off the pending ones. */
  lemma ClosedKeeps(s: Slot, reaper: Reaper)
    requires Inv(s) && s.reaper.Closing? && (reaper.Idle? || reaper.Gone?)
    ensures MayReturn(s)
    ensures
      var t := Closed(s, s.reaper.entry).(reaper := reaper);
      && EntriesInv(t) && CallsInv(t) && VersionsInv(t) && t.pendingRetired == |Pending(t)|
      && t.pendingRetired + 1 == s.pendingRetired
  {
    hide CallsOn, EntryHolds, OnTheWay;
    ClosingPends(s);
    var t := Closed(s, s.reaper.entry).(reaper := reaper);
    ClosedEntries(s, t);
    ClosedPending(s, t);
    hide EntriesInv, Pending;
  }

  lemma ClosingPends(s: Slot)
    requires EntriesInv(s) && s.reaper.Closing? && s.pendingRetired == |Pending(s)|
    ensures s.reaper.entry in Pending(s) && MayReturn(s)
  {
    assert EntryHolds(s, s.reaper.entry);
  }

  lemma ClosedPending(s: Slot, t: Slot)
    requires |s.closed| == |s.entries| && s.reaper.Closing? && s.reaper.entry in Pending(s) && s.pendingRetired > 0
    requires s.reaper.entry < |s.closed| && t == Closed(s, s.reaper.entry).(reaper := t.reaper)
    ensures |Pending(s)| == |Pending(t)| + 1
  {
    assert Pending(s) == Pending(t) + {s.reaper.entry};
  }

  lemma ClosedEntries(s: Slot, t: Slot)
    requires EntriesInv(s) && s.reaper.Closing? && s.pendingRetired > 0
    requires t == Closed(s, s.reaper.entry).(reaper := t.reaper) && !t.reaper.Closing?
    ensures EntriesInv(t)
  {
    forall j | 0 <= j < |t.entries|
      ensures EntryHolds(t, j)
    {
      assert EntryHolds(s, j);
    }
  }

  lemma RetireForShutdownKeeps(s: Slot)
    requires Inv(s) && s.shutdown.Requested?
    ensures Inv(RetireForShutdownStep(s))
  {
    RetireActiveKeeps(s);
    var r := RetireActive(s);
    assert r.reaper == s.reaper && r.started == s.started && (r.entries == [] <==> s.entries == []);
    hide RetireActive, CallsOn;
    var t := RetireForShutdownStep(s);
    assert Pending(t) == Pending(r);
    forall j | 0 <= j < |t.entries|
      ensures EntryHolds(t, j)
    {
      assert EntryHolds(r, j);
    }
  }

  lemma TimeOutKeeps(s: Slot)
    requires Inv(s) && (s.shutdown.Draining? || s.shutdown.Joining? || s.shutdown.Stopping?)
    ensures Inv(TimeOutStep(s))
  {
    var t := TimeOutStep(s);
    if s.reaper.Closing? {
      ClosedKeeps(s, Gone);
      var c := Closed(s, s.reaper.entry).(reaper := Gone);
      SameEntries(c, t);
    } else {
      SameEntries(s, t);
    }
    hide EntriesInv, CallsInv, VersionsInv, Pending;
  }

  /** Only the shutdown's progress and a reaper that closes nothing differ. */
  lemma SameEntries(s: Slot, t: Slot)
    requires EntriesInv(s) && CallsInv(s) && VersionsInv(s) && s.pendingRetired == |Pending(s)|
    requires t == s.(reaper := t.reaper, shutdown := t.shutdown) && (t.reaper == s.reaper || (!s.reaper.Closing? && !t.reaper.Closing?))
    ensures EntriesInv(t) && CallsInv(t) && VersionsInv(t) && t.pendingRetired == |Pending(t)|
  {
    hide CallsOn;
    assert Pending(t) == Pending(s);
    forall j | 0 <= j < |t.entries|
      ensures EntryHolds(t, j)
    {
      assert EntryHolds(s, j);
    }
  }

  lemma ShutdownKeeps(s: Slot, a: Step)
    requires Inv(s) && ShutdownStep(s, a).Some?
    ensures Inv(ShutdownStep(s, a).value)
  {
    hide CallsOn, RetireForShutdownStep, TimeOutStep;
    if a.RetireForShutdown? {
      RetireForShutdownKeeps(s);
    } else if a.TimeOut? {
      TimeOutKeeps(s);
    } else {
      SameEntries(s, ShutdownStep(s, a).value);
      hide Pending, EntriesInv, CallsInv, VersionsInv;
    }
  }

  lemma StartKeeps(s: Slot)
    requires Inv(s) && !s.started
    ensures Inv(s.(started := true, drained := true, reaper := Idle))
  {
    assert Pending(s.(started := true, drained := true, reaper := Idle)) == Pending(s);
    hide CallsOn, Pending;
  }

  lemma DeactivateKeeps(s: Slot)
    requires Inv(s)
    ensures Inv(DeactivateStep(s))
  {
    RetireActiveKeeps(s);
    assert RetireActive(s).reaper == s.reaper && RetireActive(s).started == s.started;
    assert s.entries == [] ==> RetireActive(s).entries == [];
    assert RetireActive(s).shutdown == s.shutdown;
    hide RetireActive, EntriesInv, CallsInv, VersionsInv, Pending;
  }

  lemma CloseReturnsKeeps(s: Slot)
    requires Inv(s) && MayReturn(s)
    ensures Inv(Closed(s, s.reaper.entry).(reaper := Idle))
  {
    ClosedKeeps(s, Idle);
    hide EntriesInv, CallsInv, VersionsInv, Pending;
  }

  lemma NextKeeps(s: Slot, a: Step)
    requires Inv(s) && Next(s, a).Some?
    ensures Inv(Next(s, a).value)
  {
    hide Inv, ActivateStep, DeactivateStep, CaptureStep, ReleaseStep, EnqueueStep, TakeStep, Closed, ShutdownStep;
    match a
    case Start =>
      if !s.started {
        StartKeeps(s);
      }
    case Activate(version) => ActivateKeeps(s, version);
    case Deactivate => DeactivateKeeps(s);
    case Capture => CaptureKeeps(s);
    case Release(call) => ReleaseKeeps(s, call);
    case Enqueue(position) => EnqueueKeeps(s, position);
    case ReaperTakes => TakeKeeps(s);
    case CloseReturns => CloseReturnsKeeps(s);
    case _ => ShutdownKeeps(s, a);
  }

  lemma {:induction false} RunKeeps(s: Slot, steps: seq<Step>)
    requires Inv(s) && Run(s, steps).Some?
    ensures Inv(Run(s, steps).value)
    decreases |steps|
  {
    if steps != [] {
      NextKeeps(s, steps[0]);
      hide Inv, Next;
      RunKeeps(Next(s, steps[0]).value, steps[1..]);
    }
  }

  lemma ActiveNotRetired(s: Slot)
    requires Inv(s)
    ensures s.active.Some? ==> s.active.value < |s.entries| && !s.entries[s.active.value].retired
  {
    if s.active.Some? {
      assert EntryHolds(s, s.active.value);
    }
  }

  lemma QueuedIsKnown(s: Slot)
    requires Inv(s) && s.queue != []
    ensures s.queue[0] < |s.entries| == |s.attempts|
  {
    assert s.queue[0] in s.queue;
  }

  lemma ClosingReturns(s: Slot)
    requires Inv(s) && s.reaper.Closing?
    ensures MayReturn(s)
  {
    ClosedKeeps(s, Idle);
  }

  ghost predicate Reachable(s: Slot) {
    exists steps :: Run(INITIAL, steps) == Some(s)
  }

  lemma ReachableInv(s: Slot)
    requires Reachable(s)
    ensures Inv(s)
  {
    var steps :| Run(INITIAL, steps) == Some(s);
    assert Pending(INITIAL) == {};
    RunKeeps(INITIAL, steps);
  }

  // ---------------------------------------------------------------------------
  // Every run

  /** Installed versions strictly increase, and only the newest delegate can be active. */
  lemma VersionsIncrease(s: Slot, i: nat, j: nat)
    requires Reachable(s) && i < j < |s.entries|
    ensures s.entries[i].version < s.entries[j].version
    ensures s.entries[i].retired && s.active != Some(i)
  {
    ReachableInv(s);
    assert EntryHolds(s, i);
  }

  /** A serving slot refuses an activation exactly when its version is not newer than the newest installed. */
  lemma OnlyStaleRefused(s: Slot, version: nat)
    requires Reachable(s) && Serving(s)
    ensures ActivateStep(s, version).None? <==> s.entries != [] && version <= s.entries[|s.entries| - 1].version
  {
  }

  /**
   Every delegate is handed to the reaper once, when it is retired and its last call is back; until then
   it is not closed, and a call in flight is always counted on a delegate that is not being closed.
   */
  lemma ClosedOnce(s: Slot, i: nat)
    requires Reachable(s) && i < |s.entries|
    ensures |s.attempts| == |s.closed| == |s.entries|
    ensures s.closed[i] <= s.attempts[i] <= 1
    ensures OnTheWay(s, i) + s.attempts[i] == 1 <==> s.entries[i].retired && CallsOn(s.calls, i) == {}
    ensures OnTheWay(s, i) + s.attempts[i] <= 1
    ensures s.entries[i].inFlight == |CallsOn(s.calls, i)|
  {
    ReachableInv(s);
    assert EntryHolds(s, i);
    hide Pending, CallsOn;
  }

  /** Once its close has begun, a delegate serves no call in any continuation. */
  lemma ClosingServesNobody(s: Slot, steps: seq<Step>, i: nat)
    requires Reachable(s) && i < |s.entries| && Run(s, steps).Some?
    requires |s.attempts| == |s.entries| && s.attempts[i] > 0
    ensures CallsOn(Run(s, steps).value.calls, i) == {}
  {
    ReachableInv(s);
    RunKeeps(s, steps);
    AttemptsStay(s, steps, i);
    var t := Run(s, steps).value;
    assert EntryHolds(t, i);
    assert t.entries[i].inFlight == |CallsOn(t.calls, i)|;
  }

  lemma {:induction false} AttemptsStay(s: Slot, steps: seq<Step>, i: nat)
    requires Inv(s) && i < |s.attempts| && s.attempts[i] > 0 && Run(s, steps).Some?
    ensures Inv(Run(s, steps).value) && i < |Run(s, steps).value.attempts| && Run(s, steps).value.attempts[i] > 0
    decreases |steps|
  {
    if steps != [] {
      NextKeeps(s, steps[0]);
      AttemptsNext(s, steps[0], i);
      hide Inv, Next;
      AttemptsStay(Next(s, steps[0]).value, steps[1..], i);
    }
  }

  lemma AttemptsNext(s: Slot, a: Step, i: nat)
    requires i < |s.attempts| && s.attempts[i] > 0 && Next(s, a).Some?
    ensures i < |Next(s, a).value.attempts| && Next(s, a).value.attempts[i] > 0
  {
  }

  /** A shutdown that did not time out returns only after every installed delegate had its one close. */
  lemma ShutdownClosesAll(s: Slot, i: nat)
    requires Reachable(s) && s.shutdown == Finished(false) && i < |s.entries|
    ensures |s.attempts| == |s.closed| == |s.entries|
    ensures s.attempts[i] == 1 && s.closed[i] == 1
    ensures s.entries[i].retired && CallsOn(s.calls, i) == {}
    ensures i !in s.owed && i !in s.queue
  {
    ReachableInv(s);
    assert EntryHolds(s, i);
    assert Pending(s) == {};
    assert i !in Pending(s);
    assert s.entries[i].inFlight == |CallsOn(s.calls, i)|;
  }

  /** Once shutdown waits for nothing more no entry is under way, and when it is over the reaper is gone. */
  lemma EndIsQuiet(s: Slot)
    requires Reachable(s)
    ensures s.shutdown.Finished? ==> s.reaper.Gone?
    ensures s.shutdown.Joining? || s.shutdown.Stopping? || s.shutdown == Finished(false) ==>
              s.owed == [] && s.queue == [] && !s.reaper.Closing?
  {
    ReachableInv(s);
    if s.shutdown.Joining? || s.shutdown.Stopping? || s.shutdown == Finished(false) {
      Settled(s);
    }
  }

  /** The reaper is never stuck: while an entry is on its way it can be taken unless another is being closed. */
  lemma WayIsOpen(s: Slot, i: nat)
    requires Reachable(s) && i < |s.entries| && OnTheWay(s, i) > 0
    ensures i in s.queue || exists p: nat :: p < |s.owed| && s.owed[p] == i && EnqueueStep(s, p).Some?
    ensures s.queue != [] && s.reaper.Idle? ==> TakeStep(s).Some?
    ensures s.reaper.Closing? ==> MayReturn(s)
  {
    ReachableInv(s);
    if i in s.owed {
      var p :| 0 <= p < |s.owed| && s.owed[p] == i;
      assert EnqueueStep(s, p).Some?;
    }
    if s.queue != [] {
      assert s.queue[0] in s.queue;
    }
    if s.reaper.Closing? {
      ClosedKeeps(s, Idle);
    }
  }

  // ---------------------------------------------------------------------------
  // A shutdown can always be brought to its end

  /** What still has to happen before the slot is drained. */
  ghost function Work(s: Slot): nat {
    4 * |s.calls| + 3 * |s.owed| + 2 * |s.queue| + if s.reaper.Closing? then 1 else 0
  }

  function Stage(s: Slot): nat {
    match s.shutdown
    case NotRequested => 6
    case Requested => 5
    case Draining(_) => 4
    case Joining => 3
    case Stopping => if s.reaper.Gone? then 1 else 2
    case Finished(_) => 0
  }

  lemma QueuedIsPending(s: Slot)
    requires EntriesInv(s) && s.queue != []
    ensures s.queue[0] in Pending(s)
  {
    var i := s.queue[0];
    assert i in s.queue && EntryHolds(s, i) && multiset(s.queue)[i] > 0;
  }

  lemma ClosingIsPending(s: Slot)
    requires EntriesInv(s) && s.reaper.Closing?
    ensures s.reaper.entry in Pending(s)
  {
    assert EntryHolds(s, s.reaper.entry);
  }

  /** With nobody pending nothing is under way. */
  lemma NothingPending(s: Slot)
    requires EntriesInv(s) && Pending(s) == {}
    ensures s.owed == [] && s.queue == [] && !s.reaper.Closing?
  {
    hide EntriesInv, Pending;
    if s.owed != [] {
      OwedIsPending(s, 0);
    }
    if s.queue != [] {
      QueuedIsPending(s);
    }
    if s.reaper.Closing? {
      ClosingIsPending(s);
    }
  }

  /** Without calls and with nothing under way, every retired entry has been closed. */
  lemma AllClosed(s: Slot)
    requires EntriesInv(s) && CallsInv(s) && s.active.None?
    requires s.calls == map[] && s.owed == [] && s.queue == [] && !s.reaper.Closing?
    ensures Pending(s) == {}
  {
    forall i | 0 <= i < |s.entries|
      ensures i !in Pending(s)
    {
      assert EntryHolds(s, i);
      assert CallsOn(s.calls, i) == {};
    }
  }

  lemma ReleasePossible(s: Slot, c: nat)
    requires CallsInv(s) && c in s.calls
    ensures ReleaseStep(s, c).Some?
  {
    assert c in CallsOn(s.calls, s.calls[c]);
    assert s.entries[s.calls[c]].inFlight == |CallsOn(s.calls, s.calls[c])|;
  }

  /** The step that brings a shutdown on: begin it, end a call, move an entry on its way, or see that all is done. */
  ghost function Onward(s: Slot): Step {
    match s.shutdown
    case NotRequested => RequestShutdown
    case Requested => RetireForShutdown
    case Draining(_) =>
      if c: nat :| c in s.calls then Release(c)
      else if s.owed != [] then Enqueue(0)
      else if s.reaper.Closing? then CloseReturns
      else if s.queue != [] then ReaperTakes
      else SeeDrained
    case Joining => SeeJoined
    case Stopping => if s.reaper.Gone? then FinishShutdown else ReaperStops
    case Finished(_) => FinishShutdown
  }

  lemma Settled(s: Slot)
    requires Inv(s) && s.pendingRetired == 0
    ensures s.owed == [] && s.queue == [] && !s.reaper.Closing?
  {
    assert Pending(s) == {};
    NothingPending(s);
  }

  ghost predicate LessWork(s: Slot, t: Slot) {
    Stage(t) < Stage(s) || (Stage(t) == Stage(s) && Work(t) < Work(s))
  }

  lemma CallEnds(s: Slot, c: nat)
    requires CallsInv(s) && s.shutdown.Draining? && c in s.calls
    ensures Next(s, Release(c)).Some? && LessWork(s, Next(s, Release(c)).value)
  {
    ReleasePossible(s, c);
    hide CallsInv;
    var t := Next(s, Release(c)).value;
    assert s.calls.Keys == t.calls.Keys + {c} && |s.calls| == |s.calls.Keys| && |t.calls| == |t.calls.Keys|;
  }

  lemma EntryMoves(s: Slot)
    requires Inv(s) && s.started && s.shutdown.Draining? && (s.owed != [] || s.reaper.Closing? || s.queue != [])
    ensures
      var a := if s.owed != [] then Enqueue(0) else if s.reaper.Closing? then CloseReturns else ReaperTakes;
      Next(s, a).Some? && LessWork(s, Next(s, a).value)
  {
    if s.owed == [] && s.reaper.Closing? {
      ClosingReturns(s);
    } else if s.owed == [] {
      QueuedIsKnown(s);
    }
    hide EntriesInv, CallsInv, VersionsInv, Pending;
  }

  lemma DrainSeen(s: Slot)
    requires Inv(s) && s.shutdown.Draining? && s.calls == map[] && s.owed == [] && s.queue == [] && !s.reaper.Closing?
    ensures Next(s, SeeDrained).Some? && LessWork(s, Next(s, SeeDrained).value)
  {
    AllClosed(s);
    hide EntriesInv, CallsInv, VersionsInv, Pending;
  }

  lemma DrainGoesOn(s: Slot)
    requires Inv(s) && s.started && s.shutdown.Draining?
    ensures Next(s, Onward(s)).Some? && LessWork(s, Next(s, Onward(s)).value) && !Onward(s).TimeOut?
  {
    hide Next, LessWork, Pending, EntriesInv, CallsInv, VersionsInv, Work;
    if c: nat :| c in s.calls {
      assert Onward(s).Release? && Onward(s).call in s.calls;
      CallEnds(s, Onward(s).call);
    } else if s.owed != [] || s.reaper.Closing? || s.queue != [] {
      EntryMoves(s);
    } else {
      assert s.calls == map[];
      DrainSeen(s);
    }
  }

  lemma GoesOn(s: Slot)
    requires Inv(s) && s.started && !s.shutdown.Finished? && !s.shutdown.Draining?
    ensures Next(s, Onward(s)).Some? && Stage(Next(s, Onward(s)).value) < Stage(s)
    ensures Next(s, Onward(s)).value.shutdown.Finished? ==>
              Next(s, Onward(s)).value.shutdown == Finished(false) && Next(s, Onward(s)).value.reaper.Gone?
  {
    if s.shutdown.Joining? || s.shutdown.Stopping? {
      Settled(s);
    }
    hide EntriesInv, CallsInv, VersionsInv, Pending;
  }

  lemma {:induction false} CompletesFrom(s: Slot) returns (steps: seq<Step>)
    requires Inv(s) && s.started && !s.shutdown.Finished?
    ensures Run(s, steps).Some? && Run(s, steps).value.shutdown == Finished(false) && Run(s, steps).value.reaper.Gone?
    decreases Stage(s), Work(s)
  {
    var a := Onward(s);
    hide Inv, Next, Onward, Work;
    if s.shutdown.Draining? {
      DrainGoesOn(s);
    } else {
      GoesOn(s);
    }
    var t := Next(s, a).value;
    NextKeeps(s, a);
    StaysStarted(s, a);
    var rest: seq<Step> := [];
    if !t.shutdown.Finished? {
      rest := CompletesFrom(t);
    }
    assert ([a] + rest)[1..] == rest;
    steps := [a] + rest;
  }

  lemma StaysStarted(s: Slot, a: Step)
    requires s.started && Next(s, a).Some?
    ensures Next(s, a).value.started
    ensures s.shutdown.Draining? && !a.TimeOut? ==> !Next(s, a).value.shutdown.Finished?
  {
  }

  /** From wherever a started slot is, calls returning and the reaper working bring a shutdown to its end. */
  lemma ShutdownCompletes(s: Slot) returns (steps: seq<Step>)
    requires Reachable(s) && s.started && !s.shutdown.Finished?
    ensures Run(s, steps).Some? && Run(s, steps).value.shutdown == Finished(false) && Run(s, steps).value.reaper.Gone?
  {
    ReachableInv(s);
    hide Inv, Reachable;
    steps := CompletesFrom(s);
  }

  /** Once it waits a shutdown can time out at any moment; a close under way then counts as the only one of its entry. */
  lemma TimesOut(s: Slot)
    requires Reachable(s) && (s.shutdown.Draining? || s.shutdown.Joining? || s.shutdown.Stopping?)
    ensures
      var t := Next(s, TimeOut);
      && t.Some? && t.value.shutdown == Finished(true) && t.value.reaper.Gone?
      && t.value.calls == s.calls && t.value.attempts == s.attempts
      && (s.reaper.Closing? ==> s.reaper.entry < |t.value.closed| && t.value.closed[s.reaper.entry] == 1)
  {
    ReachableInv(s);
    if s.reaper.Closing? {
      ClosingReturns(s);
      assert EntryHolds(s, s.reaper.entry);
    }
    hide Pending, CallsOn;
  }
}
