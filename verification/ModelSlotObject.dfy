/**
 The model slot as the object it is: delegates are objects compared by identity, and each method is one
 region under the slot's lock, or one turn of the event loop, proved against its step function.
 */
module ModelSlotObject {
  import opened Common
  import opened ModelSlot
  import opened ModelSlotTheorems

  class SlotEntry {
    ghost const index: nat
    const version: nat
    var inFlight: nat
    var retired: bool

    constructor (ghost index: nat, version: nat)
      ensures this.index == index && this.version == version && inFlight == 0 && !retired
    {
      this.index := index;
      this.version := version;
      inFlight := 0;
      retired := false;
    }

    function View(): Entry
      reads this
    {
      Entry(version, inFlight, retired)
    }
  }

  ghost function Views(entries: seq<SlotEntry>): (r: seq<Entry>)
    reads entries
    ensures |r| == |entries|
    ensures forall i :: 0 <= i < |entries| ==> r[i] == entries[i].View()
  {
    if entries == [] then [] else Views(entries[..|entries| - 1]) + [entries[|entries| - 1].View()]
  }

  lemma CloseReturnsIs(s: Slot)
    requires MayReturn(s)
    ensures Next(s, Step.CloseReturns) == Some(Closed(s, s.reaper.entry).(reaper := Reaper.Idle))
  {
    hide Closed;
  }

  lemma RetireForShutdownIs(s: Slot)
    requires s.shutdown.Requested?
    ensures Next(s, Step.RetireForShutdown) == Some(RetireForShutdownStep(s))
  {
    hide RetireForShutdownStep;
  }

  class ModelRuntimeSlot {
    var active: SlotEntry?
    var lastActivationVersion: int
    var pendingRetired: nat
    var started: bool
    var drained: bool
    var queue: seq<SlotEntry>
    var shutdown: Shutdown
    ghost var reaper: Reaper
    ghost var installed: seq<SlotEntry>
    ghost var owed: seq<nat>
    ghost var attempts: seq<nat>
    ghost var closed: seq<nat>
    ghost var calls: map<nat, nat>
    ghost var callCount: nat

    ghost function View(): Slot
      reads this, installed
    {
      Slot(Views(installed), if active == null then None else Some(active.index), pendingRetired, started, drained,
           owed, Indices(queue), attempts, closed, calls, callCount, reaper, shutdown)
    }

    static ghost function Indices(entries: seq<SlotEntry>): (r: seq<nat>)
      ensures |r| == |entries|
      ensures forall i :: 0 <= i < |entries| ==> r[i] == entries[i].index
    {
      seq(|entries|, i requires 0 <= i < |entries| => entries[i].index)
    }

    /** Entries are known by their index, and the newest carries the last version. */
    ghost predicate Linked()
      reads this, installed
    {
      && (forall i :: 0 <= i < |installed| ==> installed[i].index == i)
      && (active != null ==> active in installed)
      && (forall e :: e in queue ==> e in installed)
      && lastActivationVersion == (if installed == [] then -1 else installed[|installed| - 1].version)
    }

    ghost predicate Valid()
      reads this, installed
    {
      Linked() && Inv(View())
    }

    constructor ()
      ensures Valid() && View() == INITIAL
    {
      active, lastActivationVersion, pendingRetired, started, drained := null, -1, 0, false, false;
      queue, reaper, shutdown := [], Absent, NotRequested;
      installed, owed, attempts, closed, calls, callCount := [], [], [], [], map[], 0;
      new;
      assert Pending(INITIAL) == {};
    }

    /** _capture; null is ModelRuntimeUnavailableError.  The number names the call in the ghost record. */
    method Capture() returns (entry: SlotEntry?, ghost call: nat)
      requires Valid()
      modifies this`calls, this`callCount, active
      ensures Valid() && View() == OrSame(CaptureStep(old(View())), old(View()))
      ensures entry == null <==> CaptureStep(old(View())).None?
      ensures entry != null ==> entry == active && call in calls && calls[call] == entry.index
    {
      hide Views, Indices;
      hide Inv, ActivateStep, DeactivateStep, ReleaseStep, EnqueueStep, TakeStep, ShutdownStep, Closed;
      ghost var before := View();
      call := callCount;
      if active == null || !shutdown.NotRequested? {
        entry := null;
      } else {
        entry := active;
        entry.inFlight := entry.inFlight + 1;
        calls := calls[callCount := entry.index];
        callCount := callCount + 1;
      }
      assert active != null ==> installed[active.index] == active;
      assert View().entries == OrSame(CaptureStep(before), before).entries;
      assert Some(View()) == Next(before, Step.Capture);
      NextKeeps(before, Step.Capture);
    }

    /** _release_from_sync and _release_from_async, under the lock. */
    method Release(entry: SlotEntry, ghost call: nat) returns (retired: SlotEntry?)
      requires Valid() && call in calls && entry in installed && calls[call] == entry.index && entry.inFlight > 0
      modifies this`calls, this`owed, entry`inFlight
      ensures Valid() && Some(View()) == ReleaseStep(old(View()), call)
      ensures retired == (if entry.retired && entry.inFlight == 0 then entry else null)
    {
      hide Views, Indices;
      hide Inv, ReleaseStep, ActivateStep, DeactivateStep, CaptureStep, EnqueueStep, TakeStep, ShutdownStep, Closed;
      ghost var before := View();
      retired := ReleaseLocked(entry, call);
      NextKeeps(before, Step.Release(call));
    }

    /** _release_locked: the entry to hand to the event loop, if this was the last call of a retired one. */
    method ReleaseLocked(entry: SlotEntry, ghost call: nat) returns (retired: SlotEntry?)
      requires Linked() && call in calls && entry in installed && calls[call] == entry.index && entry.inFlight > 0
      modifies this`calls, this`owed, entry`inFlight
      ensures Linked() && Some(View()) == ReleaseStep(old(View()), call)
      ensures retired == (if entry.retired && entry.inFlight == 0 then entry else null)
    {
      hide Views, Indices;
      ghost var before := View();
      assert installed[entry.index] == entry;
      entry.inFlight := entry.inFlight - 1;
      calls := calls - {call};
      retired := null;
      if entry.retired && entry.inFlight == 0 {
        retired := entry;
        owed := owed + [entry.index];
      }
      assert View().entries == ReleaseStep(before, call).value.entries;
    }

    /** _retire_locked on the active entry, which is left inactive. */
    method RetireActiveLocked() returns (due: SlotEntry?)
      requires Linked()
      requires active != null ==> !active.retired
      modifies this`active, this`pendingRetired, this`owed, active
      ensures Linked() && active == null && View() == RetireActive(old(View()))
      ensures due == (if old(active) != null && old(active).inFlight == 0 then old(active) else null)
    {
      hide Views, Indices;
      ghost var before := View();
      due := null;
      var entry := active;
      if entry != null {
        assert installed[entry.index] == entry;
        entry.retired := true;
        pendingRetired := pendingRetired + 1;
        if entry.inFlight == 0 {
          due := entry;
          owed := owed + [entry.index];
        }
        active := null;
        assert View().entries == RetireActive(before).entries;
      }
    }

    /** activate; false is ModelRuntimeActivationError. */
    method Activate(version: nat) returns (ok: bool, due: SlotEntry?)
      requires Valid()
      modifies this, active
      ensures Valid() && View() == OrSame(ActivateStep(old(View()), version), old(View()))
      ensures ok == ActivateStep(old(View()), version).Some?
      ensures ok ==> active != null && fresh(active) && active.version == version
    {
      hide Views, Indices;
      hide Inv, RetireActive, DeactivateStep, CaptureStep, ReleaseStep, EnqueueStep, TakeStep, ShutdownStep, Closed;
      ghost var before := View();
      due := null;
      ok := started && shutdown.NotRequested? && version > lastActivationVersion;
      if ok {
        ActiveNotRetired(before);
        due := RetireActiveLocked();
        AddEntry(version);
      }
      assert Some(View()) == Next(before, Step.Activate(version));
      NextKeeps(before, Step.Activate(version));
    }

    method AddEntry(version: nat)
      requires Linked() && active == null
      modifies this`active, this`lastActivationVersion, this`installed, this`attempts, this`closed
      ensures Linked() && View() == Install(old(View()), version)
      ensures active != null && fresh(active) && active.version == version
    {
      hide Views, Indices;
      ghost var before := View();
      var entry := new SlotEntry(|installed|, version);
      installed := installed + [entry];
      attempts, closed := attempts + [0], closed + [0];
      active := entry;
      lastActivationVersion := version;
      assert View().entries == Install(before, version).entries;
    }

    /** deactivate. */
    method Deactivate() returns (due: SlotEntry?)
      requires Valid()
      modifies this, active
      ensures Valid() && View() == DeactivateStep(old(View()))
    {
      hide Views, Indices;
      hide Inv, RetireActive;
      ghost var before := View();
      due := null;
      if shutdown.NotRequested? {
        ActiveNotRetired(before);
        due := RetireActiveLocked();
      }
      NextKeeps(before, Step.Deactivate);
    }

    /** _enqueue_retired, for the entry at a position among those owed. */
    method EnqueueRetired(entry: SlotEntry, ghost position: nat)
      requires Valid() && position < |owed| && owed[position] == entry.index && entry in installed
      modifies this`owed, this`queue, this`drained
      ensures Valid() && Some(View()) == EnqueueStep(old(View()), position)
    {
      hide Views, Indices;
      hide Inv, ActivateStep, DeactivateStep, CaptureStep, ReleaseStep, TakeStep, ShutdownStep, Closed;
      ghost var before := View();
      owed := owed[..position] + owed[position + 1..];
      drained := false;
      queue := queue + [entry];
      assert Indices(queue) == before.queue + [entry.index];
      NextKeeps(before, Step.Enqueue(position));
    }

    /** The reaper takes the next entry and begins its close. */
    method TakeRetired() returns (entry: SlotEntry)
      requires Valid() && reaper.Idle? && queue != []
      modifies this`queue, this`reaper, this`attempts
      ensures Valid() && Some(View()) == TakeStep(old(View()))
      ensures entry == old(queue)[0] && reaper == Closing(entry.index)
    {
      hide Views, Indices;
      hide Inv, ActivateStep, DeactivateStep, CaptureStep, ReleaseStep, EnqueueStep, ShutdownStep, Closed;
      ghost var before := View();
      QueuedIsKnown(before);
      entry := queue[0];
      queue := queue[1..];
      reaper := Closing(entry.index);
      attempts := attempts[entry.index := attempts[entry.index] + 1];
      assert Indices(queue) == before.queue[1..];
      NextKeeps(before, Step.ReaperTakes);
    }

    /** The close came back; the event is set when nothing is pending any more. */
    method FinishClose() returns (isDrained: bool)
      requires Valid() && reaper.Closing?
      modifies this`pendingRetired, this`drained, this`reaper, this`closed
      ensures Valid() && Some(View()) == Next(old(View()), Step.CloseReturns)
      ensures isDrained == (pendingRetired == 0)
    {
      hide Views, Indices;
      hide Inv, Next;
      ghost var before := View();
      ClosingReturns(before);
      CloseReturnsIs(before);
      pendingRetired := pendingRetired - 1;
      isDrained := pendingRetired == 0;
      if isDrained {
        drained := true;
      }
      closed := closed[reaper.entry := closed[reaper.entry] + 1];
      reaper := Reaper.Idle;
      NextKeeps(before, Step.CloseReturns);
    }

    /** The first region of _shutdown_once. */
    method RetireForShutdown() returns (due: SlotEntry?, pending: bool)
      requires Valid() && shutdown.Requested?
      modifies this, active
      ensures Valid() && View() == RetireForShutdownStep(old(View()))
      ensures pending == (pendingRetired > 0)
    {
      hide Views, Indices;
      hide Inv, RetireActive, Next;
      ghost var before := View();
      ActiveNotRetired(before);
      RetireForShutdownIs(before);
      due := RetireActiveLocked();
      pending := pendingRetired > 0;
      if pending {
        drained := false;
      }
      shutdown := Draining(pending);
      assert View() == RetireForShutdownStep(before);
      NextKeeps(before, Step.RetireForShutdown);
    }
  }
}
