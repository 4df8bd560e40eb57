/**
 The generation slot as the object it is: entries, leases and reservations are objects compared by
 identity, and each method is one region under the slot's lock, proved against its step function.
 */
module GenerationSlotObject {
  import opened Common
  import opened GenerationSlot
  import opened GenerationSlotTheorems

  class GenerationEntry {
    const number: nat
    const root: Option<Uuid>
    var references: nat
    var reaping: bool

    constructor (number: nat, root: Option<Uuid>)
      ensures this.number == number && this.root == root && references == 0 && !reaping
    {
      this.number := number;
      this.root := root;
      references := 0;
      reaping := false;
    }

    function View(): Entry
      reads this
    {
      Entry(number, root, references, reaping)
    }
  }

  class GenerationLease {
    const id: nat
    const entry: GenerationEntry
    var released: bool

    constructor (id: nat, entry: GenerationEntry)
      ensures this.id == id && this.entry == entry && !released
    {
      this.id := id;
      this.entry := entry;
      released := false;
    }
  }

  class GenerationReservation {
    const token: nat
    var done: bool

    constructor (token: nat)
      ensures this.token == token && !done
    {
      this.token := token;
      done := false;
    }
  }

  class SkillGenerationSlot {
    var current: GenerationEntry
    var retired: GenerationEntry?
    var reservation: Option<nat>
    var accepting: bool
    var reapWaiters: nat
    var leaseWaiters: nat
    var wake: Wake
    var leaseCount: nat
    var tokenCount: nat
    ghost var leases: map<nat, nat>
    ghost var doneTokens: set<nat>
    ghost var removed: set<nat>
    ghost var issued: set<GenerationLease>
    ghost var handed: set<GenerationReservation>

    ghost predicate HoldsLease(lease: GenerationLease)
      reads this, current, retired, lease
    {
      && lease.id < leaseCount
      && (lease.released ==> lease.id !in leases)
      && (!lease.released ==>
            lease.id in leases && leases[lease.id] == lease.entry.number
            && (lease.entry == current || lease.entry == retired))
    }

    /** Every lease and reservation handed out is known, and live leases point to an entry in place. */
    ghost predicate Linked()
      reads this, current, retired, issued, handed
    {
      && (retired != null ==> retired != current && retired.number + 1 == current.number)
      && (forall l :: l in issued ==> HoldsLease(l))
      && (forall l, m :: l in issued && m in issued && l.id == m.id ==> l == m)
      && (forall r :: r in handed ==> r.token < tokenCount && (r.done <==> r.token in doneTokens))
      && (forall q, r :: q in handed && r in handed && q.token == r.token ==> q == r)
    }

    ghost predicate Valid()
      reads this, current, retired, issued, handed
    {
      Linked() && Inv(View())
    }

    ghost function View(): Slot
      reads this, current, retired
    {
      Slot(current.View(), if retired == null then None else Some(retired.View()), reservation, accepting,
           leases, leaseCount, doneTokens, tokenCount, reapWaiters, leaseWaiters, wake, removed)
    }

    constructor (root: Option<Uuid>)
      ensures Valid() && View() == Initial(root) && fresh(current)
    {
      current := new GenerationEntry(0, root);
      retired, reservation, accepting, wake := null, None, true, ASLEEP;
      reapWaiters, leaseWaiters, leaseCount, tokenCount := 0, 0, 0, 0;
      leases, doneTokens, removed, issued, handed := map[], {}, {}, {}, {};
      InitialInv(root);
    }

    method Capture() returns (lease: GenerationLease?)
      requires Valid()
      modifies this, current
      ensures Valid()
      ensures View() == OrSame(CaptureStep(old(View())), old(View()))
      ensures lease == null <==> !old(accepting)
      ensures lease != null ==> fresh(lease) && lease in issued && lease.entry == current && lease.id == old(leaseCount)
    {
      hide Inv;
      ghost var before := View();
      lease := null;
      if accepting {
        current.references := current.references + 1;
        lease := new GenerationLease(leaseCount, current);
        leases := leases[leaseCount := current.number];
        leaseCount := leaseCount + 1;
        issued := issued + {lease};
      }
      assert Some(View()) == Next(before, Step.Capture);
      NextKeeps(before, Step.Capture);
    }

    method Release(lease: GenerationLease)
      requires Valid() && lease in issued
      modifies this, current, retired, lease
      ensures Valid() && lease.released
      ensures View() == ReleaseStep(old(View()), lease.id)
    {
      hide Inv;
      ghost var before := View();
      if !lease.released {
        lease.released := true;
        leases := leases - {lease.id};
        ReleaseReference(lease.entry);
      }
      assert Some(View()) == Next(before, Step.Release(lease.id));
      NextKeeps(before, Step.Release(lease.id));
    }

    /** The slot's own part of a release. */
    method ReleaseReference(entry: GenerationEntry)
      requires entry == current || entry == retired
      requires retired != null ==> retired != current && retired.number + 1 == current.number
      modifies this`leaseWaiters, this`wake, entry`references
      ensures View() == ReleasedFrom(old(View()), entry.number)
    {
      if entry.references > 0 {
        entry.references := entry.references - 1;
        if current.references == 0 && (retired == null || retired.references == 0) {
          leaseWaiters := 0;
        }
        if retired == entry && entry.references == 0 {
          wake := Owe(wake);
        }
      }
    }

    method ReserveReplacement() returns (r: GenerationReservation?)
      requires Valid()
      modifies this
      ensures Valid()
      ensures View() == OrSame(ReserveStep(old(View())), old(View()))
      ensures r == null <==> ReserveStep(old(View())).None?
      ensures r != null ==> fresh(r) && r in handed && reservation == Some(r.token)
    {
      hide Inv;
      ghost var before := View();
      r := null;
      if reservation.None? && retired == null {
        r := new GenerationReservation(tokenCount);
        TokenUnused(View());
        reservation := Some(tokenCount);
        tokenCount := tokenCount + 1;
        handed := handed + {r};
      }
      assert Some(View()) == Next(before, Reserve);
      NextKeeps(before, Reserve);
    }

    /** GenerationReservation.commit; false is GenerationCapacityError. */
    method Commit(r: GenerationReservation, root: Option<Uuid>) returns (ok: bool)
      requires Valid() && r in handed
      modifies this, r
      ensures Valid()
      ensures View() == OrSame(CommitStep(old(View()), r.token, root), old(View()))
      ensures ok == CommitStep(old(View()), r.token, root).Some?
      ensures ok ==> r.done && fresh(current)
    {
      hide Inv, Replace;
      ghost var before := View();
      ok := !r.done && reservation == Some(r.token) && retired == null;
      if ok {
        ReplaceCurrent(root);
        r.done := true;
        doneTokens := doneTokens + {r.token};
      }
      assert Some(View()) == Next(before, Step.Commit(r.token, root));
      NextKeeps(before, Step.Commit(r.token, root));
    }

    /** The slot's own part of a commit. */
    method ReplaceCurrent(root: Option<Uuid>)
      requires Valid() && retired == null
      modifies this`current, this`retired, this`reservation, this`wake
      ensures fresh(current) && View() == Replace(old(View()), root)
      ensures Linked()
    {
      hide Inv;
      ghost var before := View();
      var replaced := current;
      var kept := replaced.references > 0 || replaced.root.Some?;
      LiveLeasesKeep(kept);
      current := new GenerationEntry(replaced.number + 1, root);
      reservation := None;
      if kept {
        retired := replaced;
        if replaced.references == 0 {
          wake := Owe(wake);
        }
      }
    }

    /** A current entry dropped without retiring has no live lease. */
    lemma LiveLeasesKeep(kept: bool)
      requires Valid() && retired == null
      requires kept <==> current.references > 0 || current.root.Some?
      ensures forall l :: l in issued && !l.released ==> kept && l.entry == current
    {
      if current.references == 0 {
        InvUnleasedCurrent(View());
      }
      hide Inv;
    }

    /** GenerationReservation.cancel. */
    method CancelReservation(r: GenerationReservation)
      requires Valid() && r in handed
      modifies this`reservation, this`doneTokens, r
      ensures Valid() && r.done
      ensures View() == CancelStep(old(View()), r.token)
    {
      hide Inv;
      ghost var before := View();
      if !r.done {
        if reservation == Some(r.token) {
          reservation := None;
        }
        r.done := true;
        doneTokens := doneTokens + {r.token};
      }
      assert Some(View()) == Next(before, Cancel(r.token));
      NextKeeps(before, Cancel(r.token));
    }

    method SetAcceptingRuns(value: bool)
      requires Valid()
      modifies this`accepting
      ensures Valid() && View() == old(View()).(accepting := value)
    {
      hide Inv;
      ghost var before := View();
      accepting := value;
      assert Some(View()) == Next(before, SetAccepting(value));
      NextKeeps(before, SetAccepting(value));
    }

    /** The region of one round of wait_reaped; false when a waiter was left behind. */
    method WaitReaped() returns (done: bool)
      requires Valid()
      modifies this`reapWaiters
      ensures Valid() && Some(View()) == Next(old(View()), Step.WaitReaped)
      ensures done == View().retired.None?
    {
      hide Inv;
      ghost var before := View();
      done := retired == null;
      if !done {
        reapWaiters := reapWaiters + 1;
      }
      assert Some(View()) == Next(before, Step.WaitReaped);
      NextKeeps(before, Step.WaitReaped);
    }

    /** The region of one round of wait_leases_drained. */
    method WaitLeasesDrained() returns (done: bool)
      requires Valid()
      modifies this`leaseWaiters
      ensures Valid() && Some(View()) == Next(old(View()), WaitLeases)
      ensures done == LeasesDrained(old(View()))
    {
      hide Inv;
      ghost var before := View();
      done := current.references == 0 && (retired == null || retired.references == 0);
      if !done {
        leaseWaiters := leaseWaiters + 1;
      }
      assert Some(View()) == Next(before, WaitLeases);
      NextKeeps(before, WaitLeases);
    }

    /** The reaper's look at the slot; the entry to clean, if any. */
    method ReaperChecks() returns (candidate: GenerationEntry?)
      requires Valid() && wake.reaper.Checking?
      modifies this`wake, retired
      ensures Valid() && View() == CheckStep(old(View()))
      ensures candidate != null <==> Reapable(old(View()))
      ensures candidate != null ==> candidate == retired
    {
      hide Inv;
      ghost var before := View();
      if retired != null && retired.references == 0 && !retired.reaping {
        retired.reaping := true;
        candidate := retired;
        wake := wake.(reaper := Cleaning);
      } else {
        candidate := null;
        wake := wake.(reaper := if wake.closing then Ended else Waiting);
      }
      assert Some(View()) == Next(before, Step.ReaperChecks);
      NextKeeps(before, Step.ReaperChecks);
    }

    /** What the reaper does once the cleaner returned or failed. */
    method CleanerReturns(candidate: GenerationEntry)
      requires Valid() && wake.reaper.Cleaning? && candidate == retired
      modifies this`retired, this`reapWaiters, this`wake, this`removed
      ensures Valid() && View() == CleanedStep(old(View()))
    {
      hide Inv;
      ghost var before := View();
      CleaningIsUnleased(before);
      removed := removed + {candidate.number};
      if retired == candidate {
        retired := null;
      }
      reapWaiters := 0;
      wake := wake.(reaper := Checking);
      assert Some(View()) == Next(before, Step.CleanerReturns);
      NextKeeps(before, Step.CleanerReturns);
    }

    /** The region of start; false is the RuntimeError of a slot already started. */
    method Start() returns (ok: bool)
      requires Valid()
      modifies this`wake
      ensures Valid() && View() == OrSame(StartStep(old(View())), old(View()))
      ensures ok == StartStep(old(View())).Some?
    {
      hide Inv;
      ghost var before := View();
      ok := wake.reaper.NoTask?;
      if ok {
        wake := Wake(Waiting, true, false, 0, wake.owed + 1, false);
        NextKeeps(before, Step.Start);
      }
    }

    /** The second region of aclose, after begin_draining; false when there is no reaper to stop. */
    method BeginClose() returns (closing: bool)
      requires Valid()
      modifies this`wake
      ensures Valid() && View() == BeginCloseStep(old(View()))
      ensures closing == !old(wake).reaper.NoTask?
    {
      hide Inv;
      ghost var before := View();
      closing := !wake.reaper.NoTask?;
      if closing {
        wake := Owe(wake).(closing := true);
      }
      NextKeeps(before, Step.BeginClose);
    }

    /** _notify_reaper, once its thread gets to it. */
    method NotifyReaper()
      requires Valid() && wake.owed > 0
      modifies this`wake
      ensures Valid() && Some(View()) == Next(old(View()), Notify)
    {
      hide Inv;
      ghost var before := View();
      wake := wake.(owed := wake.owed - 1, scheduled := if wake.looping then wake.scheduled + 1 else wake.scheduled);
      NextKeeps(before, Notify);
    }

    /** aclose up to the await of the reaper's task; no task to await is None. */
    method BeginAclose() returns (waits: bool)
      requires Valid()
      modifies this`accepting, this`wake
      ensures Valid() && waits == !old(wake).reaper.NoTask?
      ensures Some(View()) == Run(old(View()), [SetAccepting(false), Step.BeginClose] + (if waits then [Notify] else []))
    {
      hide Inv;
      ghost var before := View();
      SetAcceptingRuns(false);
      ghost var closed := View();
      waits := BeginClose();
      ghost var owing := View();
      if waits {
        NotifyReaper();
      }
      Calls(before, closed, owing, View(), waits);
    }

    /** The region of cleanup_current; null is GenerationUnavailableError. */
    method CleanupCurrent() returns (entry: GenerationEntry?)
      requires Valid()
      ensures entry == null <==> current.references > 0
      ensures entry != null ==> entry == current && forall l :: l in leases ==> leases[l] != entry.number
    {
      entry := null;
      if current.references == 0 {
        entry := current;
        InvUnleasedCurrent(View());
      }
    }
  }

  lemma Calls(s: Slot, t: Slot, u: Slot, v: Slot, notifies: bool)
    requires Next(s, SetAccepting(false)) == Some(t) && Next(t, Step.BeginClose) == Some(u)
    requires if notifies then Next(u, Notify) == Some(v) else v == u
    ensures Run(s, [SetAccepting(false), Step.BeginClose] + (if notifies then [Notify] else [])) == Some(v)
  {
    hide Next;
    var last := if notifies then [Notify] else [];
    assert Run(u, last) == Some(v) by {
      if notifies {
        assert [Notify][1..] == [];
      }
    }
    RunOne(t, Step.BeginClose, last);
    RunOne(s, SetAccepting(false), [Step.BeginClose] + last);
    assert [SetAccepting(false), Step.BeginClose] + last == [SetAccepting(false)] + ([Step.BeginClose] + last);
  }
}
