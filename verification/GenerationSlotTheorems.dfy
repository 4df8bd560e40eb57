/** Lease safety, reservations and wakeups of the generation slot, over every interleaving of its steps. */
module GenerationSlotTheorems {
  import opened Common
  import opened GenerationSlot

  // ---------------------------------------------------------------------------
  // The invariant

  ghost function HeldOn(leases: map<nat, nat>, number: nat): set<nat> {
    set l | l in leases && leases[l] == number
  }

  ghost predicate CountsLeases(e: Entry, leases: map<nat, nat>) {
    e.references == |HeldOn(leases, e.number)|
  }

  ghost predicate LeasesInv(s: Slot) {
    && CountsLeases(s.current, s.leases)
    && (s.retired.Some? ==> CountsLeases(s.retired.value, s.leases) && s.retired.value.number + 1 == s.current.number)
    && (forall l :: l in s.leases ==> l < s.leaseCount)
    && (forall l :: l in s.leases ==>
          s.leases[l] == s.current.number || (s.retired.Some? && s.leases[l] == s.retired.value.number))
  }

  ghost predicate TokensInv(s: Slot) {
    && (s.reservation.Some? ==> s.retired.None? && s.reservation.value < s.tokenCount && s.reservation.value !in s.doneTokens)
    && (forall t :: t in s.doneTokens ==> t < s.tokenCount)
  }

  ghost predicate ReaperInv(s: Slot) {
    && !s.current.reaping
    && (s.wake.reaper.Cleaning? <==> s.retired.Some? && s.retired.value.reaping)
    && (s.retired.Some? && s.retired.value.reaping ==> s.retired.value.references == 0)
    && (forall n :: n in s.removed ==> n < s.current.number && (s.retired.Some? ==> n != s.retired.value.number))
    && (s.reapWaiters > 0 ==> s.retired.Some?)
    && (s.leaseWaiters > 0 ==> !LeasesDrained(s))
  }

  predicate WakeupPending(w: Wake) {
    w.isSet || w.scheduled > 0 || w.owed > 0
  }

  ghost predicate WakeInv(s: Slot) {
    && (s.wake.looping <==> !s.wake.reaper.NoTask?)
    && (s.wake.reaper.Waiting? && (Reapable(s) || s.wake.closing) ==> WakeupPending(s.wake))
  }

  ghost predicate Inv(s: Slot) {
    (LeasesInv(s) && TokensInv(s) && ReaperInv(s) && WakeInv(s)) == true
  }

  // ---------------------------------------------------------------------------
  // Every step keeps it

  lemma AddsLease(leases: map<nat, nat>, l: nat, number: nat)
    requires l !in leases
    ensures |HeldOn(leases[l := number], number)| == |HeldOn(leases, number)| + 1
    ensures forall n :: n != number ==> HeldOn(leases[l := number], n) == HeldOn(leases, n)
  {
    assert HeldOn(leases[l := number], number) == HeldOn(leases, number) + {l};
  }

  lemma DropsLease(leases: map<nat, nat>, l: nat)
    requires l in leases
    ensures |HeldOn(leases - {l}, leases[l])| + 1 == |HeldOn(leases, leases[l])|
    ensures forall n :: n != leases[l] ==> HeldOn(leases - {l}, n) == HeldOn(leases, n)
  {
    assert HeldOn(leases, leases[l]) == HeldOn(leases - {l}, leases[l]) + {l};
  }

  lemma NoLeaseAhead(s: Slot)
    requires LeasesInv(s)
    ensures HeldOn(s.leases, s.current.number + 1) == {}
  {
  }

  lemma CaptureKeeps(s: Slot)
    requires Inv(s)
    ensures Inv(OrSame(CaptureStep(s), s))
  {
    hide HeldOn;
    if s.accepting {
      AddsLease(s.leases, s.leaseCount, s.current.number);
    }
  }

  lemma ReleaseKeeps(s: Slot, lease: nat)
    requires Inv(s)
    ensures Inv(ReleaseStep(s, lease))
  {
    if lease in s.leases {
      HeldLease(s, lease);
      DropsLease(s.leases, lease);
      hide HeldOn;
    }
  }

  lemma HeldLease(s: Slot, lease: nat)
    requires LeasesInv(s) && lease in s.leases
    ensures |HeldOn(s.leases, s.leases[lease])| > 0
  {
    assert lease in HeldOn(s.leases, s.leases[lease]);
  }

  lemma CommitKeeps(s: Slot, token: nat, root: Option<Uuid>)
    requires Inv(s)
    ensures Inv(OrSame(CommitStep(s, token, root), s))
  {
    NoLeaseAhead(s);
    if s.current.references == 0 {
      UnleasedCurrent(s);
    }
    hide HeldOn;
  }

  lemma UnleasedCurrent(s: Slot)
    requires LeasesInv(s) && s.current.references == 0
    ensures forall l :: l in s.leases ==> s.leases[l] != s.current.number
  {
    assert HeldOn(s.leases, s.current.number) == {};
    assert forall l :: l in s.leases && s.leases[l] == s.current.number ==> l in HeldOn(s.leases, s.current.number);
  }

  /** A retired entry without references has no lease, so it may be cleaned. */
  lemma UnleasedRetired(s: Slot)
    requires LeasesInv(s) && s.retired.Some? && s.retired.value.references == 0
    ensures forall l :: l in s.leases ==> s.leases[l] == s.current.number
  {
    assert HeldOn(s.leases, s.retired.value.number) == {};
    assert forall l :: l in s.leases && s.leases[l] == s.retired.value.number ==> l in HeldOn(s.leases, s.retired.value.number);
  }

  lemma CleanedKeeps(s: Slot)
    requires Inv(s) && s.wake.reaper.Cleaning?
    ensures Inv(CleanedStep(s))
  {
    UnleasedRetired(s);
    hide HeldOn;
  }

  lemma CheckKeeps(s: Slot)
    requires Inv(s) && s.wake.reaper.Checking?
    ensures Inv(CheckStep(s))
  {
    hide HeldOn;
  }

  lemma WakeKeeps(s: Slot, a: Step)
    requires Inv(s) && WakeStep(s, a).Some?
    ensures Inv(WakeStep(s, a).value)
  {
    hide HeldOn, CleanedStep, CheckStep;
    match a
    case CleanerReturns => CleanedKeeps(s);
    case ReaperChecks => CheckKeeps(s);
    case _ =>
  }

  lemma CallKeeps(s: Slot, a: Step)
    requires a.Reserve? || a.Cancel? || a.SetAccepting? || a.WaitReaped? || a.WaitLeases?
    requires Inv(s) && Next(s, a).Some?
    ensures Inv(Next(s, a).value)
  {
    hide HeldOn, WakeStep, CaptureStep, CommitStep, ReleaseStep;
  }

  lemma NextKeeps(s: Slot, a: Step)
    requires Inv(s) && Next(s, a).Some?
    ensures Inv(Next(s, a).value)
  {
    hide Inv, WakeStep, CaptureStep, CommitStep, ReleaseStep;
    match a
    case Capture => CaptureKeeps(s);
    case Release(lease) => ReleaseKeeps(s, lease);
    case Commit(token, root) => CommitKeeps(s, token, root);
    case Reserve | Cancel(_) | SetAccepting(_) | WaitReaped | WaitLeases => CallKeeps(s, a);
    case _ => WakeKeeps(s, a);
  }

  lemma {:induction false} RunKeeps(s: Slot, steps: seq<Step>)
    requires Inv(s) && Run(s, steps).Some?
    ensures Inv(Run(s, steps).value)
    decreases |steps|
  {
    if steps != [] {
      NextKeeps(s, steps[0]);
      hide Inv, Next;
      RunKeeps(Next(s, steps[0]).value, steps[1..]);
    }
  }

  ghost predicate Reachable(s: Slot) {
    exists root, steps :: Run(Initial(root), steps) == Some(s)
  }

  lemma InitialInv(root: Option<Uuid>)
    ensures Inv(Initial(root))
  {
    assert HeldOn(Initial(root).leases, 0) == {};
  }

  lemma TokenUnused(s: Slot)
    requires Inv(s)
    ensures s.tokenCount !in s.doneTokens
  {
  }

  lemma InvUnleasedCurrent(s: Slot)
    requires Inv(s) && s.current.references == 0
    ensures forall l :: l in s.leases ==> s.leases[l] != s.current.number
  {
    UnleasedCurrent(s);
  }

  lemma CleaningIsUnleased(s: Slot)
    requires Inv(s) && s.wake.reaper.Cleaning?
    ensures s.retired.Some? && forall l :: l in s.leases ==> s.leases[l] == s.current.number
  {
    UnleasedRetired(s);
  }

  lemma ReachableInv(s: Slot)
    requires Reachable(s)
    ensures Inv(s)
  {
    var root, steps :| Run(Initial(root), steps) == Some(s);
    InitialInv(root);
    RunKeeps(Initial(root), steps);
  }

  // ---------------------------------------------------------------------------
  // Leases

  ghost predicate LiveOn(s: Slot, lease: nat, e: Entry) {
    lease in s.leases && s.leases[lease] == e.number
  }

  /** References count the live leases exactly, and every live lease is on the current or the retired entry. */
  lemma LeaseSafety(s: Slot)
    requires Reachable(s)
    ensures s.current.references == |HeldOn(s.leases, s.current.number)|
    ensures s.retired.Some? ==> s.retired.value.references == |HeldOn(s.leases, s.retired.value.number)|
    ensures forall l :: l in s.leases ==> LiveOn(s, l, s.current) || (s.retired.Some? && LiveOn(s, l, s.retired.value))
    ensures !(s.reservation.Some? && s.retired.Some?)
  {
    ReachableInv(s);
  }

  /** The entry is being cleaned or was. */
  ghost predicate Done(s: Slot, number: nat) {
    number in s.removed || (s.wake.reaper.Cleaning? && s.retired.Some? && number == s.retired.value.number)
  }

  /** While the reaper cleans an entry, and ever after, no lease on it is live. */
  lemma CleanedNeverLeased(s: Slot, steps: seq<Step>, number: nat)
    requires Reachable(s) && Run(s, steps).Some? && Done(s, number)
    ensures forall l :: l in Run(s, steps).value.leases ==> Run(s, steps).value.leases[l] != number
    ensures Run(s, steps).value.current.number != number
  {
    ReachableInv(s);
    NoLeaseOnCleaned(s, number);
    hide Inv;
    DoneStaysDone(s, steps, number);
    NoLeaseOnCleaned(Run(s, steps).value, number);
  }

  lemma NoLeaseOnCleaned(s: Slot, number: nat)
    requires Inv(s) && Done(s, number)
    ensures forall l :: l in s.leases ==> s.leases[l] != number
    ensures s.current.number != number
  {
    if number !in s.removed {
      UnleasedRetired(s);
    }
  }

  lemma {:induction false} DoneStaysDone(s: Slot, steps: seq<Step>, number: nat)
    requires Inv(s) && Done(s, number) && Run(s, steps).Some?
    ensures Inv(Run(s, steps).value) && Done(Run(s, steps).value, number)
    decreases |steps|
  {
    if steps != [] {
      DoneNext(s, steps[0], number);
      NextKeeps(s, steps[0]);
      hide Inv, Next, Done;
      DoneStaysDone(Next(s, steps[0]).value, steps[1..], number);
    }
  }

  lemma DoneNext(s: Slot, a: Step, number: nat)
    requires Inv(s) && Done(s, number) && Next(s, a).Some?
    ensures Done(Next(s, a).value, number)
  {
    hide HeldOn;
  }

  // ---------------------------------------------------------------------------
  // Reservations

  /** A reservation that is still held can always be committed, whatever happened since. */
  lemma HeldReservationCommits(s: Slot, token: nat, root: Option<Uuid>)
    requires Reachable(s) && s.reservation == Some(token)
    ensures CommitStep(s, token, root).Some?
    ensures var t := CommitStep(s, token, root).value;
            t.current.root == root && t.current.references == 0 && t.reservation.None?
            && (t.retired.Some? <==> s.current.references > 0 || s.current.root.Some?)
            && (t.retired.Some? ==> t.retired.value == s.current)
            && t.leases == s.leases
  {
    ReachableInv(s);
  }

  ghost predicate Spends(s: Slot, a: Step, token: nat) {
    (a.Commit? && a.token == token && CommitStep(s, token, a.root).Some?) || (a.Cancel? && a.token == token)
  }

  /** A reservation ends once: after its commit or cancellation it never commits again. */
  lemma ReservationEndsOnce(s: Slot, a: Step, token: nat, steps: seq<Step>, root: Option<Uuid>)
    requires Spends(s, a, token) && Next(s, a).Some? && Run(Next(s, a).value, steps).Some?
    ensures CommitStep(Run(Next(s, a).value, steps).value, token, root).None?
    ensures CancelStep(Run(Next(s, a).value, steps).value, token) == Run(Next(s, a).value, steps).value
  {
    assert token in Next(s, a).value.doneTokens;
    hide Next;
    TokensStayDone(Next(s, a).value, steps);
  }

  lemma {:induction false} TokensStayDone(s: Slot, steps: seq<Step>)
    requires Run(s, steps).Some?
    ensures s.doneTokens <= Run(s, steps).value.doneTokens
    decreases |steps|
  {
    if steps != [] {
      TokensNext(s, steps[0]);
      hide Next;
      TokensStayDone(Next(s, steps[0]).value, steps[1..]);
    }
  }

  lemma TokensNext(s: Slot, a: Step)
    requires Next(s, a).Some?
    ensures s.doneTokens <= Next(s, a).value.doneTokens
  {
  }

  // ---------------------------------------------------------------------------
  // Wakeups

  /** Waiters wait only for something that is still to happen. */
  lemma WaitersHaveCause(s: Slot)
    requires Reachable(s)
    ensures s.leaseWaiters > 0 ==> exists l :: l in s.leases
    ensures s.reapWaiters > 0 ==> s.retired.Some?
  {
    ReachableInv(s);
    if s.leaseWaiters > 0 {
      var number := if s.current.references > 0 then s.current.number else s.retired.value.number;
      assert HeldOn(s.leases, number) != {};
      var l :| l in HeldOn(s.leases, number);
      assert l in s.leases;
    }
  }

  /** What the event loop does on its own until the reaper looks at the slot. */
  ghost function Delivery(w: Wake): seq<Step> {
    if w.reaper.Checking? then [ReaperChecks]
    else if w.isSet then [ReaperWakes, ReaperChecks]
    else if w.scheduled > 0 then [RunCallback, ReaperWakes, ReaperChecks]
    else [Notify, RunCallback, ReaperWakes, ReaperChecks]
  }

  /**
   No lost wakeup: as long as the reaper runs, a retired entry without leases is being cleaned, or the
   steps already under way make the reaper clean it, and a closing reaper with nothing to clean ends.
   */
  lemma NoLostWakeup(s: Slot)
    requires Reachable(s) && (s.wake.reaper.Waiting? || s.wake.reaper.Checking?)
    ensures Reapable(s) ==> Run(s, Delivery(s.wake)).Some? && Run(s, Delivery(s.wake)).value.wake.reaper.Cleaning?
    ensures !Reapable(s) && s.wake.closing ==>
              Run(s, Delivery(s.wake)).Some? && Run(s, Delivery(s.wake)).value.wake.reaper.Ended?
  {
    ReachableInv(s);
    hide HeldOn;
    if Reapable(s) || s.wake.closing {
      Delivers(s);
    }
  }

  /** The slot once the reaper has looked at it. */
  function Picked(s: Slot): Slot {
    if Reapable(s) then s.(retired := Some(s.retired.value.(reaping := true))) else s
  }

  lemma Delivers(s: Slot)
    requires s.wake.reaper.Checking? || (s.wake.reaper.Waiting? && WakeupPending(s.wake) && s.wake.looping)
    ensures Run(s, Delivery(s.wake)).Some?
    ensures var r := Run(s, Delivery(s.wake)).value.wake.reaper;
            (Reapable(s) ==> r.Cleaning?) && (!Reapable(s) && s.wake.closing ==> r.Ended?)
    ensures Run(s, Delivery(s.wake)).value.(wake := s.wake) == Picked(s)
  {
    var w := s.wake;
    if w.reaper.Checking? {
      RunOne(s, ReaperChecks, []);
    } else if w.isSet {
      DeliversSet(s);
    } else if w.scheduled > 0 {
      RunOne(s, RunCallback, [ReaperWakes, ReaperChecks]);
      DeliversSet(Next(s, RunCallback).value);
    } else {
      RunOne(s, Notify, [RunCallback, ReaperWakes, ReaperChecks]);
      var t := Next(s, Notify).value;
      RunOne(t, RunCallback, [ReaperWakes, ReaperChecks]);
      DeliversSet(Next(t, RunCallback).value);
    }
  }

  lemma DeliversSet(s: Slot)
    requires s.wake.reaper.Waiting? && s.wake.isSet
    ensures Run(s, [ReaperWakes, ReaperChecks]).Some?
    ensures var r := Run(s, [ReaperWakes, ReaperChecks]).value.wake.reaper;
            (Reapable(s) ==> r.Cleaning?) && (!Reapable(s) && s.wake.closing ==> r.Ended?)
    ensures Run(s, [ReaperWakes, ReaperChecks]).value.(wake := s.wake) == Picked(s)
  {
    RunOne(s, ReaperWakes, [ReaperChecks]);
    RunOne(Next(s, ReaperWakes).value, ReaperChecks, []);
  }

  lemma RunOne(s: Slot, a: Step, rest: seq<Step>)
    requires Next(s, a).Some?
    ensures Run(s, [a] + rest) == Run(Next(s, a).value, rest)
  {
    hide Next;
    assert ([a] + rest)[1..] == rest;
  }

  lemma {:induction false} RunJoins(s: Slot, xs: seq<Step>, ys: seq<Step>)
    requires Run(s, xs).Some?
    ensures Run(s, xs + ys) == Run(Run(s, xs).value, ys)
    decreases |xs|
  {
    hide Next;
    if xs == [] {
      assert xs + ys == ys;
    } else {
      assert (xs + ys)[1..] == xs[1..] + ys;
      RunJoins(Next(s, xs[0]).value, xs[1..], ys);
    }
  }

  /** Those steps and the end of the cleaning remove the entry and wake whoever waits for it. */
  lemma RetiredGetsCleaned(s: Slot)
    requires Reachable(s) && (s.wake.reaper.Waiting? || s.wake.reaper.Checking?) && Reapable(s)
    ensures
      var t := Run(s, Delivery(s.wake) + [CleanerReturns]);
      && t.Some? && t.value.retired.None? && t.value.reapWaiters == 0 && t.value.wake.reaper.Checking?
      && t.value.removed == s.removed + {s.retired.value.number}
      && t.value.current == s.current && t.value.leases == s.leases
  {
    ReachableInv(s);
    hide HeldOn, Reachable;
    Delivers(s);
    RunJoins(s, Delivery(s.wake), [CleanerReturns]);
    RunOne(Run(s, Delivery(s.wake)).value, CleanerReturns, []);
    assert [CleanerReturns] + [] == [CleanerReturns];
  }

  /** A close with nothing left to clean completes, and leaves the slot itself alone. */
  lemma CloseCompletes(s: Slot)
    requires Reachable(s) && (s.wake.reaper.Waiting? || s.wake.reaper.Checking?) && !Reapable(s) && s.wake.closing
    ensures
      var t := Run(s, Delivery(s.wake) + [FinishClose]);
      && t.Some? && t.value.wake.reaper.NoTask? && !t.value.wake.looping && t.value.(wake := s.wake) == s
  {
    ReachableInv(s);
    hide HeldOn, Reachable;
    Delivers(s);
    RunJoins(s, Delivery(s.wake), [FinishClose]);
    RunOne(Run(s, Delivery(s.wake)).value, FinishClose, []);
    assert [FinishClose] + [] == [FinishClose];
  }

  /** A reaper woken with nothing to do waits again, with the event cleared. */
  lemma ReaperSettles(s: Slot)
    requires s.wake.reaper.Waiting? && s.wake.isSet && !Reapable(s) && !s.wake.closing
    ensures Run(s, [ReaperWakes, ReaperChecks]) == Some(s.(wake := s.wake.(isSet := false)))
  {
    RunOne(s, ReaperWakes, [ReaperChecks]);
    RunOne(Next(s, ReaperWakes).value, ReaperChecks, []);
  }
}
