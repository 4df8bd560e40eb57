/**
 The coordinator and its slot as one state: the coordinator's steps call the slot, run responses capture
 and release leases in between, and the reaper cleans what both agree has retired.
 */
module JointRuns {
  import opened Common
  import G = GenerationSlot
  import GT = GenerationSlotTheorems
  import A = Activation
  import AI = ActivationInvariants
  import AT = ActivationTheorems
  import R = Registry
  import SR = SlotRefinement

  datatype Joint = Joint(slot: G.Slot, state: A.State)

  datatype Move =
    | Inner(call: G.Step)       // leases, waiters, the reaper's wakeups
    | Cleaned(removed: bool)    // the reaper's cleaner returns
    | Do(step: A.Step)          // anything else

  /** A slot just built by the manager, which closes it until restore is through. */
  const FRESH := G.Initial(None).(accepting := false)

  function Root(g: Option<A.Generation>): Option<Uuid> {
    if g.Some? then Some(g.value.setId) else None
  }

  /** How a step of the coordinator uses the reservation. */
  ghost function ReservationCalls(g: G.Slot, p: A.Process, q: A.Process): seq<G.Step> {
    if !p.slot.reserved && q.slot.reserved then [G.Reserve]
    else if g.reservation.None? || q.slot.reserved then []
    else if q.bookings == A.Settle(p.bookings, A.Booking.Committed)
    then [G.Commit(g.reservation.value, Root(q.slot.current))]
    else [G.Cancel(g.reservation.value)]
  }

  /** The calls of the slot behind a step of the coordinator. */
  ghost function SlotCalls(g: G.Slot, p: A.Process, q: A.Process): seq<G.Step> {
    ReservationCalls(g, p, q)
    + if q.slot.accepting != p.slot.accepting then [G.SetAccepting(q.slot.accepting)] else []
  }

  predicate OwnCall(a: G.Step) {
    a.Reserve? || a.Commit? || a.Cancel? || a.SetAccepting? || a.CleanerReturns?
  }

  /** Whether what the step says of the leases is what the slot counts. */
  predicate Truthful(g: G.Slot, a: A.Step) {
    && (a.Proceed? ==> (a.leased <==> g.current.references > 0))
    && (a.CleanupCurrent? ==> G.LeasesDrained(g))
  }

  ghost function DoStep(j: Joint, a: A.Step): Option<Joint> {
    if a.Reap? || !Truthful(j.slot, a) then None
    else match A.Next(j.state, a)
      case None => None
      case Some(t) =>
        if a.Crash? || a.Start? then Some(Joint(FRESH, t))
        else match G.Run(j.slot, SlotCalls(j.slot, j.state.proc, t.proc))
          case None => None
          case Some(g) => Some(Joint(g, t))
  }

  ghost function JointNext(j: Joint, m: Move): Option<Joint> {
    match m
    case Inner(a) =>
      if OwnCall(a) || j.state.proc.phase.Down? || G.Next(j.slot, a).None? then None
      else Some(j.(slot := G.Next(j.slot, a).value))
    case Cleaned(removed) =>
      if G.Next(j.slot, G.CleanerReturns).None? || A.Next(j.state, A.Reap(removed)).None? then None
      else Some(Joint(G.Next(j.slot, G.CleanerReturns).value, A.Next(j.state, A.Reap(removed)).value))
    case Do(a) => DoStep(j, a)
  }

  ghost function JointRun(j: Joint, ms: seq<Move>): Option<Joint>
    decreases |ms|
  {
    if ms == [] then Some(j)
    else match JointNext(j, ms[0])
      case None => None
      case Some(k) => JointRun(k, ms[1..])
  }

  const START := Joint(FRESH, A.INITIAL)

  // ---------------------------------------------------------------------------
  // Both sides agree

  ghost predicate Tied(g: G.Slot, slot: A.Slot) {
    && g.current.root == Root(slot.current)
    && (g.retired.Some? <==> slot.retired.Some?)
    && (g.retired.Some? ==> g.retired.value.root == Root(slot.retired.value))
    && (g.reservation.Some? <==> slot.reserved)
    && (g.accepting <==> slot.accepting)
  }

  /** Nothing is leased before restore is through, nor once the current generation was cleaned up. */
  ghost predicate NoLeaseUnloaded(g: G.Slot, p: A.Process) {
    !p.restored || p.cleaned != {} ==> g.leases == map[]
  }

  ghost predicate Agree(j: Joint) {
    && GT.Reachable(j.slot) && AT.Reachable(j.state)
    && Tied(j.slot, j.state.proc.slot) && NoLeaseUnloaded(j.slot, j.state.proc)
  }

  lemma FreshReachable()
    ensures GT.Reachable(FRESH)
  {
    var s := G.Initial(None);
    assert G.Run(s, []) == Some(s);
    SR.ReachableStep(s, G.SetAccepting(false));
  }

  lemma StartAgrees()
    ensures Agree(START)
  {
    hide GT.Reachable, AT.Reachable;
    FreshReachable();
    AT.InitialReachable();
  }

  lemma {:induction false} ReachableRun(s: G.Slot, steps: seq<G.Step>)
    requires GT.Reachable(s) && G.Run(s, steps).Some?
    ensures GT.Reachable(G.Run(s, steps).value)
    decreases |steps|
  {
    if steps != [] {
      SR.ReachableStep(s, steps[0]);
      hide G.Next;
      ReachableRun(G.Next(s, steps[0]).value, steps[1..]);
    }
  }

  lemma NoLeaseNoReference(g: G.Slot)
    requires GT.Reachable(g)
    ensures g.leases == map[] ==> g.current.references == 0
    ensures G.LeasesDrained(g) && g.retired.None? ==> g.leases == map[]
  {
    GT.LeaseSafety(g);
    hide GT.Reachable;
    if g.leases == map[] {
      assert GT.HeldOn(g.leases, g.current.number) == {};
    }
    if G.LeasesDrained(g) && g.retired.None? {
      assert GT.HeldOn(g.leases, g.current.number) == {};
      assert forall l :: l in g.leases ==> l in GT.HeldOn(g.leases, g.current.number);
    }
  }

  lemma InnerAgrees(j: Joint, a: G.Step)
    requires Agree(j) && JointNext(j, Inner(a)).Some?
    ensures Agree(JointNext(j, Inner(a)).value)
  {
    hide GT.Reachable, AT.Reachable;
    SR.ReachableStep(j.slot, a);
    AT.RestoredOrClosed(j.state);
    InnerKeeps(j.slot, a);
  }

  /** The slot's own steps leave what the coordinator sees, and only an open slot hands out leases. */
  lemma InnerKeeps(g: G.Slot, a: G.Step)
    requires !OwnCall(a) && G.Next(g, a).Some?
    ensures
      var h := G.Next(g, a).value;
      && h.current.root == g.current.root && h.reservation == g.reservation && h.accepting == g.accepting
      && (h.retired.Some? <==> g.retired.Some?) && (g.retired.Some? ==> h.retired.value.root == g.retired.value.root)
      && (!g.accepting && g.leases == map[] ==> h.leases == map[])
  {
  }

  /** What cleaning does to the slot, and reaping to the process. */
  lemma CleanedSides(j: Joint, removed: bool)
    requires JointNext(j, Cleaned(removed)).Some?
    ensures
      var g, p := G.Next(j.slot, G.CleanerReturns).value, A.Next(j.state, A.Reap(removed)).value.proc;
      && JointNext(j, Cleaned(removed)).value == Joint(g, A.Next(j.state, A.Reap(removed)).value)
      && g.current == j.slot.current && g.retired.None? && g.reservation == j.slot.reservation
      && g.accepting == j.slot.accepting && g.leases == j.slot.leases
      && p.slot == j.state.proc.slot.(retired := None)
      && p.restored == j.state.proc.restored && p.cleaned == j.state.proc.cleaned
  {
    hide R.Apply, A.CoordinatorStep, A.AnswerStep, A.MutationOf;
  }

  lemma CleanedAgrees(j: Joint, removed: bool)
    requires Agree(j) && JointNext(j, Cleaned(removed)).Some?
    ensures Agree(JointNext(j, Cleaned(removed)).value)
  {
    CleanedSides(j, removed);
    hide GT.Reachable, AT.Reachable, A.Next, G.Next;
    SR.ReachableStep(j.slot, G.CleanerReturns);
    AT.ReachableNext(j.state, A.Reap(removed));
  }

  lemma DoAgrees(j: Joint, a: A.Step)
    requires Agree(j) && DoStep(j, a).Some?
    ensures Agree(DoStep(j, a).value)
  {
    hide GT.Reachable, AT.Reachable, A.Next;
    var t := A.Next(j.state, a).value;
    AT.ReachableNext(j.state, a);
    if a.Crash? || a.Start? {
      FreshReachable();
      RestartAgrees(j, a);
    } else {
      var calls := SlotCalls(j.slot, j.state.proc, t.proc);
      hide SlotCalls;
      ReachableRun(j.slot, calls);
      AT.SlotFollows(j.state, a);
      NoLeaseNoReference(j.slot);
      CallsAgree(j.slot, j.state.proc, a, t.proc);
      LoadedLater(j, a);
    }
  }

  lemma RestartAgrees(j: Joint, a: A.Step)
    requires (a.Crash? || a.Start?) && A.Next(j.state, a).Some?
    ensures
      var p := A.Next(j.state, a).value.proc;
      Tied(FRESH, p.slot) && NoLeaseUnloaded(FRESH, p)
  {
  }

  /** What the coordinator does to its slot is what the calls do to the real one. */
  lemma CallsAgree(g: G.Slot, p: A.Process, a: A.Step, q: A.Process)
    requires GT.Reachable(g) && Tied(g, p.slot) && Truthful(g, a) && AT.SlotMoves(p, a, q)
    requires p.slot.reserved ==> p.bookings != []
    requires p.phase.RestorePreparing? ==> g.current.references == 0
    ensures G.Run(g, SlotCalls(g, p, q)).Some?
    ensures Tied(G.Run(g, SlotCalls(g, p, q)).value, q.slot)
    ensures G.Run(g, SlotCalls(g, p, q)).value.leases == g.leases
  {
    GT.ReachableInv(g);
    hide GT.Reachable, SlotCalls;
    var h := Reserved(g, p, a, q);
    hide AT.SlotMoves, Truthful, ReservationCalls;
    CallsRun(g, h, p, q);
  }

  /** The slot after the call that uses the reservation, before admission changes. */
  lemma Reserved(g: G.Slot, p: A.Process, a: A.Step, q: A.Process) returns (h: G.Slot)
    requires GT.Inv(g) && Tied(g, p.slot) && Truthful(g, a) && AT.SlotMoves(p, a, q)
    requires p.slot.reserved ==> p.bookings != []
    requires p.phase.RestorePreparing? ==> g.current.references == 0
    ensures
      var calls := ReservationCalls(g, p, q);
      Some(h) == if calls == [] then Some(g) else G.Next(g, calls[0])
    ensures Tied(h, q.slot.(accepting := p.slot.accepting)) && h.leases == g.leases
  {
    hide GT.LeasesInv, GT.ReaperInv, GT.WakeInv;
    if p.bookings != [] {
      var n := |p.bookings| - 1;
      assert A.Settle(p.bookings, A.Booking.Cancelled)[n] != A.Settle(p.bookings, A.Booking.Committed)[n];
    }
    var calls := ReservationCalls(g, p, q);
    h := if calls == [] then g else G.Next(g, calls[0]).value;
  }

  lemma CallsRun(g: G.Slot, h: G.Slot, p: A.Process, q: A.Process)
    requires var calls := ReservationCalls(g, p, q); Some(h) == if calls == [] then Some(g) else G.Next(g, calls[0])
    requires h.accepting == p.slot.accepting
    ensures G.Run(g, SlotCalls(g, p, q)) == Some(h.(accepting := q.slot.accepting))
  {
    hide G.Next;
    var calls := ReservationCalls(g, p, q);
    assert G.Run(g, calls) == Some(h) by {
      assert calls != [] ==> calls[1..] == [];
    }
    if q.slot.accepting != p.slot.accepting {
      SR.RunAppend(g, calls, G.SetAccepting(q.slot.accepting));
      assert G.Next(h, G.SetAccepting(q.slot.accepting)) == Some(h.(accepting := q.slot.accepting)) by { Gates(h, q.slot.accepting); }
    } else {
      assert SlotCalls(g, p, q) == calls;
    }
  }

  lemma Gates(h: G.Slot, value: bool)
    ensures G.Next(h, G.SetAccepting(value)) == Some(h.(accepting := value))
  {
  }

  lemma LoadedLater(j: Joint, a: A.Step)
    requires Agree(j) && Truthful(j.slot, a) && A.Next(j.state, a).Some? && !a.Crash? && !a.Start? && !a.Reap?
    requires G.LeasesDrained(j.slot) && j.slot.retired.None? ==> j.slot.leases == map[]
    ensures NoLeaseUnloaded(j.slot, A.Next(j.state, a).value.proc)
  {
    hide AT.Reachable, GT.Reachable, AT.SlotMoves;
    AT.SlotFollows(j.state, a);
    if a.CleanupCurrent? {
      NothingRetired(j.state, a);
    }
    hide A.Next;
  }

  lemma NothingRetired(s: A.State, a: A.Step)
    requires a.CleanupCurrent? && A.Next(s, a).Some?
    ensures s.proc.slot.retired.None?
  {
  }

  lemma NextAgrees(j: Joint, m: Move)
    requires Agree(j) && JointNext(j, m).Some?
    ensures Agree(JointNext(j, m).value)
  {
    hide Agree, DoStep;
    match m
    case Inner(a) => InnerAgrees(j, a);
    case Cleaned(removed) => CleanedAgrees(j, removed);
    case Do(a) => DoAgrees(j, a);
  }

  /** In every run of both, each shows what the other does. */
  lemma {:induction false} RunAgrees(j: Joint, ms: seq<Move>)
    requires Agree(j) && JointRun(j, ms).Some?
    ensures Agree(JointRun(j, ms).value)
    decreases |ms|
  {
    if ms != [] {
      hide Agree, JointNext;
      NextAgrees(j, ms[0]);
      RunAgrees(JointNext(j, ms[0]).value, ms[1..]);
    }
  }

  /**
   The slot never refuses what the coordinator asks of it: in every run of both, a step the coordinator can
   take with the lease count as it is goes through, whatever the slot does of its own while the process lives
   happens in it, and once the cleaner is done both sides let the entry go.
   */
  lemma NeverRefused(ms: seq<Move>, a: A.Step, b: G.Step, removed: bool)
    requires JointRun(START, ms).Some?
    ensures
      var j := JointRun(START, ms).value;
      && (!a.Reap? && Truthful(j.slot, a) && A.Next(j.state, a).Some? ==>
            JointNext(j, Do(a)).Some? && JointNext(j, Do(a)).value.state == A.Next(j.state, a).value)
      && (!OwnCall(b) && !j.state.proc.phase.Down? && G.Next(j.slot, b).Some? ==>
            JointNext(j, Inner(b)) == Some(Joint(G.Next(j.slot, b).value, j.state)))
      && (G.Next(j.slot, G.CleanerReturns).Some? ==> JointNext(j, Cleaned(removed)).Some?)
  {
    hide JointRun, A.Next, G.Next, DoStep, Agree, Truthful;
    StartAgrees();
    RunAgrees(START, ms);
    var j := JointRun(START, ms).value;
    if !a.Reap? && Truthful(j.slot, a) && A.Next(j.state, a).Some? {
      DoGoes(j, a);
    }
    if G.Next(j.slot, G.CleanerReturns).Some? {
      CleanedGoes(j, removed);
    }
  }

  lemma DoGoes(j: Joint, a: A.Step)
    requires Agree(j) && !a.Reap? && Truthful(j.slot, a) && A.Next(j.state, a).Some?
    ensures DoStep(j, a).Some? && DoStep(j, a).value.state == A.Next(j.state, a).value
  {
    hide GT.Reachable, AT.Reachable, A.Next, SlotCalls;
    if !a.Crash? && !a.Start? {
      AT.SlotFollows(j.state, a);
      NoLeaseNoReference(j.slot);
      CallsAgree(j.slot, j.state.proc, a, A.Next(j.state, a).value.proc);
    }
  }

  lemma CleanedGoes(j: Joint, removed: bool)
    requires Agree(j) && G.Next(j.slot, G.CleanerReturns).Some?
    ensures JointNext(j, Cleaned(removed)).Some?
  {
    GT.ReachableInv(j.slot);
    hide GT.Reachable, AT.Reachable, R.Apply, A.CoordinatorStep, A.AnswerStep;
  }

  // ---------------------------------------------------------------------------
  // Leases and directories

  /** The generation a live lease was captured on. */
  ghost function LeasedRoot(g: G.Slot, lease: nat): Option<Uuid>
    requires lease in g.leases
  {
    if g.leases[lease] == g.current.number then g.current.root
    else if g.retired.Some? then g.retired.value.root
    else None
  }

  /**
   Every live lease is on the generation the coordinator loaded or on the one before it, and its directory
   is there; so no run ever works in a directory that was removed.
   */
  lemma LeasedDirectoryPresent(ms: seq<Move>, lease: nat)
    requires JointRun(START, ms).Some? && lease in JointRun(START, ms).value.slot.leases
    ensures
      var g, p := JointRun(START, ms).value.slot, JointRun(START, ms).value.state.proc;
      && (g.leases[lease] == g.current.number || (g.retired.Some? && g.leases[lease] == g.retired.value.number))
      && (LeasedRoot(g, lease) == Root(p.slot.current)
          || (p.slot.retired.Some? && LeasedRoot(g, lease) == Root(p.slot.retired.value)))
      && (LeasedRoot(g, lease).Some? ==> LeasedRoot(g, lease).value in p.directories)
  {
    StartAgrees();
    RunAgrees(START, ms);
    hide JointRun, A.Next, GT.Reachable, AT.Reachable;
    var j := JointRun(START, ms).value;
    GT.LeaseSafety(j.slot);
    AT.LoadedDirectoriesPresent(j.state);
  }

  /**
   A run admitted in any run of both gets a lease on the pointer's active set or on the one before it, and
   the references of the slot count exactly the live leases.
   */
  lemma AdmittedInStep(ms: seq<Move>)
    requires JointRun(START, ms).Some? && JointRun(START, ms).value.slot.accepting
    ensures
      var g, pointer := JointRun(START, ms).value.slot, JointRun(START, ms).value.state.db.pointer;
      && (pointer.None? ==> g.current.root.None?)
      && (pointer.Some? && g.current.root != Some(pointer.value.active) ==> g.current.root == pointer.value.previous)
      && g.current.references == |GT.HeldOn(g.leases, g.current.number)|
  {
    StartAgrees();
    RunAgrees(START, ms);
    hide JointRun, A.Next, GT.Reachable, AT.Reachable;
    var j := JointRun(START, ms).value;
    GT.LeaseSafety(j.slot);
    AT.Lockstep(j.state);
  }

  /**
   Shutdown cleans the current generation up only when no run is admitted and no lease is live, and none is
   captured afterwards, while the process lives.
   */
  lemma CleanupUnleased(ms: seq<Move>, removed: bool, rest: seq<Move>)
    requires JointRun(START, ms).Some?
    requires JointNext(JointRun(START, ms).value, Do(A.CleanupCurrent(removed))).Some?
    requires
      var k := JointNext(JointRun(START, ms).value, Do(A.CleanupCurrent(removed))).value;
      JointRun(k, rest).Some? && Do(A.Crash) !in rest
    ensures
      var j := JointRun(START, ms).value;
      !j.slot.accepting && j.slot.leases == map[]
    ensures
      var j := JointRun(JointNext(JointRun(START, ms).value, Do(A.CleanupCurrent(removed))).value, rest).value;
      !j.slot.accepting && j.slot.leases == map[]
  {
    StartAgrees();
    RunAgrees(START, ms);
    var j := JointRun(START, ms).value;
    var k := JointNext(j, Do(A.CleanupCurrent(removed))).value;
    NextAgrees(j, Do(A.CleanupCurrent(removed)));
    hide JointRun;
    CleanupStarts(j, removed);
    hide JointNext;
    StaysDrained(k, rest);
  }

  ghost predicate Drained(j: Joint) {
    Agree(j) && j.state.proc.draining && j.slot.leases == map[]
  }

  lemma DrainedIsClosed(j: Joint)
    requires Agree(j) && j.state.proc.draining
    ensures !j.slot.accepting
  {
    hide GT.Reachable, AT.Reachable;
    AT.NoRunWhileDraining(j.state);
  }

  lemma CleanupStarts(j: Joint, removed: bool)
    requires Agree(j) && JointNext(j, Do(A.CleanupCurrent(removed))).Some?
    requires Agree(JointNext(j, Do(A.CleanupCurrent(removed))).value)
    ensures !j.slot.accepting && j.slot.leases == map[]
    ensures Drained(JointNext(j, Do(A.CleanupCurrent(removed))).value)
  {
    hide GT.Reachable, AT.Reachable, SlotCalls;
    assert j.state.proc.draining && j.slot.retired.None? && G.LeasesDrained(j.slot);
    DrainedIsClosed(j);
    NoLeaseNoReference(j.slot);
    var t := A.Next(j.state, A.CleanupCurrent(removed)).value;
    assert t.proc.slot == j.state.proc.slot && t.proc.draining;
    assert SlotCalls(j.slot, j.state.proc, t.proc) == [] by { NoCalls(j.slot, j.state.proc, t.proc); }
  }

  lemma NoCalls(g: G.Slot, p: A.Process, q: A.Process)
    requires q.slot == p.slot && (g.reservation.Some? <==> p.slot.reserved)
    ensures SlotCalls(g, p, q) == []
  {
  }

  lemma {:induction false} StaysDrained(j: Joint, ms: seq<Move>)
    requires Drained(j) && JointRun(j, ms).Some? && Do(A.Crash) !in ms
    ensures !JointRun(j, ms).value.slot.accepting && JointRun(j, ms).value.slot.leases == map[]
    decreases |ms|
  {
    if ms == [] {
      DrainedIsClosed(j);
    } else {
      hide JointNext, Drained;
      DrainedNext(j, ms[0]);
      StaysDrained(JointNext(j, ms[0]).value, ms[1..]);
    }
  }

  lemma DrainedNext(j: Joint, m: Move)
    requires Drained(j) && JointNext(j, m).Some? && m != Do(A.Crash)
    ensures Drained(JointNext(j, m).value)
  {
    NextAgrees(j, m);
    DrainedIsClosed(j);
    hide Agree;
    match m
    case Inner(a) => InnerKeeps(j.slot, a);
    case Cleaned(removed) => CleanedKeepsDrain(j, removed);
    case Do(a) => DoKeepsDrain(j, a);
  }

  lemma CleanedKeepsDrain(j: Joint, removed: bool)
    requires JointNext(j, Cleaned(removed)).Some?
    ensures JointNext(j, Cleaned(removed)).value.state.proc.draining == j.state.proc.draining
    ensures JointNext(j, Cleaned(removed)).value.slot.leases == j.slot.leases
  {
    hide R.Apply, A.CoordinatorStep, A.AnswerStep;
  }

  lemma DoKeepsDrain(j: Joint, a: A.Step)
    requires Drained(j) && DoStep(j, a).Some? && !a.Crash?
    ensures DoStep(j, a).value.state.proc.draining && DoStep(j, a).value.slot.leases == j.slot.leases
  {
    hide GT.Reachable, AT.Reachable, A.Next, AI.StateInv;
    AT.ReachableHolds(j.state);
    AT.DrainingNext(j.state, a);
    if !a.Start? {
      AT.SlotFollows(j.state, a);
      NoLeaseNoReference(j.slot);
      CallsAgree(j.slot, j.state.proc, a, A.Next(j.state, a).value.proc);
    }
  }
}
