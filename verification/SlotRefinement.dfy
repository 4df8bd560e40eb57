/**
 The generation slot refines the slot of the activation protocol: leases, waiters and wakeups never show
 there, and reserving, committing, cancelling and reaping are the protocol's own moves.
 */
module SlotRefinement {
  import opened Common
  import G = GenerationSlot
  import GT = GenerationSlotTheorems
  import A = Activation

  /** Generations are known by their set; each set is activated in one version. */
  function GenerationOf(root: Option<Uuid>, version: Uuid -> nat): Option<A.Generation> {
    if root.Some? then Some(A.Generation(root.value, version(root.value))) else None
  }

  function View(s: G.Slot, version: Uuid -> nat): A.Slot {
    A.Slot(
      GenerationOf(s.current.root, version),
      if s.retired.Some? then Some(GenerationOf(s.retired.value.root, version)) else None,
      s.reservation.Some?,
      s.accepting)
  }

  /** A process whose slot is the one given. */
  function With(p: A.Process, slot: A.Slot): A.Process {
    p.(slot := slot)
  }

  /** A reservation is granted exactly when the protocol's slot can be reserved, and reserves it. */
  lemma ReserveRefines(s: G.Slot, version: Uuid -> nat, p: A.Process)
    requires p.slot == View(s, version)
    ensures G.ReserveStep(s).Some? <==> A.CanReserve(p.slot)
    ensures G.ReserveStep(s).Some? ==> View(G.ReserveStep(s).value, version) == A.Reserve(p).slot
  {
  }

  /**
   Committing the held reservation succeeds exactly when the protocol's slot can commit, and installs the
   generation as the protocol does, the lease count deciding whether the old one retires.
   */
  lemma CommitRefines(s: G.Slot, version: Uuid -> nat, p: A.Process, token: nat, root: Uuid)
    requires GT.Reachable(s) && p.slot == View(s, version) && s.reservation == Some(token)
    ensures G.CommitStep(s, token, Some(root)).Some? && A.CanCommit(p.slot)
    ensures View(G.CommitStep(s, token, Some(root)).value, version) ==
            A.Install(p, A.Generation(root, version(root)), s.current.references > 0).slot
  {
    GT.HeldReservationCommits(s, token, Some(root));
  }

  lemma CancelRefines(s: G.Slot, version: Uuid -> nat, p: A.Process, token: nat)
    requires GT.Reachable(s) && p.slot == View(s, version) && s.reservation == Some(token)
    ensures View(G.CancelStep(s, token), version) == A.CancelReservation(p).slot
  {
    GT.ReachableInv(s);
  }

  /** A cleaned entry is what the protocol reaps. */
  lemma ReapRefines(s: G.Slot, version: Uuid -> nat)
    requires GT.Reachable(s) && s.wake.reaper.Cleaning?
    ensures View(s, version).retired.Some?
    ensures View(G.CleanedStep(s), version) == View(s, version).(retired := None)
  {
    GT.ReachableInv(s);
  }

  /** Everything else the slot does is invisible to the protocol. */
  lemma OtherStepsInvisible(s: G.Slot, version: Uuid -> nat, a: G.Step)
    requires !a.Reserve? && !a.Commit? && !a.Cancel? && !a.SetAccepting? && !a.CleanerReturns?
    requires G.Next(s, a).Some?
    ensures View(G.Next(s, a).value, version) == View(s, version)
  {
  }

  // ---------------------------------------------------------------------------
  // Runs

  /** One move of the protocol's slot: reserve, cancel, install, reap, or a change of admission. */
  ghost predicate Moves(p: A.Slot, q: A.Slot) {
    || q == p.(accepting := q.accepting)
    || (A.CanReserve(p) && q == p.(reserved := true))
    || (p.reserved && q == p.(reserved := false))
    || (A.CanCommit(p) && exists leased: bool :: q == Installed(p, q.current, leased))
    || (p.retired.Some? && q == p.(retired := None))
  }

  function Installed(p: A.Slot, g: Option<A.Generation>, leased: bool): A.Slot {
    A.Slot(g, if p.current.Some? || leased then Some(p.current) else None, false, p.accepting)
  }

  ghost predicate Path(slots: seq<A.Slot>) {
    slots != [] && forall i :: 0 <= i < |slots| - 1 ==> Moves(slots[i], slots[i + 1])
  }

  lemma StepMoves(s: G.Slot, version: Uuid -> nat, a: G.Step)
    requires GT.Reachable(s) && G.Next(s, a).Some?
    ensures Moves(View(s, version), View(G.Next(s, a).value, version))
  {
    GT.ReachableInv(s);
    hide GT.Reachable;
    if a.Commit? {
      assert View(G.Next(s, a).value, version) == View(s, version)
             || View(G.Next(s, a).value, version)
                == Installed(View(s, version), GenerationOf(a.root, version), s.current.references > 0);
    } else if !a.Reserve? && !a.Cancel? && !a.SetAccepting? && !a.CleanerReturns? {
      OtherStepsInvisible(s, version, a);
    }
  }

  lemma ReachableStep(s: G.Slot, a: G.Step)
    requires GT.Reachable(s) && G.Next(s, a).Some?
    ensures GT.Reachable(G.Next(s, a).value)
  {
    var root, steps :| G.Run(G.Initial(root), steps) == Some(s);
    hide G.Next;
    RunAppend(G.Initial(root), steps, a);
    assert G.Run(G.Initial(root), steps + [a]) == G.Next(s, a);
  }

  lemma {:induction false} RunAppend(s: G.Slot, steps: seq<G.Step>, a: G.Step)
    requires G.Run(s, steps).Some?
    ensures G.Run(s, steps + [a]) == G.Next(G.Run(s, steps).value, a)
    decreases |steps|
  {
    hide G.Next;
    if steps == [] {
      assert steps + [a] == [a] && [a][1..] == [];
    } else {
      assert (steps + [a])[1..] == steps[1..] + [a];
      RunAppend(G.Next(s, steps[0]).value, steps[1..], a);
    }
  }

  /** Every run of the generation slot is, step for step, a run of the protocol's slot. */
  lemma {:induction false} RunRefines(s: G.Slot, version: Uuid -> nat, steps: seq<G.Step>) returns (slots: seq<A.Slot>)
    requires GT.Reachable(s) && G.Run(s, steps).Some?
    ensures |slots| == |steps| + 1 && Path(slots)
    ensures forall i :: 0 <= i <= |steps| ==> G.Run(s, steps[..i]).Some? && slots[i] == View(G.Run(s, steps[..i]).value, version)
    decreases |steps|
  {
    hide G.Next, Moves, View, GT.Reachable;
    if steps == [] {
      slots := [View(s, version)];
    } else {
      var t := G.Next(s, steps[0]).value;
      ReachableStep(s, steps[0]);
      StepMoves(s, version, steps[0]);
      var rest := RunRefines(t, version, steps[1..]);
      slots := [View(s, version)] + rest;
      assert steps[1..][..0] == [] && rest[0] == View(t, version);
      forall i | 0 <= i <= |steps|
        ensures G.Run(s, steps[..i]).Some? && slots[i] == View(G.Run(s, steps[..i]).value, version)
      {
        if i > 0 {
          assert steps[..i][1..] == steps[1..][..i - 1];
        }
      }
    }
  }
}
