/** Agreement of the model slot with the active pointer, and the fate of every candidate, over every run. */
module ModelControlTheorems {
  import opened Common
  import opened ModelControl

  // ---------------------------------------------------------------------------
  // The invariant

  predicate InSection(s: State, call: nat) {
    At(s, call, Loading) || At(s, call, Committing)
  }

  ghost predicate LockInv(s: State) {
    forall t: nat :: InSection(s, t) <==> s.holder == Some(t)
  }

  /** A revision of a provider has one configuration, so a head read earlier is current or outdated. */
  ghost predicate HeadHolds(heads: map<Provider, Head>, provider: Provider, head: Head) {
    && provider in heads
    && head.revision <= heads[provider].revision
    && (head.revision == heads[provider].revision ==> heads[provider] == head)
  }

  ghost predicate FlightHolds(s: State, t: nat)
    requires t in s.flights
  {
    var f := s.flights[t];
    && t in s.calls
    && f.provider == s.calls[t].provider && f.revision == s.calls[t].head.revision
    && f.expected <= Version(s)
    && (f.status.Committed? ==>
          f.status.pointer == Active(s.calls[t].head.config, f.revision, f.expected + 1))
  }

  ghost predicate CallsInv(s: State) {
    && (forall t :: t in s.calls ==> HeadHolds(s.heads, s.calls[t].provider, s.calls[t].head))
    && (forall t :: t in s.flights ==> FlightHolds(s, t))
    && (forall t: nat :: At(s, t, Committing) ==> t in s.flights && s.slot.last <= s.flights[t].expected)
    && (forall t :: t in s.flights ==> At(s, t, Committing) || At(s, t, Closing) || At(s, t, Done))
  }

  /** The commit of the call inside the critical section has run. */
  ghost predicate JustCommitted(s: State) {
    s.holder.Some? && At(s, s.holder.value, Committing)
    && s.holder.value in s.flights && s.flights[s.holder.value].status.Committed?
  }

  predicate Agrees(a: Active, pointer: Option<Active>) {
    pointer == (if a.version == 0 then None else Some(a))
  }

  /** Commits whose reply was lost can no longer run once a newer model is active. */
  ghost predicate Overtaken(s: State, t: nat)
    requires t in s.flights
  {
    s.flights[t].status.Waiting? && s.holder != Some(t) && (s.slot.active.Some? || JustCommitted(s)) ==>
      s.flights[t].expected < Version(s)
  }

  ghost predicate SlotInv(s: State) {
    && s.slot.last <= Version(s)
    && (s.pointer.Some? ==> s.pointer.value.version >= 1)
    && (forall t :: t in s.flights ==> Overtaken(s, t))
    && (JustCommitted(s) ==> s.pointer == Some(s.flights[s.holder.value].status.pointer))
    && (s.slot.active.Some? && !JustCommitted(s) ==> Agrees(s.slot.active.value, s.pointer))
  }

  ghost predicate CandidateHolds(s: State, t: nat)
    requires t in s.calls
  {
    t in s.candidates && s.candidates[t].transfers + s.candidates[t].closes == (if s.calls[t].phase.Done? then 1 else 0)
  }

  ghost predicate CandidatesInv(s: State) {
    && (forall t :: t in s.calls ==> CandidateHolds(s, t))
    && (forall t :: t in s.candidates ==> t in s.calls)
  }

  ghost predicate Inv(s: State) {
    (LockInv(s) && CallsInv(s) && SlotInv(s) && CandidatesInv(s)) == true
  }

  lemma RestoredInv(heads: map<Provider, Head>, pointer: Option<Active>, built: bool)
    requires pointer.Some? ==> pointer.value.version >= 1
    ensures Inv(Restored(heads, pointer, built))
  {
  }

  // ---------------------------------------------------------------------------
  // Every step keeps it

  lemma SaveKeeps(s: State, provider: Provider, expected: nat, config: Uuid)
    requires Inv(s)
    ensures Inv(SaveStep(s, provider, expected, config))
  {
  }

  lemma BeginKeeps(s: State, call: nat, provider: Provider, revision: nat)
    requires Inv(s) && BeginStep(s, call, provider, revision).Some?
    ensures Inv(BeginStep(s, call, provider, revision).value)
  {
  }

  /** A call that is not committing moves on, or leaves the critical section. */
  lemma MoveKeeps(s: State, t: nat, phase: Phase)
    requires Inv(s) && t in s.calls && t !in s.flights
    requires !phase.Done? && !s.calls[t].phase.Done? && !phase.Committing? && !s.calls[t].phase.Committing?
    requires phase.Loading? <==> s.calls[t].phase.Loading?
    ensures Inv(Move(s, t, phase))
  {
    MoveKeepsCalls(s, t, phase);
    MoveKeepsSlot(s, t, phase);
    hide LockInv, CallsInv, SlotInv;
  }

  lemma MoveKeepsCalls(s: State, t: nat, phase: Phase)
    requires LockInv(s) && CallsInv(s) && t in s.calls && t !in s.flights
    requires !phase.Committing? && !s.calls[t].phase.Committing?
    requires phase.Loading? <==> s.calls[t].phase.Loading?
    ensures LockInv(Move(s, t, phase)) && CallsInv(Move(s, t, phase))
  {
    hide HeadHolds;
  }

  lemma MoveKeepsSlot(s: State, t: nat, phase: Phase)
    requires SlotInv(s) && t in s.calls && t !in s.flights
    requires !phase.Committing? && !s.calls[t].phase.Committing?
    ensures SlotInv(Move(s, t, phase))
  {
    var u := Move(s, t, phase);
    assert JustCommitted(u) <==> JustCommitted(s);
    forall o | o in u.flights
      ensures Overtaken(u, o)
    {
      assert Overtaken(s, o);
    }
  }

  lemma LeaveKeeps(s: State, t: nat)
    requires Inv(s) && t in s.calls && !s.calls[t].phase.Done? && !At(s, t, Committing)
    ensures Inv(Leave(s, t))
  {
    LeaveKeepsCalls(s, t);
    LeaveKeepsSlot(s, t);
    hide LockInv, CallsInv, SlotInv;
  }

  lemma LeaveKeepsCalls(s: State, t: nat)
    requires LockInv(s) && CallsInv(s) && t in s.calls && !s.calls[t].phase.Done? && !At(s, t, Committing)
    ensures LockInv(Leave(s, t)) && CallsInv(Leave(s, t))
  {
    hide HeadHolds;
  }

  lemma LeaveKeepsSlot(s: State, t: nat)
    requires LockInv(s) && CallsInv(s) && SlotInv(s) && t in s.calls && !s.calls[t].phase.Done? && !At(s, t, Committing)
    ensures SlotInv(Leave(s, t))
  {
    hide HeadHolds;
  }

  lemma AcquireKeeps(s: State, t: nat)
    requires Inv(s) && At(s, t, WaitingForLock) && s.holder.None?
    ensures Inv(Move(s, t, Loading).(holder := Some(t)))
  {
  }

  lemma LoadedKeeps(s: State, t: nat)
    requires Inv(s) && At(s, t, Loading)
    ensures Inv(LoadedStep(s, t, false).value)
  {
    LoadedKeepsCalls(s, t);
    LoadedKeepsSlot(s, t);
    hide LockInv, CallsInv, SlotInv;
  }

  lemma LoadedKeepsCalls(s: State, t: nat)
    requires LockInv(s) && CallsInv(s) && SlotInv(s) && At(s, t, Loading)
    ensures LockInv(LoadedStep(s, t, false).value) && CallsInv(LoadedStep(s, t, false).value)
  {
    hide HeadHolds, JustCommitted;
  }

  lemma LoadedKeepsSlot(s: State, t: nat)
    requires LockInv(s) && CallsInv(s) && SlotInv(s) && At(s, t, Loading)
    ensures SlotInv(LoadedStep(s, t, false).value)
  {
    hide HeadHolds;
    assert s.holder == Some(t) by { assert InSection(s, t); }
    var u := LoadedStep(s, t, false).value;
    assert !JustCommitted(s) && !JustCommitted(u);
    forall o | o in u.flights
      ensures Overtaken(u, o)
    {
      if o in s.flights {
        assert Overtaken(s, o);
      }
    }
  }

  /** A commit runs only on its own configuration, over the version it expects. */
  lemma ExecuteKeepsCalls(s: State, t: nat)
    requires LockInv(s) && CallsInv(s) && SlotInv(s) && ExecuteStep(s, t).Some?
    ensures LockInv(ExecuteStep(s, t).value) && CallsInv(ExecuteStep(s, t).value)
  {
    hide SlotInv;
    var u := ExecuteStep(s, t).value;
    assert FlightHolds(s, t) && HeadHolds(s.heads, s.calls[t].provider, s.calls[t].head);
    forall o | o in u.flights
      ensures FlightHolds(u, o)
    {
      assert FlightHolds(s, o);
    }
  }

  /** Only the call inside the critical section can commit while a model is active. */
  lemma ExecuteKeepsSlot(s: State, t: nat)
    requires LockInv(s) && CallsInv(s) && SlotInv(s) && ExecuteStep(s, t).Some?
    ensures SlotInv(ExecuteStep(s, t).value)
  {
    var u := ExecuteStep(s, t).value;
    assert FlightHolds(s, t) && Overtaken(s, t);
    hide HeadHolds;
    forall o | o in u.flights
      ensures Overtaken(u, o)
    {
      assert FlightHolds(s, o) && Overtaken(s, o);
    }
  }

  lemma ExecuteKeeps(s: State, t: nat)
    requires Inv(s) && ExecuteStep(s, t).Some?
    ensures Inv(ExecuteStep(s, t).value)
  {
    ExecuteKeepsCalls(s, t);
    ExecuteKeepsSlot(s, t);
    hide LockInv, CallsInv, SlotInv;
  }

  lemma AbortKeeps(s: State, t: nat)
    requires Inv(s) && t in s.flights && s.flights[t].status.Waiting?
    ensures Inv(s.(flights := s.flights[t := s.flights[t].(status := Refused)]))
  {
    AbortKeepsCalls(s, t);
    AbortKeepsSlot(s, t);
    hide LockInv, CallsInv, SlotInv;
  }

  lemma AbortKeepsCalls(s: State, t: nat)
    requires LockInv(s) && CallsInv(s) && t in s.flights && s.flights[t].status.Waiting?
    ensures
      var u := s.(flights := s.flights[t := s.flights[t].(status := Refused)]);
      LockInv(u) && CallsInv(u)
  {
    var u := s.(flights := s.flights[t := s.flights[t].(status := Refused)]);
    hide HeadHolds;
    forall o | o in u.flights
      ensures FlightHolds(u, o)
    {
      assert FlightHolds(s, o);
    }
  }

  lemma AbortKeepsSlot(s: State, t: nat)
    requires SlotInv(s) && t in s.flights && s.flights[t].status.Waiting?
    ensures SlotInv(s.(flights := s.flights[t := s.flights[t].(status := Refused)]))
  {
    var u := s.(flights := s.flights[t := s.flights[t].(status := Refused)]);
    assert JustCommitted(u) <==> JustCommitted(s);
    forall o | o in u.flights
      ensures Overtaken(u, o)
    {
      assert Overtaken(s, o);
    }
  }

  lemma RefusedKeeps(s: State, t: nat)
    requires Inv(s) && At(s, t, Committing) && t in s.flights && s.flights[t].status.Refused?
    ensures Inv(Leave(s, t))
  {
    assert s.holder == Some(t) by { assert InSection(s, t); }
    var u := Leave(s, t);
    hide HeadHolds;
    forall o | o in u.flights
      ensures FlightHolds(u, o) && Overtaken(u, o)
    {
      assert FlightHolds(s, o) && Overtaken(s, o);
    }
  }

  /** A reply that never came, or one the slot cannot serve: the slot is degraded. */
  lemma DegradedKeeps(s: State, t: nat)
    requires Inv(s) && At(s, t, Committing)
    ensures Inv(Leave(s, t).(slot := Degrade(s.slot)))
  {
    assert s.holder == Some(t) by { assert InSection(s, t); }
    var u := Leave(s, t).(slot := Degrade(s.slot));
    hide HeadHolds;
    forall o | o in u.flights
      ensures FlightHolds(u, o)
    {
      assert FlightHolds(s, o);
    }
  }

  /** A commit whose reply arrives is newer than anything the slot ever had, and every older commit is stale. */
  lemma CommittedIsNew(s: State, t: nat)
    requires Inv(s) && At(s, t, Committing) && t in s.flights && s.flights[t].status.Committed?
    ensures ValidPointer(s, t, s.flights[t].status.pointer)
    ensures s.flights[t].status.pointer.version > s.slot.last
    ensures s.holder == Some(t) && s.pointer == Some(s.flights[t].status.pointer)
  {
    assert InSection(s, t) && FlightHolds(s, t);
  }

  lemma InstallKeeps(s: State, t: nat)
    requires Inv(s) && At(s, t, Committing) && t in s.flights && s.flights[t].status.Committed?
    requires ReplyStep(s, t).Some?
    ensures Inv(ReplyStep(s, t).value)
  {
    CommittedIsNew(s, t);
    var p := s.flights[t].status.pointer;
    if Accepts(s.slot, p.version) {
      var u := ReplyStep(s, t).value;
      forall o: nat | At(u, o, Committing)
        ensures InSection(s, o)
      {
      }
      hide HeadHolds;
      forall o | o in u.flights
        ensures FlightHolds(u, o) && Overtaken(u, o)
      {
        assert FlightHolds(s, o) && Overtaken(s, o);
      }
    } else {
      DegradedKeeps(s, t);
    }
  }

  function AfterClose(s: State, t: nat): State
    requires At(s, t, Closing) && t in s.candidates
  {
    Move(s, t, Done).(candidates := s.candidates[t := s.candidates[t].(closes := s.candidates[t].closes + 1)])
  }

  lemma ClosedKeepsCalls(s: State, t: nat)
    requires LockInv(s) && CallsInv(s) && At(s, t, Closing) && t in s.candidates
    ensures LockInv(AfterClose(s, t)) && CallsInv(AfterClose(s, t))
  {
    hide HeadHolds;
    var u := AfterClose(s, t);
    forall o | o in u.flights
      ensures FlightHolds(u, o)
    {
      assert FlightHolds(s, o);
    }
  }

  lemma ClosedKeepsSlot(s: State, t: nat)
    requires SlotInv(s) && CandidatesInv(s) && At(s, t, Closing) && t in s.candidates
    ensures SlotInv(AfterClose(s, t)) && CandidatesInv(AfterClose(s, t))
  {
    var u := AfterClose(s, t);
    assert JustCommitted(u) <==> JustCommitted(s);
    forall o | o in u.flights
      ensures Overtaken(u, o)
    {
      assert Overtaken(s, o);
    }
  }

  lemma ClosedKeeps(s: State, t: nat)
    requires Inv(s) && At(s, t, Closing) && t in s.candidates
    ensures Inv(Next(s, CandidateClosed(t)).value)
  {
    ClosedKeepsCalls(s, t);
    ClosedKeepsSlot(s, t);
    hide LockInv, CallsInv, SlotInv, CandidatesInv;
    assert Next(s, CandidateClosed(t)).value == AfterClose(s, t);
  }

  lemma NextKeeps(s: State, a: Step)
    requires Inv(s) && Next(s, a).Some?
    ensures Inv(Next(s, a).value)
  {
    hide Inv, SaveStep, BeginStep, ExecuteStep, Move, Leave;
    match a
    case Save(provider, expected, config) => SaveKeeps(s, provider, expected, config);
    case Begin(call, provider, revision) => BeginKeeps(s, call, provider, revision);
    case Verified(call, ok) =>
      NoFlightYet(s, call);
      MoveKeeps(s, call, if ok then WaitingForLock else Recording);
    case Recorded(call) => LeaveKeeps(s, call);
    case AcquireLock(call) => AcquireKeeps(s, call);
    case Loaded(call, failed) =>
      if failed {
        LeaveKeeps(s, call);
      } else {
        LoadedKeeps(s, call);
      }
    case Execute(call) => ExecuteKeeps(s, call);
    case AbortFlight(call) => AbortKeeps(s, call);
    case Reply(call) =>
      if s.flights[call].status.Refused? {
        RefusedKeeps(s, call);
      } else {
        InstallKeeps(s, call);
      }
    case LoseReply(call) => DegradedKeeps(s, call);
    case Cancel(call) => LeaveKeeps(s, call);
    case CandidateClosed(call) => ClosedKeeps(s, call);
    case StopSlot => StopKeeps(s);
  }

  lemma NoFlightYet(s: State, t: nat)
    requires Inv(s) && At(s, t, Verifying)
    ensures t !in s.flights
  {
  }

  lemma StopKeeps(s: State)
    requires Inv(s)
    ensures Inv(s.(slot := Slot(None, s.slot.last, false)))
  {
    var u := s.(slot := Slot(None, s.slot.last, false));
    forall o | o in u.flights
      ensures FlightHolds(u, o) && Overtaken(u, o)
    {
      assert FlightHolds(s, o) && Overtaken(s, o);
    }
  }

  lemma {:induction false} RunKeeps(s: State, steps: seq<Step>)
    requires Inv(s) && Run(s, steps).Some?
    ensures Inv(Run(s, steps).value)
    decreases |steps|
  {
    if steps != [] {
      NextKeeps(s, steps[0]);
      hide Inv, Next;
      RunKeeps(Next(s, steps[0]).value, steps[1..]);
    }
  }

  /** Reachable within one process run, after restoring whatever pointer it found. */
  ghost predicate Reachable(s: State) {
    exists heads, pointer: Option<Active>, built, steps ::
      (pointer.Some? ==> pointer.value.version >= 1) && Run(Restored(heads, pointer, built), steps) == Some(s)
  }

  lemma ReachableInv(s: State)
    requires Reachable(s)
    ensures Inv(s)
  {
    var heads, pointer: Option<Active>, built, steps :|
      (pointer.Some? ==> pointer.value.version >= 1) && Run(Restored(heads, pointer, built), steps) == Some(s);
    RestoredInv(heads, pointer, built);
    RunKeeps(Restored(heads, pointer, built), steps);
  }

  // ---------------------------------------------------------------------------
  // Every run

  /**
   Outside the moment between a commit and its installation, an available model is the database's: a
   dynamic one has the pointer's configuration, revision and version, the deployment one means no pointer.
   */
  lemma Agreement(s: State)
    requires Reachable(s) && s.slot.active.Some? && !JustCommitted(s)
    ensures s.slot.active.value.version >= 1 ==> s.pointer == Some(s.slot.active.value)
    ensures s.slot.active.value.version == 0 ==> s.pointer.None?
  {
    ReachableInv(s);
  }

  /** In that moment the pointer is the one the caller is about to install, one version ahead of the slot or more. */
  lemma AgreementAfterReply(s: State, t: nat)
    requires Reachable(s) && At(s, t, Committing) && t in s.flights && s.flights[t].status.Committed?
    requires s.slot.serving && t in s.candidates
    ensures ReplyStep(s, t).Some?
    ensures ReplyStep(s, t).value.slot.active == s.pointer && s.pointer.Some?
    ensures At(ReplyStep(s, t).value, t, Done) && ReplyStep(s, t).value.holder.None?
  {
    ReachableInv(s);
    CommittedIsNew(s, t);
  }

  /** A serving slot never rejects a committed version as stale. */
  lemma NeverStale(s: State, t: nat)
    requires Reachable(s) && At(s, t, Committing) && t in s.flights && s.flights[t].status.Committed?
    ensures Accepts(s.slot, s.flights[t].status.pointer.version) <==> s.slot.serving
  {
    ReachableInv(s);
    CommittedIsNew(s, t);
  }

  /** A commit whose reply was lost cannot run any more once a model is active, now or later. */
  lemma LostCommitOvertaken(s: State, t: nat, steps: seq<Step>)
    requires Reachable(s) && s.slot.active.Some? && s.holder != Some(t)
    requires t in s.flights && s.flights[t].status.Waiting? && Run(s, steps).Some?
    ensures
      var u := Run(s, steps).value;
      t in u.flights && !u.flights[t].status.Committed? && u.flights[t].expected < Version(u)
  {
    ReachableInv(s);
    assert Overtaken(s, t);
    assert !InSection(s, t);
    StaleStays(s, t, steps);
  }

  lemma {:induction false} StaleStays(s: State, t: nat, steps: seq<Step>)
    requires Inv(s) && t in s.flights && !s.flights[t].status.Committed? && s.flights[t].expected < Version(s)
    requires Run(s, steps).Some?
    ensures
      var u := Run(s, steps).value;
      t in u.flights && !u.flights[t].status.Committed? && u.flights[t].expected < Version(u)
    decreases |steps|
  {
    if steps != [] {
      NextKeeps(s, steps[0]);
      StaleNext(s, t, steps[0]);
      hide Inv, Next;
      StaleStays(Next(s, steps[0]).value, t, steps[1..]);
    }
  }

  lemma StaleNext(s: State, t: nat, a: Step)
    requires Inv(s) && t in s.flights && !s.flights[t].status.Committed? && s.flights[t].expected < Version(s)
    requires Next(s, a).Some?
    ensures
      var u := Next(s, a).value;
      t in u.flights && !u.flights[t].status.Committed? && u.flights[t].expected < Version(u)
  {
    hide SlotInv, CandidatesInv, HeadHolds, FlightHolds, Accepts, SaveStep, BeginStep;
    SaveSparesFlights(s, a);
  }

  lemma SaveSparesFlights(s: State, a: Step)
    ensures a.Save? ==> SaveStep(s, a.provider, a.expected, a.config) == s.(heads := SaveStep(s, a.provider, a.expected, a.config).heads)
    ensures a.Begin? && BeginStep(s, a.call, a.provider, a.revision).Some? ==>
              BeginStep(s, a.call, a.provider, a.revision).value.flights == s.flights
              && BeginStep(s, a.call, a.provider, a.revision).value.pointer == s.pointer
  {
  }

  /** Every candidate built is handed to the slot or closed, once in all, when its call ends, and not before. */
  lemma CandidateConserved(s: State, t: nat)
    requires Reachable(s) && t in s.calls
    ensures t in s.candidates
    ensures s.candidates[t].transfers + s.candidates[t].closes == (if s.calls[t].phase.Done? then 1 else 0)
  {
    ReachableInv(s);
    assert CandidateHolds(s, t);
  }

  /** The activation lock is held exactly inside the critical section. */
  lemma LockIsSection(s: State, t: nat)
    requires Reachable(s)
    ensures s.holder == Some(t) <==> At(s, t, Loading) || At(s, t, Committing)
  {
    ReachableInv(s);
    assert InSection(s, t) <==> s.holder == Some(t);
  }
}
